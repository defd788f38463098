/** Saving a journey: the destinations it names are spelled as keys, and the validator accepts it or refuses it. */
module FlowSaves {
  import opened Wrappers
  import opened ExtensionKeys
  import opened Directory
  import opened RouteNodes
  import opened InboundPlan
  import opened Mailboxes
  import opened MailboxLaws
  import InboundLaws
  import DialPlan
  import DialPlanMeaning
  import DialRules

  // ---------------------------------------------------------------- spelling destinations as keys

  /** The account's rows with these digits, on any line. */
  function RowsWith(rows: seq<Extension>, digits: string, owner: nat): seq<Extension> {
    if rows == [] then []
    else (if rows[0].owner == Some(owner) && rows[0].digits == digits then [rows[0]] else []) + RowsWith(rows[1..], digits, owner)
  }

  /**
   * The key a destination means: digits are the line's own on a number's journey, and on a desk's flow the one
   * row that carries them, or a refusal when several do. Anything else is kept as written.
   */
  function ResolveKey(s: Store, value: string, owner: nat, number: string): Option<string> {
    if value == "" || Scope(value) != "" || !AllDigits(value) then Some(value)
    else if number != "" then Some(if KeyOn(s, number, value, Some(owner)) != "" then KeyOn(s, number, value, Some(owner)) else value)
    else
      var rows := RowsWith(s.extensions, Digits(value), owner);
      if |rows| == 1 then Some(rows[0].key) else if |rows| > 1 then None else Some(value)
  }

  function ResolveAll(s: Store, values: seq<string>, owner: nat, number: string): Option<seq<string>> {
    if values == [] then Some([])
    else match (ResolveKey(s, values[0], owner, number), ResolveAll(s, values[1..], owner, number))
      case (Some(key), Some(rest)) => Some([key] + rest)
      case _ => None
  }

  function ResolveMappings(s: Store, keys: seq<Mapping>, owner: nat, number: string): Option<seq<Mapping>> {
    if keys == [] then Some([])
    else match (ResolveKey(s, keys[0].target, owner, number), ResolveMappings(s, keys[1..], owner, number))
      case (Some(target), Some(rest)) => Some([keys[0].(target := target)] + rest)
      case _ => None
  }

  function ResolveNode(s: Store, node: Node, owner: nat, number: string): Option<Node> {
    match (ResolveAll(s, node.extensions, owner, number), ResolveKey(s, node.extension, owner, number),
           ResolveKey(s, node.mailbox, owner, number), ResolveKey(s, node.fallback, owner, number), ResolveMappings(s, node.keys, owner, number))
    case (Some(extensions), Some(extension), Some(mailbox), Some(fallback), Some(keys)) =>
      Some(node.(extensions := extensions, extension := extension, mailbox := mailbox, fallback := fallback, keys := keys))
    case _ => None
  }

  function ResolveNodes(s: Store, nodes: seq<Node>, owner: nat, number: string): Option<seq<Node>> {
    if nodes == [] then Some([])
    else match (ResolveNode(s, nodes[0], owner, number), ResolveNodes(s, nodes[1..], owner, number))
      case (Some(node), Some(rest)) => Some([node] + rest)
      case _ => None
  }

  // ---------------------------------------------------------------- the validator

  /** The account's own keys, of devices in service or not. */
  predicate OwnKey(s: Store, owner: nat, key: string) {
    exists i :: 0 <= i < |s.extensions| && s.extensions[i].owner == Some(owner) && s.extensions[i].key == key
  }

  predicate OwnKeys(s: Store, owner: nat, keys: seq<string>) { forall i :: 0 <= i < |keys| ==> OwnKey(s, owner, keys[i]) }

  predicate SingleDigits(keys: seq<Mapping>) {
    && (forall i :: 0 <= i < |keys| ==> AllDigits(keys[i].key) && |keys[i].key| == 1)
    && (forall i, j :: 0 <= i < j < |keys| ==> keys[i].key != keys[j].key)
  }

  /** What the validator asks of one step. */
  predicate StepAccepted(s: Store, owner: nat, node: Node) {
    match node.kind
    case Desk => OwnKey(s, owner, node.extension)
    case VoicemailStep => OwnKey(s, owner, node.mailbox)
    case ForwardStep => true
    case Hours => node.days != [] && forall i :: 0 <= i < |node.days| ==> 1 <= node.days[i] <= 7
    case Menu =>
      && SingleDigits(node.keys) && (forall i :: 0 <= i < |node.keys| ==> OwnKey(s, owner, node.keys[i].target))
      && (node.fallback != "" ==> OwnKey(s, owner, node.fallback))
    case _ =>
      && (node.extensions != [] || !node.enabled) && OwnKeys(s, owner, node.extensions)
      && (node.group != "" ==> GroupHolds(GroupsOf(s.groups, Some(owner)), node.group, node.extensions))
  }

  /** The step's group is one of these, and every device it names is among its members. */
  predicate GroupHolds(groups: seq<Group>, id: string, members: seq<string>) {
    exists i :: 0 <= i < |groups| && groups[i].id == id && forall j :: 0 <= j < |members| ==> members[j] in groups[i].members
  }

  /** A desk's flow rings, takes messages or forwards, and nothing else. */
  predicate DeskKinds(nodes: seq<Node>) {
    forall i :: 0 <= i < |nodes| ==> nodes[i].kind == Desk || nodes[i].kind == VoicemailStep || nodes[i].kind == ForwardStep
  }

  predicate Accepted(s: Store, owner: nat, nodes: seq<Node>) {
    |nodes| <= 100 && forall i :: 0 <= i < |nodes| ==> StepAccepted(s, owner, nodes[i])
  }

  // ---------------------------------------------------------------- saving

  predicate HasNumber(s: Store, number: string, owner: nat) {
    exists i :: 0 <= i < |s.numbers| && s.numbers[i].number == number && s.numbers[i].owner == Some(owner)
  }

  function Replaced(flows: seq<Flow>, flow: Flow): seq<Flow> {
    if flows == [] then [flow]
    else if flows[0].owner == flow.owner && flows[0].target == flow.target then [flow] + flows[1..]
    else [flows[0]] + Replaced(flows[1..], flow)
  }

  predicate OthersRoute(s: Store, number: string, owner: nat) {
    exists i :: 0 <= i < |s.routes| && s.routes[i].target == number && s.routes[i].owner != owner
  }

  /** Save the journey of a number; None when the number or its journey is not the account's or a step is refused. */
  function SaveRoute(s: Store, owner: nat, number: string, nodes: seq<Node>): Option<Store> {
    if !HasNumber(s, number, owner) || OthersRoute(s, number, owner) then None
    else match ResolveNodes(s, nodes, owner, number)
      case None => None
      case Some(resolved) =>
        if Accepted(s, owner, resolved) then Some(s.(routes := Replaced(s.routes, Flow(owner, number, resolved)))) else None
  }

  /** Save the flow of a desk, named by its key or by digits that one device of the account has. */
  function SaveDesk(s: Store, owner: nat, target: string, nodes: seq<Node>): Option<Store> {
    match (ResolveKey(s, target, owner, ""), ResolveNodes(s, nodes, owner, ""))
    case (Some(key), Some(resolved)) =>
      if OwnKey(s, owner, key) && Accepted(s, owner, resolved) && DeskKinds(resolved)
      then Some(s.(desks := Replaced(s.desks, Flow(owner, key, resolved)))) else None
    case _ => None
  }

  // ---------------------------------------------------------------- what the validator guarantees

  /** Every voicemail step of the account that can speak for this number names one of the account's own devices. */
  predicate MailboxesOwned(s: Store, number: string, owner: nat) {
    && (forall i :: 0 <= i < |s.routes| && s.routes[i].owner == owner && s.routes[i].target == number ==> Accepted(s, owner, s.routes[i].nodes))
    && (forall i :: 0 <= i < |s.desks| && s.desks[i].owner == owner ==> Accepted(s, owner, s.desks[i].nodes))
  }

  /** A device of the account on no line and one on this line that carry the same digits. */
  predicate Shares(s: Store, number: string, owner: nat, bare: Extension, line: Extension) {
    && bare in s.extensions && line in s.extensions && bare.owner == Some(owner) && line.owner == Some(owner)
    && bare.number == "" && line.number == number && bare.digits == line.digits
  }

  /** The device on no line whose bare digits this mailbox is, when the line has those digits too. */
  predicate Clashes(s: Store, number: string, owner: nat, mailbox: string, onNumber: bool) {
    exists bare, line :: bare in s.extensions && line in s.extensions && Shares(s, number, owner, bare, line)
                         && bare.key == mailbox && (!onNumber || bare.active)
  }

  lemma {:induction false} ResolvesOn(rows: seq<Extension>, number: string, digits: string, owner: nat)
    ensures ResolveIn(rows, number, digits, Some(owner)).None? <==>
              forall e :: e in rows && e.owner == Some(owner) && e.number == number ==> e.digits != digits
  {
    if rows != [] {
      ResolvesOn(rows[1..], number, digits, owner);
      assert rows == [rows[0]] + rows[1..];
    }
  }

  /** Digits resolve on a number to its own device of this account, or to nothing. */
  lemma KeyOnIs(s: Store, number: string, digits: string, owner: nat)
    requires RowsValid(s.extensions) && number != "" && Digits(digits) != ""
    ensures KeyOn(s, number, digits, Some(owner)) == "" <==>
              forall e :: e in s.extensions && e.owner == Some(owner) && e.number == number ==> e.digits != Digits(digits)
  {
    hide Digits, Key, DialPlan.NumberText, DialPlan.ExtensionDigits;
    ResolvesOn(s.extensions, number, Digits(digits), owner);
    InboundLaws.ResolvedIsOwned(s.extensions, number, Digits(digits), Some(owner));
    if ResolveIn(s.extensions, number, Digits(digits), Some(owner)).Some? {
      var e :| e in s.extensions && e.number == number && e.digits == Digits(digits)
               && e.key == ResolveIn(s.extensions, number, Digits(digits), Some(owner)).value;
      ThreeDigitsArePlain(e.digits);
      KeyIsNotBlank(e);
    }
  }

  lemma HasKeyMeans(rows: seq<Extension>, e: Extension)
    requires RowsValid(rows) && e in rows
    ensures HasKey(ActiveRows(rows), e.key) <==> e.active
  {
    hide Key, DialPlan.NumberText, DialPlan.ExtensionDigits;
    ActiveRowsAre(rows);
    var active := ActiveRows(rows);
    if e.active { HasKeyOf(active, e); }
    if HasKey(active, e.key) {
      var i :| 0 <= i < |active| && active[i].key == e.key;
      assert active[i] in active;
      KeysTellRowsApart(rows, active[i], e);
    }
  }

  lemma NumberedKeyHasAt(e: Extension)
    requires DialPlan.ExtensionDigits(e.digits) && e.key == Key(e.digits, e.number) && e.number != ""
    ensures '@' in e.key
  {
    ThreeDigitsArePlain(e.digits);
    DigitsOfPlain(e.digits);
    assert e.key[|e.digits|] == '@';
  }

  /** A validated voicemail step agrees with the plan unless it is the bare digits of such a device. */
  lemma ValidatedStepAgreesIff(s: Store, number: string, owner: nat, mailbox: string, onNumber: bool)
    requires RowsValid(s.extensions) && number != "" && OwnKey(s, owner, mailbox)
    ensures Agrees(s, number, owner, mailbox, onNumber) <==> !Clashes(s, number, owner, mailbox, onNumber)
  {
    hide Key, DialPlan.NumberText, DialPlan.ExtensionDigits, HasKey, Digits;
    var i :| 0 <= i < |s.extensions| && s.extensions[i].owner == Some(owner) && s.extensions[i].key == mailbox;
    var e := s.extensions[i];
    assert e in s.extensions;
    ThreeDigitsArePlain(e.digits);
    KeyIsNotBlank(e);
    HasKeyMeans(s.extensions, e);
    if e.number != "" {
      NumberedKeyHasAt(e);
      forall bare | bare in s.extensions && bare.number == "" ensures bare.key != mailbox { BareKeyHasNoAt(bare); }
    } else {
      BareKeyHasNoAt(e);
      DigitsOfPlain(e.digits);
      KeyOnIs(s, number, mailbox, owner);
      forall bare | bare in s.extensions && bare.key == mailbox ensures bare == e { KeysTellRowsApart(s.extensions, bare, e); }
    }
  }

  lemma BareKeyHasNoAt(e: Extension)
    requires DialPlan.ExtensionDigits(e.digits) && e.key == Key(e.digits, e.number) && e.number == ""
    ensures '@' !in e.key && e.key == e.digits && AllDigits(e.key)
  {
    ThreeDigitsArePlain(e.digits);
  }

  /** An enabled voicemail step of one of these nodes clashes. */
  predicate NoneClash(s: Store, number: string, owner: nat, nodes: seq<Node>, onNumber: bool) {
    forall i :: 0 <= i < |nodes| && nodes[i].kind == VoicemailStep && nodes[i].enabled ==> !Clashes(s, number, owner, nodes[i].mailbox, onNumber)
  }

  lemma NodesAgreeIff(s: Store, number: string, owner: nat, nodes: seq<Node>, onNumber: bool)
    requires RowsValid(s.extensions) && number != "" && Accepted(s, owner, nodes)
    ensures AllAgree(s, number, owner, nodes, onNumber) <==> NoneClash(s, number, owner, nodes, onNumber)
  {
    hide Agrees, Clashes, RowsValid, OwnKey;
    forall i | 0 <= i < |nodes| && nodes[i].kind == VoicemailStep
      ensures Agrees(s, number, owner, nodes[i].mailbox, onNumber) <==> !Clashes(s, number, owner, nodes[i].mailbox, onNumber)
    {
      assert StepAccepted(s, owner, nodes[i]);
      ValidatedStepAgreesIff(s, number, owner, nodes[i].mailbox, onNumber);
    }
  }

  /**
   * The exact exception: validated flows agree with the plan unless some enabled voicemail step is the bare
   * digits of a device on no line that a device on this line carries too; on the number's own journey only if
   * the former is in service.
   */
  lemma ValidatedFlowsAgreeIff(s: Store, number: string, owner: nat)
    requires RowsValid(s.extensions) && number != "" && MailboxesOwned(s, number, owner)
    ensures FlowsAgree(s, number, owner) <==>
              && (forall i :: 0 <= i < |s.routes| && s.routes[i].owner == owner && s.routes[i].target == number ==> NoneClash(s, number, owner, s.routes[i].nodes, true))
              && (forall i :: 0 <= i < |s.desks| && s.desks[i].owner == owner ==> NoneClash(s, number, owner, s.desks[i].nodes, false))
  {
    hide AllAgree, NoneClash, Accepted, RowsValid;
    forall i | 0 <= i < |s.routes| && s.routes[i].owner == owner && s.routes[i].target == number
      ensures AllAgree(s, number, owner, s.routes[i].nodes, true) <==> NoneClash(s, number, owner, s.routes[i].nodes, true)
    {
      NodesAgreeIff(s, number, owner, s.routes[i].nodes, true);
    }
    forall i | 0 <= i < |s.desks| && s.desks[i].owner == owner
      ensures AllAgree(s, number, owner, s.desks[i].nodes, false) <==> NoneClash(s, number, owner, s.desks[i].nodes, false)
    {
      NodesAgreeIff(s, number, owner, s.desks[i].nodes, false);
    }
  }

  // ---------------------------------------------------------------- exactly when planned mailboxes are configured

  /** A device of the account on no line, and one in service on this line whose own switch is off, with the same digits. */
  predicate Hides(rows: seq<Extension>, number: string, owner: nat, bare: Extension, line: Extension) {
    && bare in rows && line in rows && bare.owner == Some(owner) && line.owner == Some(owner)
    && bare.number == "" && line.number == number && bare.digits == line.digits && line.active && !line.voicemail
  }

  predicate AnyHidden(rows: seq<Extension>, number: string, owner: nat) {
    exists bare, line :: bare in rows && line in rows && Hides(rows, number, owner, bare, line)
  }

  /** Every plan for the number that ends in the mailbox of an active extension names a configured one. */
  ghost predicate PlansAreConfigured(s: Store, number: string, owner: nat) {
    forall fallback: string, now: Moment, e: Extension ::
      e in s.extensions && e.active && Planned(s, number, fallback, now).voicemail == e.key ==> e.key in Configured(s)
  }

  predicate OwnsNumber(s: Store, number: string, owner: nat) {
    NumberOf(s.numbers, number).Some? && NumberOf(s.numbers, number).value.owner == Some(owner)
  }

  lemma ValidatedDelivers(s: Store, number: string, owner: nat, mailbox: string, onNumber: bool)
    requires RowsValid(s.extensions) && number != "" && OwnKey(s, owner, mailbox) && !AnyHidden(s.extensions, number, owner)
    ensures Delivers(s, number, owner, mailbox, onNumber)
  {
    hide Key, DialPlan.NumberText, DialPlan.ExtensionDigits, HasKey, Digits, KeyOn, ResolveMailbox, Agrees, Delivers, AnyHidden, Clashes;
    ValidatedStepAgreesIff(s, number, owner, mailbox, onNumber);
    if Clashes(s, number, owner, mailbox, onNumber) {
      ClashDelivers(s, number, owner, mailbox, onNumber);
    } else {
      AgreeingDelivers(s, number, owner, mailbox, onNumber);
    }
  }

  /** Even a step that disagrees delivers when the line's device is out of service or has its own switch on. */
  lemma ClashDelivers(s: Store, number: string, owner: nat, mailbox: string, onNumber: bool)
    requires RowsValid(s.extensions) && number != "" && Clashes(s, number, owner, mailbox, onNumber)
    requires !AnyHidden(s.extensions, number, owner)
    ensures Delivers(s, number, owner, mailbox, onNumber)
  {
    hide Key, DialPlan.NumberText, DialPlan.ExtensionDigits, HasKey, Digits, ResolveMailbox;
    var bare, line :| bare in s.extensions && line in s.extensions && Shares(s, number, owner, bare, line)
                      && bare.key == mailbox && (!onNumber || bare.active);
    BareKeyHasNoAt(bare);
    ThreeDigitsArePlain(bare.digits);
    DigitsOfPlain(bare.digits);
    LineAnswers(s, number, owner, line);
    forall e | e in s.extensions && e.active && VoicemailKey(s, number, mailbox, Some(owner)) == e.key ensures e.voicemail {
      KeysTellRowsApart(s.extensions, e, line);
      assert !Hides(s.extensions, number, owner, bare, line);
    }
  }

  /** The digits of a device on a line resolve to it there. */
  lemma LineAnswers(s: Store, number: string, owner: nat, line: Extension)
    requires RowsValid(s.extensions) && number != "" && line in s.extensions && line.number == number && line.owner == Some(owner)
    ensures KeyOn(s, number, line.digits, Some(owner)) == line.key && line.key != ""
  {
    hide Key, DialPlan.NumberText, DialPlan.ExtensionDigits, Digits;
    ThreeDigitsArePlain(line.digits);
    DigitsOfPlain(line.digits);
    KeyIsNotBlank(line);
    ResolvesOn(s.extensions, number, line.digits, owner);
    InboundLaws.ResolvedIsOwned(s.extensions, number, line.digits, Some(owner));
    var e :| e in s.extensions && e.number == number && e.digits == line.digits
             && e.key == ResolveIn(s.extensions, number, line.digits, Some(owner)).value;
  }

  lemma NodesDeliver(s: Store, number: string, owner: nat, nodes: seq<Node>, onNumber: bool)
    requires RowsValid(s.extensions) && number != "" && Accepted(s, owner, nodes) && !AnyHidden(s.extensions, number, owner)
    ensures AllDeliver(s, number, owner, nodes, onNumber)
  {
    hide Delivers, AnyHidden, RowsValid, OwnKey;
    forall i | 0 <= i < |nodes| && nodes[i].kind == VoicemailStep ensures Delivers(s, number, owner, nodes[i].mailbox, onNumber) {
      assert StepAccepted(s, owner, nodes[i]);
      ValidatedDelivers(s, number, owner, nodes[i].mailbox, onNumber);
    }
  }

  lemma ValidatedFlowsDeliver(s: Store, number: string, owner: nat)
    requires RowsValid(s.extensions) && number != "" && MailboxesOwned(s, number, owner) && !AnyHidden(s.extensions, number, owner)
    ensures FlowsDeliver(s, number, owner)
  {
    hide AllDeliver, AnyHidden, Accepted, RowsValid;
    forall i | 0 <= i < |s.routes| && s.routes[i].owner == owner && s.routes[i].target == number
      ensures AllDeliver(s, number, owner, s.routes[i].nodes, true)
    {
      NodesDeliver(s, number, owner, s.routes[i].nodes, true);
    }
    forall i | 0 <= i < |s.desks| && s.desks[i].owner == owner ensures AllDeliver(s, number, owner, s.desks[i].nodes, false) {
      NodesDeliver(s, number, owner, s.desks[i].nodes, false);
    }
  }

  /** The step that takes messages for this device, when asked by its bare digits. */
  function BareStep(digits: string): Node {
    Node(VoicemailStep, true, "", [], "", digits, "", [], "", [], 0, 0, false, None)
  }

  /** The line answers with its device, whose own flow takes messages for the device on no line. */
  function HiddenStore(rows: seq<Extension>, number: string, owner: nat, bare: Extension, line: Extension): Store {
    Store(rows, [Number(number, Some(owner), true, line.digits)], [], [], [Flow(owner, line.key, [BareStep(bare.key)])])
  }

  lemma HiddenIsValidated(rows: seq<Extension>, number: string, owner: nat, bare: Extension, line: Extension)
    requires RowsValid(rows) && number != "" && Hides(rows, number, owner, bare, line)
    ensures var t := HiddenStore(rows, number, owner, bare, line); OwnsNumber(t, number, owner) && MailboxesOwned(t, number, owner)
  {
    hide RowsValid;
    var t, step := HiddenStore(rows, number, owner, bare, line), BareStep(bare.key);
    var i :| 0 <= i < |rows| && rows[i] == bare;
    assert OwnKey(t, owner, bare.key);
    assert StepAccepted(t, owner, step);
    assert [step][0] == step;
  }

  lemma HiddenIsPlanned(rows: seq<Extension>, number: string, owner: nat, bare: Extension, line: Extension, now: Moment)
    requires RowsValid(rows) && number != "" && Hides(rows, number, owner, bare, line)
    ensures Planned(HiddenStore(rows, number, owner, bare, line), number, "", now).voicemail == line.key
  {
    hide Key, DialPlan.NumberText, DialPlan.ExtensionDigits, Digits, KeyOn, HandlingOf, Keep, Unique, Allowed, Scope;
    var t, step := HiddenStore(rows, number, owner, bare, line), BareStep(bare.key);
    LineAnswers(t, number, owner, line);
    ThreeDigitsArePlain(line.digits);
    BareKeyHasNoAt(bare);
    NumberedKeyHasAt(line);
    assert DeskFlow(t, Some(owner), line.key) == [step];
    assert [step][1..] == [];
    assert PolicyOf([step], line.key) == None;
    assert FirstVoicemail([step]) == Some(bare.key);
    assert VoicemailKey(t, number, bare.key, Some(owner)) == line.key;
    assert DeskVoicemail(t, number, line.key, Some(owner)) == line.key;
  }

  lemma HiddenIsNotConfigured(rows: seq<Extension>, number: string, owner: nat, bare: Extension, line: Extension)
    requires RowsValid(rows) && number != "" && Hides(rows, number, owner, bare, line)
    ensures line.key !in Configured(HiddenStore(rows, number, owner, bare, line))
  {
    hide Key, DialPlan.NumberText, DialPlan.ExtensionDigits, Digits, ResolveMailbox;
    var t, step := HiddenStore(rows, number, owner, bare, line), BareStep(bare.key);
    var active := ActiveRows(rows);
    ActiveRowsAre(rows);
    forall e | e in active && e.key == line.key ensures !e.voicemail { KeysTellRowsApart(rows, e, line); }
    BareNeverMeans(rows, number, owner, bare, line);
    assert forall key :: key in StepMailboxes(active, [step], "") ==> key == ResolveMailbox(active, bare.key, "");
    assert OfFlow(active, t.desks[0], false) == StepMailboxes(active, [step], "");
  }

  /** Read on no line, bare digits mean the device on no line or nothing. */
  lemma BareNeverMeans(rows: seq<Extension>, number: string, owner: nat, bare: Extension, line: Extension)
    requires RowsValid(rows) && number != "" && Hides(rows, number, owner, bare, line)
    ensures ResolveMailbox(ActiveRows(rows), bare.key, "") != line.key
  {
    hide Key, DialPlan.NumberText, DialPlan.ExtensionDigits, Digits, HasKey, Mailbox, LastWithMailbox;
    var active := ActiveRows(rows);
    ActiveRowsAre(rows);
    ThreeDigitsArePlain(bare.digits);
    KeyIsNotBlank(line);
    BareKeyHasNoAt(bare);
    NumberedKeyHasAt(line);
    if !HasKey(active, bare.key) {
      forall i | 0 <= i < |active| ensures Mailbox(active[i].key) != Mailbox(bare.key) {
        assert active[i] in active;
        HasKeyOf(active, active[i]);
        DialPlanMeaning.MailboxesDiffer(active[i].digits, active[i].number, bare.digits, "");
      }
      NoMailbox(active, Mailbox(bare.key));
    }
  }

  /**
   * On given tables: whatever validated flows are stored, every plan for a number of the account that ends in an
   * active extension's mailbox names a configured one, exactly when no device of the account on no line shares
   * its digits with a device in service on this line whose own voicemail switch is off.
   */
  lemma PlansAreConfiguredIff(rows: seq<Extension>, number: string, owner: nat)
    requires RowsValid(rows) && number != ""
    ensures !AnyHidden(rows, number, owner) <==>
              forall t: Store :: t.extensions == rows && OwnsNumber(t, number, owner) && MailboxesOwned(t, number, owner)
                ==> PlansAreConfigured(t, number, owner)
  {
    hide MailboxesOwned, RowsValid, PlansAreConfigured, OwnsNumber;
    if bare, line :| bare in rows && line in rows && Hides(rows, number, owner, bare, line) {
      HiddenIsValidated(rows, number, owner, bare, line);
      HiddenIsMissed(rows, number, owner, bare, line);
    } else {
      forall t: Store | t.extensions == rows && OwnsNumber(t, number, owner) && MailboxesOwned(t, number, owner)
        ensures PlansAreConfigured(t, number, owner)
      {
        ValidatedPlansAreConfigured(t, number, owner);
      }
    }
  }

  lemma HiddenIsMissed(rows: seq<Extension>, number: string, owner: nat, bare: Extension, line: Extension)
    requires RowsValid(rows) && number != "" && Hides(rows, number, owner, bare, line)
    ensures !PlansAreConfigured(HiddenStore(rows, number, owner, bare, line), number, owner)
  {
    hide RowsValid, Planned, Configured;
    HiddenIsPlanned(rows, number, owner, bare, line, Moment(0, 0));
    HiddenIsNotConfigured(rows, number, owner, bare, line);
  }

  lemma ValidatedPlansAreConfigured(s: Store, number: string, owner: nat)
    requires RowsValid(s.extensions) && number != "" && OwnsNumber(s, number, owner)
    requires MailboxesOwned(s, number, owner) && !AnyHidden(s.extensions, number, owner)
    ensures PlansAreConfigured(s, number, owner)
  {
    hide RowsValid, Planned, Configured, FlowsDeliver, MailboxesOwned, AnyHidden;
    ValidatedFlowsDeliver(s, number, owner);
    forall fallback: string, now: Moment, e: Extension
      | e in s.extensions && e.active && Planned(s, number, fallback, now).voicemail == e.key
      ensures e.key in Configured(s)
    {
      PlannedMailboxExists(s, number, fallback, now, owner, e);
    }
  }

  /** And the caller it hands over finds a rule: the inbound voicemail context takes a message in that mailbox. */
  lemma ValidatedMailboxAnswers(s: Store, number: string, fallback: string, now: Moment, owner: nat, e: Extension, keys: seq<string>)
    requires OwnsNumber(s, number, owner) && number != ""
    requires RowsValid(s.extensions) && MailboxesOwned(s, number, owner) && !AnyHidden(s.extensions, number, owner)
    requires e in s.extensions && e.active && Planned(s, number, fallback, now).voicemail == e.key
    requires forall key :: key in keys <==> key in Configured(s)
    ensures DialRules.Dial(DialPlan.MailboxRules(keys), Mailbox(e.key)) == Some(DialRules.LeaveMessage(Mailbox(e.key)))
  {
    hide Planned, Configured, FlowsDeliver, MailboxesOwned, AnyHidden, RowsValid, Mailbox;
    ValidatedFlowsDeliver(s, number, owner);
    PlannedMailboxAnswers(s, number, fallback, now, owner, e, keys);
  }

  // ---------------------------------------------------------------- what a save leaves behind

  lemma {:induction false} ResolvedNodesAre(s: Store, nodes: seq<Node>, owner: nat, number: string)
    ensures ResolveNodes(s, nodes, owner, number).Some? ==>
              var resolved := ResolveNodes(s, nodes, owner, number).value;
              && |resolved| == |nodes|
              && forall i :: 0 <= i < |nodes| ==> ResolveKey(s, nodes[i].mailbox, owner, number) == Some(resolved[i].mailbox)
  {
    hide ResolveKey, ResolveAll, ResolveMappings;
    if nodes != [] { ResolvedNodesAre(s, nodes[1..], owner, number); }
  }

  lemma RowsWithAre(rows: seq<Extension>, digits: string, owner: nat)
    ensures forall e :: e in RowsWith(rows, digits, owner) <==> e in rows && e.owner == Some(owner) && e.digits == digits
  {
    if rows != [] {
      RowsWithAre(rows[1..], digits, owner);
      assert rows == [rows[0]] + rows[1..];
    }
  }

  /** A bare key of the account that a journey's save leaves has no device of the line with those digits. */
  lemma SavedKeyOnNumber(s: Store, value: string, key: string, owner: nat, number: string, onNumber: bool)
    requires RowsValid(s.extensions) && number != "" && OwnKey(s, owner, key)
    requires ResolveKey(s, value, owner, number) == Some(key)
    ensures Agrees(s, number, owner, key, onNumber)
  {
    hide Key, DialPlan.NumberText, DialPlan.ExtensionDigits, HasKey, Digits, KeyOn, Scope;
    var i :| 0 <= i < |s.extensions| && s.extensions[i].owner == Some(owner) && s.extensions[i].key == key;
    var e := s.extensions[i];
    assert e in s.extensions;
    ThreeDigitsArePlain(e.digits);
    KeyIsNotBlank(e);
    if e.number != "" { NumberedKeyHasAt(e); }
    else {
      BareKeyHasNoAt(e);
      DigitsOfPlain(e.digits);
      if KeyOn(s, number, value, Some(owner)) != "" { KeyOnHasAt(s, number, value, owner); }
    }
  }

  lemma KeyOnHasAt(s: Store, number: string, digits: string, owner: nat)
    requires RowsValid(s.extensions) && number != "" && KeyOn(s, number, digits, Some(owner)) != ""
    ensures '@' in KeyOn(s, number, digits, Some(owner))
  {
    hide Key, DialPlan.NumberText, DialPlan.ExtensionDigits, Digits;
    InboundLaws.ResolvedIsOwned(s.extensions, number, Digits(digits), Some(owner));
    var e :| e in s.extensions && e.number == number && e.key == KeyOn(s, number, digits, Some(owner));
    NumberedKeyHasAt(e);
  }

  /** A bare key of the account that a desk's save leaves has no device with those digits on any line. */
  lemma SavedKeyOnDesk(s: Store, value: string, key: string, owner: nat, number: string)
    requires RowsValid(s.extensions) && number != "" && OwnKey(s, owner, key)
    requires ResolveKey(s, value, owner, "") == Some(key)
    ensures Agrees(s, number, owner, key, false)
  {
    hide Key, DialPlan.NumberText, DialPlan.ExtensionDigits, HasKey, Digits, KeyOn, Scope;
    var i :| 0 <= i < |s.extensions| && s.extensions[i].owner == Some(owner) && s.extensions[i].key == key;
    var e := s.extensions[i];
    assert e in s.extensions;
    ThreeDigitsArePlain(e.digits);
    KeyIsNotBlank(e);
    if e.number != "" { NumberedKeyHasAt(e); }
    else {
      BareKeyHasNoAt(e);
      DigitsOfPlain(e.digits);
      KeyOnIs(s, number, key, owner);
      BareIsTheOnlyRow(s, value, e, owner);
    }
  }

  lemma BareIsTheOnlyRow(s: Store, value: string, e: Extension, owner: nat)
    requires RowsValid(s.extensions) && e in s.extensions && e.owner == Some(owner) && e.number == "" && e.key == e.digits
    requires ResolveKey(s, value, owner, "") == Some(e.key)
    ensures forall f :: f in s.extensions && f.owner == Some(owner) && f.digits == e.digits ==> f == e
  {
    hide Key, DialPlan.NumberText, Digits, Scope;
    ThreeDigitsArePlain(e.digits);
    DigitsOfPlain(e.digits);
    var wanted := Digits(value);
    RowsWithAre(s.extensions, wanted, owner);
    var rows := RowsWith(s.extensions, wanted, owner);
    if value == e.key || |rows| != 1 {
      assert wanted == e.digits;
      assert e in rows;
    } else {
      assert rows[0] in rows && rows[0].key == e.key;
      KeysTellRowsApart(s.extensions, rows[0], e);
    }
    forall f | f in s.extensions && f.owner == Some(owner) && f.digits == e.digits ensures f == e {
      assert f in rows;
      assert f == rows[0] && e == rows[0];
    }
  }

  /** Every flow agrees with the plan when it is saved: a journey on its number, a desk's on every number. */
  lemma SavedRouteAgrees(s: Store, owner: nat, number: string, nodes: seq<Node>)
    requires RowsValid(s.extensions) && number != "" && SaveRoute(s, owner, number, nodes).Some?
    ensures AllAgree(s, number, owner, ResolveNodes(s, nodes, owner, number).value, true)
  {
    hide ResolveKey, RowsValid, Agrees, OwnKey, ResolveNodes;
    var resolved := ResolveNodes(s, nodes, owner, number).value;
    ResolvedNodesAre(s, nodes, owner, number);
    forall i | 0 <= i < |resolved| && resolved[i].kind == VoicemailStep ensures Agrees(s, number, owner, resolved[i].mailbox, true) {
      assert StepAccepted(s, owner, resolved[i]);
      SavedKeyOnNumber(s, nodes[i].mailbox, resolved[i].mailbox, owner, number, true);
    }
  }

  lemma SavedDeskAgrees(s: Store, owner: nat, target: string, nodes: seq<Node>, number: string)
    requires RowsValid(s.extensions) && number != "" && SaveDesk(s, owner, target, nodes).Some?
    ensures AllAgree(s, number, owner, ResolveNodes(s, nodes, owner, "").value, false)
  {
    hide ResolveKey, RowsValid, Agrees, OwnKey, ResolveNodes;
    var resolved := ResolveNodes(s, nodes, owner, "").value;
    ResolvedNodesAre(s, nodes, owner, "");
    forall i | 0 <= i < |resolved| && resolved[i].kind == VoicemailStep ensures Agrees(s, number, owner, resolved[i].mailbox, false) {
      assert StepAccepted(s, owner, resolved[i]);
      SavedKeyOnDesk(s, nodes[i].mailbox, resolved[i].mailbox, owner, number);
    }
  }

  /**
   * So a disagreement needs a device added after the save: a journey saved with the bare digits of a device on
   * no line keeps them, and once the line has a device with those digits the plan hands callers to a mailbox
   * that is not configured.
   */
  lemma LaterDeviceMissesTheMailbox(number: string, digits: string, now: Moment, owner: nat)
    requires DialPlan.ExtensionDigits(digits) && DialPlan.NumberText(number)
    ensures var bare := Extension(digits, "", digits, Some(owner), true, false);
            var line := Extension(Key(digits, number), number, digits, Some(owner), true, false);
            var before := Store([bare], [Number(number, Some(owner), true, "")], [], [], []);
            var saved := SaveRoute(before, owner, number, [BareStep(digits)]);
            && saved.Some?
            && RowsValid([bare, line])
            && Planned(saved.value.(extensions := [bare, line]), number, "", now).voicemail == line.key
            && line.key !in Configured(saved.value.(extensions := [bare, line]))
  {
    hide Planned, Configured, Key, DialPlan.NumberText;
    var bare := Extension(digits, "", digits, Some(owner), true, false);
    var line := Extension(Key(digits, number), number, digits, Some(owner), true, false);
    var before := Store([bare], [Number(number, Some(owner), true, "")], [], [], []);
    assert number != "" by { NumberIsNotBlank(number); }
    ThreeDigitsArePlain(digits);
    KeepsBareDigits(before, bare, number, digits, owner);
    BareDigitsMissTheMailbox(number, digits, now, owner, BareStep(digits));
    assert SaveRoute(before, owner, number, [BareStep(digits)]) == Some(before.(routes := [Flow(owner, number, [BareStep(digits)])]));
  }

  lemma NumberIsNotBlank(number: string)
    requires DialPlan.NumberText(number)
    ensures number != ""
  {}

  lemma ResolvesOne(s: Store, step: Node, owner: nat, number: string)
    requires ResolveNode(s, step, owner, number) == Some(step)
    ensures ResolveNodes(s, [step], owner, number) == Some([step])
  {
    hide ResolveNode;
    var one, none: seq<Node> := [step], [];
    assert one[1..] == none && one[0] == step && [step] + none == one;
    assert ResolveNodes(s, none, owner, number) == Some(none);
    assert ResolveNodes(s, one[1..], owner, number) == Some(none);
    assert ResolveNode(s, one[0], owner, number) == Some(step);
    assert ResolveNodes(s, one, owner, number) == Some([step] + none);
  }

  lemma KeepsBareDigits(s: Store, bare: Extension, number: string, digits: string, owner: nat)
    requires DialPlan.ExtensionDigits(digits) && number != "" && bare == Extension(digits, "", digits, Some(owner), true, false)
    requires s == Store([bare], [Number(number, Some(owner), true, "")], [], [], [])
    ensures SaveRoute(s, owner, number, [BareStep(digits)]) == Some(s.(routes := [Flow(owner, number, [BareStep(digits)])]))
  {
    hide DialPlan.ExtensionDigits;
    var step := BareStep(digits);
    ThreeDigitsArePlain(digits);
    DigitsOfPlain(digits);
    assert s.numbers[0].number == number && s.extensions[0].key == digits;
    assert s.extensions[1..] == [];
    assert ResolveIn(s.extensions, number, digits, Some(owner)) == None;
    assert KeyOn(s, number, digits, Some(owner)) == "";
    assert ResolveKey(s, digits, owner, number) == Some(digits);
    assert ResolveKey(s, "", owner, number) == Some("");
    assert ResolveNode(s, step, owner, number) == Some(step);
    ResolvesOne(s, step, owner, number);
    assert OwnKey(s, owner, digits);
    assert StepAccepted(s, owner, step);
  }
}
