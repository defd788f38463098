/** Planner and renderer agree: a mailbox that a plan hands a caller to is one that is configured. */
module MailboxLaws {
  import opened Wrappers
  import opened ExtensionKeys
  import opened Directory
  import opened RouteNodes
  import opened InboundPlan
  import opened Mailboxes
  import InboundLaws
  import DialRules
  import DialPlan
  import DialPlanMeaning

  /** The extension table as it is kept: keys spelled from digits and number, and no digits twice on a number. */
  predicate RowsValid(rows: seq<Extension>) {
    && (forall e :: e in rows ==> DialPlan.ExtensionDigits(e.digits) && (e.number == "" || DialPlan.NumberText(e.number))
                                  && e.key == Key(e.digits, e.number))
    && (forall e, f :: e in rows && f in rows && e.number == f.number && e.digits == f.digits ==> e == f)
  }

  /**
   * A voicemail step agrees with the plan when its text names its line, or the line has no device with those
   * digits, or the step is on the number's own journey and no active device is called by the bare digits.
   */
  predicate Agrees(s: Store, number: string, owner: nat, mailbox: string, onNumber: bool) {
    && mailbox != ""
    && ('@' in mailbox || KeyOn(s, number, mailbox, Some(owner)) == "" || (onNumber && !HasKey(ActiveRows(s.extensions), mailbox)))
  }

  // ---------------------------------------------------------------- one step

  lemma {:induction false} NoMailbox(rows: seq<Extension>, mailbox: string)
    requires forall i :: 0 <= i < |rows| ==> Mailbox(rows[i].key) != mailbox
    ensures LastWithMailbox(rows, mailbox).None?
  {
    hide Mailbox;
    if rows != [] { NoMailbox(rows[..|rows| - 1], mailbox); }
  }

  lemma {:induction false} FirstOnIs(rows: seq<Extension>, number: string, digits: string, e: Extension)
    requires e in rows && e.number == number && e.digits == digits
    requires forall f :: f in rows && f.number == number && f.digits == digits ==> f == e
    ensures FirstOn(rows, number, digits) == Some(e.key)
  {
    assert rows == [rows[0]] + rows[1..];
    if rows[0] != e { FirstOnIs(rows[1..], number, digits, e); }
  }

  lemma KeysTellRowsApart(rows: seq<Extension>, e: Extension, f: Extension)
    requires RowsValid(rows) && e in rows && f in rows && e.key == f.key
    ensures e == f
  {
    hide Key, DialPlan.NumberText;
    KeySplits(e.digits, e.number);
    KeySplits(f.digits, f.number);
  }

  lemma ThreeDigitsArePlain(digits: string)
    requires DialPlan.ExtensionDigits(digits)
    ensures Plain(digits) && '@' !in digits && digits != "" && Key(digits, "") == digits && Mailbox(digits) == digits
  {
    DigitsOfPlain(digits);
  }

  lemma HasKeyOf(rows: seq<Extension>, e: Extension)
    requires e in rows
    ensures HasKey(rows, e.key)
  {
    var i :| 0 <= i < |rows| && rows[i] == e;
  }

  /** What a bare step on a line that has those digits resolves to. */
  lemma BareResolves(s: Store, number: string, line: Extension, onNumber: bool)
    requires RowsValid(s.extensions) && line in s.extensions && line.active && line.number == number && number != ""
    ensures var rows, d := ActiveRows(s.extensions), line.digits;
            var found := ResolveMailbox(rows, d, if onNumber then number else "");
            && line.key != d
            && (found == line.key <==> onNumber && !HasKey(rows, d))
  {
    hide Mailbox, DialPlan.NumberText, DialPlan.ExtensionDigits, LastWithMailbox, FirstOn;
    var rows, d := ActiveRows(s.extensions), line.digits;
    ActiveRowsAre(s.extensions);
    ThreeDigitsArePlain(d);
    KeySplits(d, number);
    DigitsOfPlain(d);
    assert line.key != d;
    if !HasKey(rows, d) {
      forall i | 0 <= i < |rows| ensures Mailbox(rows[i].key) != d {
        var r := rows[i];
        assert r in rows;
        DialPlanMeaning.MailboxesDiffer(r.digits, r.number, d, "");
      }
      NoMailbox(rows, d);
      FirstOnIs(rows, number, d, line);
      KeyIsNotBlank(line);
    }
  }

  lemma KeyIsNotBlank(e: Extension)
    requires e.digits != "" && Plain(e.digits) && e.key == Key(e.digits, e.number)
    ensures e.key != ""
  {
    KeySplits(e.digits, e.number);
  }

  /**
   * A step whose planned mailbox is an active extension's makes that mailbox configured exactly when it
   * agrees with the plan.
   */
  lemma StepAgreesIff(s: Store, number: string, owner: nat, mailbox: string, onNumber: bool, e: Extension)
    requires RowsValid(s.extensions) && e in s.extensions && e.active && VoicemailKey(s, number, mailbox, Some(owner)) == e.key
    ensures ResolveMailbox(ActiveRows(s.extensions), mailbox, if onNumber then number else "") == e.key
            <==> Agrees(s, number, owner, mailbox, onNumber)
  {
    hide Mailbox, Key, Digits, DialPlan.NumberText, DialPlan.ExtensionDigits, LastWithMailbox, FirstOn, ResolveIn;
    var rows := ActiveRows(s.extensions);
    ActiveRowsAre(s.extensions);
    ThreeDigitsArePlain(e.digits);
    KeyIsNotBlank(e);
    if mailbox == "" || '@' in mailbox || KeyOn(s, number, mailbox, Some(owner)) == "" {
      HasKeyOf(rows, e);
    } else {
      InboundLaws.ResolvedIsOwned(s.extensions, number, Digits(mailbox), Some(owner));
      var line :| line in s.extensions && line.number == number && line.digits == Digits(mailbox) && line.key == e.key;
      KeysTellRowsApart(s.extensions, line, e);
      DigitsOfPlain(mailbox);
      BareResolves(s, number, e, onNumber);
    }
  }

  // ---------------------------------------------------------------- whole flows

  function FlowsOf(s: Store, onNumber: bool): seq<Flow> { if onNumber then s.routes else s.desks }

  predicate AllAgree(s: Store, number: string, owner: nat, nodes: seq<Node>, onNumber: bool) {
    forall i :: 0 <= i < |nodes| && nodes[i].kind == VoicemailStep && nodes[i].enabled ==> Agrees(s, number, owner, nodes[i].mailbox, onNumber)
  }

  /** Every voicemail step of the account that can speak for this number agrees with the plan. */
  predicate FlowsAgree(s: Store, number: string, owner: nat) {
    && (forall i :: 0 <= i < |s.routes| && s.routes[i].owner == owner && s.routes[i].target == number ==> AllAgree(s, number, owner, s.routes[i].nodes, true))
    && (forall i :: 0 <= i < |s.desks| && s.desks[i].owner == owner ==> AllAgree(s, number, owner, s.desks[i].nodes, false))
  }

  /** The mailbox a step plans for an active extension is one the step itself or the extension's own switch makes configured. */
  predicate Delivers(s: Store, number: string, owner: nat, mailbox: string, onNumber: bool) {
    && mailbox != ""
    && forall e :: e in s.extensions && e.active && VoicemailKey(s, number, mailbox, Some(owner)) == e.key ==>
         e.voicemail || ResolveMailbox(ActiveRows(s.extensions), mailbox, if onNumber then number else "") == e.key
  }

  predicate AllDeliver(s: Store, number: string, owner: nat, nodes: seq<Node>, onNumber: bool) {
    forall i :: 0 <= i < |nodes| && nodes[i].kind == VoicemailStep && nodes[i].enabled ==> Delivers(s, number, owner, nodes[i].mailbox, onNumber)
  }

  predicate FlowsDeliver(s: Store, number: string, owner: nat) {
    && (forall i :: 0 <= i < |s.routes| && s.routes[i].owner == owner && s.routes[i].target == number ==> AllDeliver(s, number, owner, s.routes[i].nodes, true))
    && (forall i :: 0 <= i < |s.desks| && s.desks[i].owner == owner ==> AllDeliver(s, number, owner, s.desks[i].nodes, false))
  }

  /** A step that agrees with the plan delivers. */
  lemma AgreeingDelivers(s: Store, number: string, owner: nat, mailbox: string, onNumber: bool)
    requires RowsValid(s.extensions) && Agrees(s, number, owner, mailbox, onNumber)
    ensures Delivers(s, number, owner, mailbox, onNumber)
  {
    hide ResolveMailbox, Agrees, VoicemailKey, RowsValid;
    forall e | e in s.extensions && e.active && VoicemailKey(s, number, mailbox, Some(owner)) == e.key
      ensures ResolveMailbox(ActiveRows(s.extensions), mailbox, if onNumber then number else "") == e.key
    {
      StepAgreesIff(s, number, owner, mailbox, onNumber, e);
    }
    assert mailbox != "" by { AgreesOnSomething(s, number, owner, mailbox, onNumber); }
  }

  lemma AgreesOnSomething(s: Store, number: string, owner: nat, mailbox: string, onNumber: bool)
    requires Agrees(s, number, owner, mailbox, onNumber)
    ensures mailbox != ""
  {}

  /** An enabled voicemail step with this mailbox, that delivers what it plans, is stored where it can speak for the number. */
  ghost predicate Stored(s: Store, number: string, owner: nat, mailbox: string) {
    exists onNumber: bool, i: int, j: int ::
      StoredAt(FlowsOf(s, onNumber), i, j, mailbox) && Delivers(s, number, owner, mailbox, onNumber)
      && (onNumber ==> FlowsOf(s, onNumber)[i].target == number)
  }

  predicate StoredAt(flows: seq<Flow>, i: int, j: int, mailbox: string) {
    && 0 <= i < |flows| && 0 <= j < |flows[i].nodes|
    && flows[i].nodes[j].kind == VoicemailStep && flows[i].nodes[j].enabled && flows[i].nodes[j].mailbox == mailbox
  }

  lemma StoredIsConfigured(s: Store, number: string, owner: nat, mailbox: string, e: Extension)
    requires RowsValid(s.extensions) && Stored(s, number, owner, mailbox)
    requires e in s.extensions && e.active && VoicemailKey(s, number, mailbox, Some(owner)) == e.key
    ensures e.key in Configured(s)
  {
    hide ResolveMailbox, VoicemailKey;
    var rows := ActiveRows(s.extensions);
    var onNumber: bool, i: int, j: int :|
      StoredAt(FlowsOf(s, onNumber), i, j, mailbox) && Delivers(s, number, owner, mailbox, onNumber)
      && (onNumber ==> FlowsOf(s, onNumber)[i].target == number);
    ActiveRowsAre(s.extensions);
    if !e.voicemail {
      ThreeDigitsArePlain(e.digits);
      KeyIsNotBlank(e);
      var flow := FlowsOf(s, onNumber)[i];
      assert flow.nodes[j].mailbox == mailbox;
      assert e.key in StepMailboxes(rows, flow.nodes, if onNumber then number else "");
      assert e.key in OfFlow(rows, FlowsOf(s, onNumber)[i], onNumber);
    }
  }

  /** Steps whose enabled voicemail mailboxes are all stored ones that deliver. */
  ghost predicate Sound(s: Store, number: string, owner: nat, nodes: seq<Node>) {
    forall i :: 0 <= i < |nodes| && nodes[i].kind == VoicemailStep && nodes[i].enabled ==> Stored(s, number, owner, nodes[i].mailbox)
  }

  lemma {:induction false} FlowForIs(flows: seq<Flow>, owner: nat, target: string)
    ensures FlowFor(flows, Some(owner), target).Some? ==>
              exists i :: 0 <= i < |flows| && flows[i].owner == owner && flows[i].target == target
                          && flows[i].nodes == FlowFor(flows, Some(owner), target).value
  {
    if flows != [] {
      FlowForIs(flows[1..], owner, target);
      if FlowFor(flows[1..], Some(owner), target).Some? {
        var i :| 0 <= i < |flows[1..]| && flows[1..][i].owner == owner && flows[1..][i].target == target
                 && flows[1..][i].nodes == FlowFor(flows[1..], Some(owner), target).value;
        assert flows[i + 1] == flows[1..][i];
      }
    }
  }

  lemma RouteIsSound(s: Store, number: string, owner: nat)
    requires FlowsDeliver(s, number, owner) && FlowFor(s.routes, Some(owner), number).Some?
    ensures Sound(s, number, owner, FlowFor(s.routes, Some(owner), number).value)
  {
    hide Delivers, FlowFor;
    FlowForIs(s.routes, owner, number);
    var nodes := FlowFor(s.routes, Some(owner), number).value;
    var i :| 0 <= i < |s.routes| && s.routes[i].owner == owner && s.routes[i].target == number && s.routes[i].nodes == nodes;
    forall j | 0 <= j < |nodes| && nodes[j].kind == VoicemailStep && nodes[j].enabled ensures Stored(s, number, owner, nodes[j].mailbox) {
      assert StoredAt(FlowsOf(s, true), i, j, nodes[j].mailbox);
    }
  }

  lemma DeskIsSound(s: Store, number: string, owner: nat, target: string)
    requires FlowsDeliver(s, number, owner)
    ensures Sound(s, number, owner, DeskFlow(s, Some(owner), target))
  {
    hide Delivers, FlowFor;
    FlowForIs(s.desks, owner, target);
    if FlowFor(s.desks, Some(owner), target).Some? {
      var nodes := FlowFor(s.desks, Some(owner), target).value;
      var i :| 0 <= i < |s.desks| && s.desks[i].owner == owner && s.desks[i].target == target && s.desks[i].nodes == nodes;
      forall j | 0 <= j < |nodes| && nodes[j].kind == VoicemailStep && nodes[j].enabled ensures Stored(s, number, owner, nodes[j].mailbox) {
        assert StoredAt(FlowsOf(s, false), i, j, nodes[j].mailbox);
      }
    }
  }

  lemma {:induction false} KeepJourneyIs(nodes: seq<Node>)
    ensures forall n :: n in KeepJourney(nodes) ==> n in nodes
  {
    if nodes != [] {
      KeepJourneyIs(nodes[1..]);
      assert nodes == [nodes[0]] + nodes[1..];
    }
  }

  /** Soundness only looks at which steps there are. */
  lemma SoundBySteps(s: Store, number: string, owner: nat, a: seq<Node>, b: seq<Node>, c: seq<Node>)
    requires Sound(s, number, owner, a) && Sound(s, number, owner, b)
    requires forall n :: n in c ==> n in a || n in b
    ensures Sound(s, number, owner, c)
  {
    hide Stored;
    forall i | 0 <= i < |c| && c[i].kind == VoicemailStep && c[i].enabled ensures Stored(s, number, owner, c[i].mailbox) {
      assert c[i] in c;
      if c[i] in a { var j :| 0 <= j < |a| && a[j] == c[i]; } else { var j :| 0 <= j < |b| && b[j] == c[i]; }
    }
  }

  lemma StepsAreSound(s: Store, number: string, owner: nat, extension: string)
    requires FlowsDeliver(s, number, owner) && FlowFor(s.routes, Some(owner), number).Some?
    ensures Sound(s, number, owner, Steps(s, FlowFor(s.routes, Some(owner), number).value, owner, extension))
  {
    hide Sound, FlowsDeliver, FlowFor;
    var stored := FlowFor(s.routes, Some(owner), number).value;
    RouteIsSound(s, number, owner);
    DeskIsSound(s, number, owner, extension);
    KeepJourneyIs(DeskFlow(s, Some(owner), extension));
    SoundBySteps(s, number, owner, stored, DeskFlow(s, Some(owner), extension), Steps(s, stored, owner, extension));
  }

  /** Where a plan's mailbox comes from: a stored step that delivers, or the switch of the desk itself. */
  ghost predicate Backed(s: Store, number: string, owner: nat, v: string) {
    || v == ""
    || (exists mailbox :: Stored(s, number, owner, mailbox) && VoicemailKey(s, number, mailbox, Some(owner)) == v)
    || (exists e :: e in s.extensions && e.key == v && e.voicemail)
  }

  lemma {:induction false} MailboxInIsBacked(s: Store, nodes: seq<Node>, number: string, owner: nat)
    requires Sound(s, number, owner, nodes)
    ensures Backed(s, number, owner, MailboxIn(s, nodes, number, Some(owner)))
  {
    if nodes != [] {
      hide Stored, VoicemailKey;
      var shorter, last := nodes[..|nodes| - 1], nodes[|nodes| - 1];
      MailboxInIsBacked(s, shorter, number, owner);
    }
  }

  lemma {:induction false} FirstVoicemailIsStored(s: Store, number: string, owner: nat, nodes: seq<Node>)
    requires Sound(s, number, owner, nodes) && FirstVoicemail(nodes).Some?
    ensures Stored(s, number, owner, FirstVoicemail(nodes).value) && FirstVoicemail(nodes).value != ""
  {
    if nodes[0].kind == VoicemailStep && nodes[0].enabled {
      assert Stored(s, number, owner, nodes[0].mailbox);
    } else {
      hide Stored;
      FirstVoicemailIsStored(s, number, owner, nodes[1..]);
    }
  }

  lemma {:induction false} RowOfIs(rows: seq<Extension>, key: string)
    ensures RowOf(rows, key).Some? ==> RowOf(rows, key).value in rows && RowOf(rows, key).value.key == key
  {
    if rows != [] { RowOfIs(rows[1..], key); }
  }

  lemma DeskVoicemailIsBacked(s: Store, number: string, extension: string, owner: nat)
    requires FlowsDeliver(s, number, owner)
    ensures Backed(s, number, owner, DeskVoicemail(s, number, extension, Some(owner)))
  {
    hide Stored, FlowsDeliver, KeyOn, Sound, DeskFlow, VoicemailKey;
    var key := if extension == "" || '@' in extension || number == "" then extension else KeyOn(s, number, extension, Some(owner));
    if key != "" {
      var nodes := DeskFlow(s, Some(owner), key);
      DeskIsSound(s, number, owner, key);
      if FirstVoicemail(nodes).Some? { FirstVoicemailIsStored(s, number, owner, nodes); }
      RowOfIs(s.extensions, key);
    }
  }

  lemma PlanIsBacked(s: Store, number: string, fallback: string, now: Moment, owner: nat)
    requires NumberOf(s.numbers, number).Some? && NumberOf(s.numbers, number).value.owner == Some(owner)
    requires FlowsDeliver(s, number, owner)
    ensures Backed(s, number, owner, Planned(s, number, fallback, now).voicemail)
  {
    hide FlowsDeliver, KeyOn, Sound, DeskFlow, FlowFor, HandlingOf, DeskVoicemail, MailboxIn, ForwardIn, Steps, ClosedAt, Unique, Rung, Ringing, Allowed, GroupsOf, HasRing, Keep, Backed;
    forall extension ensures Backed(s, number, owner, DeskVoicemail(s, number, extension, Some(owner))) { DeskVoicemailIsBacked(s, number, extension, owner); }
    BlankIsBacked(s, number, owner);
    var row := NumberOf(s.numbers, number).value;
    var extension := if row.inbound != "" then row.inbound else fallback;
    if FlowFor(s.routes, Some(owner), number).Some? {
      var nodes := Steps(s, FlowFor(s.routes, Some(owner), number).value, owner, extension);
      StepsAreSound(s, number, owner, extension);
      MailboxInIsBacked(s, nodes, number, owner);
      var menu := FirstMenu(nodes);
      if menu.Some? {
        var rest := nodes[..menu.value] + nodes[menu.value + 1..];
        SoundBySteps(s, number, owner, nodes, nodes, rest);
        MailboxInIsBacked(s, rest, number, owner);
      }
    }
  }

  lemma BlankIsBacked(s: Store, number: string, owner: nat)
    ensures Backed(s, number, owner, "")
  {}

  /**
   * When a plan ends in the mailbox of an active extension, that mailbox is configured, provided every
   * voicemail step that can speak for the number delivers what it plans.
   */
  lemma PlannedMailboxExists(s: Store, number: string, fallback: string, now: Moment, owner: nat, e: Extension)
    requires NumberOf(s.numbers, number).Some? && NumberOf(s.numbers, number).value.owner == Some(owner)
    requires FlowsDeliver(s, number, owner) && RowsValid(s.extensions)
    requires e in s.extensions && e.active && Planned(s, number, fallback, now).voicemail == e.key
    ensures e.key in Configured(s)
  {
    hide Stored, FlowsDeliver, Planned, FlowMailboxes, Key, VoicemailKey, DialPlan.ExtensionDigits, DialPlan.NumberText;
    PlanIsBacked(s, number, fallback, now, owner);
    ActiveRowsAre(s.extensions);
    ThreeDigitsArePlain(e.digits);
    KeyIsNotBlank(e);
    if mailbox :| Stored(s, number, owner, mailbox) && VoicemailKey(s, number, mailbox, Some(owner)) == e.key {
      StoredIsConfigured(s, number, owner, mailbox, e);
    } else {
      var f :| f in s.extensions && f.key == e.key && f.voicemail;
      KeysTellRowsApart(s.extensions, e, f);
    }
  }

  lemma {:induction false} LastIsAKey(rows: seq<Extension>, mailbox: string)
    ensures LastWithMailbox(rows, mailbox).Some? ==> HasKey(rows, LastWithMailbox(rows, mailbox).value)
  {
    hide Mailbox;
    if rows != [] && Mailbox(rows[|rows| - 1].key) != mailbox {
      LastIsAKey(rows[..|rows| - 1], mailbox);
      if LastWithMailbox(rows, mailbox).Some? {
        var i :| 0 <= i < |rows| - 1 && rows[..|rows| - 1][i].key == LastWithMailbox(rows, mailbox).value;
        assert rows[i].key == LastWithMailbox(rows, mailbox).value;
      }
    }
  }

  lemma {:induction false} FirstIsAKey(rows: seq<Extension>, number: string, digits: string)
    ensures FirstOn(rows, number, digits).Some? ==> HasKey(rows, FirstOn(rows, number, digits).value)
  {
    if rows != [] && !(rows[0].number == number && rows[0].digits == digits) {
      FirstIsAKey(rows[1..], number, digits);
      if FirstOn(rows, number, digits).Some? {
        var i :| 0 <= i < |rows| - 1 && rows[1..][i].key == FirstOn(rows, number, digits).value;
        assert rows[i + 1].key == FirstOn(rows, number, digits).value;
      }
    }
  }

  /** Every configured mailbox is some extension's. */
  lemma ConfiguredIsAKey(s: Store, key: string)
    requires RowsValid(s.extensions) && key in Configured(s)
    ensures DialPlanMeaning.ValidKey(key)
  {
    hide LastWithMailbox, FirstOn, Mailbox, Digits, Key;
    var rows := ActiveRows(s.extensions);
    ActiveRowsAre(s.extensions);
    forall value, number | ResolveMailbox(rows, value, number) != "" ensures HasKey(rows, ResolveMailbox(rows, value, number)) {
      LastIsAKey(rows, Mailbox(value));
      FirstIsAKey(rows, number, Digits(value));
    }
    assert HasKey(rows, key) by {
      if e :| e in rows && e.voicemail && e.key == key { HasKeyOf(rows, e); }
    }
    var i :| 0 <= i < |rows| && rows[i].key == key;
    assert rows[i] in rows;
  }

  /** So the caller it hands over finds a rule: the inbound voicemail context takes a message in that mailbox. */
  lemma PlannedMailboxAnswers(s: Store, number: string, fallback: string, now: Moment, owner: nat, e: Extension, keys: seq<string>)
    requires NumberOf(s.numbers, number).Some? && NumberOf(s.numbers, number).value.owner == Some(owner)
    requires FlowsDeliver(s, number, owner) && RowsValid(s.extensions)
    requires e in s.extensions && e.active && Planned(s, number, fallback, now).voicemail == e.key
    requires forall key :: key in keys <==> key in Configured(s)
    ensures DialRules.Dial(DialPlan.MailboxRules(keys), Mailbox(e.key)) == Some(DialRules.LeaveMessage(Mailbox(e.key)))
  {
    hide Planned, Configured, FlowsDeliver, DialPlanMeaning.ValidKey, Mailbox;
    PlannedMailboxExists(s, number, fallback, now, owner, e);
    forall key | key in keys ensures DialPlanMeaning.ValidKey(key) { ConfiguredIsAKey(s, key); }
    DialPlanMeaning.MailboxRuleIffConfigured(keys, e.digits, e.number);
  }

  /**
   * The proviso is needed: bare digits in a number's voicemail step, with a device on no line and one on this
   * line both carrying them, plan the line's mailbox while only the other one is configured.
   */
  lemma BareDigitsMissTheMailbox(number: string, digits: string, now: Moment, owner: nat, step: Node)
    requires AllDigits(digits) && number != "" && Plain(digits)
    requires step.kind == VoicemailStep && step.enabled && step.mailbox == digits
    ensures var bare := Extension(digits, "", digits, Some(owner), true, false);
            var line := Extension(Key(digits, number), number, digits, Some(owner), true, false);
            var s := Store([bare, line], [Number(number, Some(owner), true, "")], [], [Flow(owner, number, [step])], []);
            Planned(s, number, "", now).voicemail == line.key && line.key !in Configured(s)
  {
    var bare := Extension(digits, "", digits, Some(owner), true, false);
    var line := Extension(Key(digits, number), number, digits, Some(owner), true, false);
    var s := Store([bare, line], [Number(number, Some(owner), true, "")], [], [Flow(owner, number, [step])], []);
    BareDigitsArePlanned(s, number, digits, now, owner, step, bare, line);
    BareDigitsAreConfigured(s, digits, number, owner, step, bare, line);
  }

  lemma BareDigitsArePlanned(s: Store, number: string, digits: string, now: Moment, owner: nat, step: Node, bare: Extension, line: Extension)
    requires AllDigits(digits) && number != "" && Plain(digits)
    requires step.kind == VoicemailStep && step.enabled && step.mailbox == digits
    requires bare == Extension(digits, "", digits, Some(owner), true, false)
    requires line == Extension(Key(digits, number), number, digits, Some(owner), true, false)
    requires s == Store([bare, line], [Number(number, Some(owner), true, "")], [], [Flow(owner, number, [step])], [])
    ensures Planned(s, number, "", now).voicemail == line.key && line.key != digits && line.key != ""
  {
    hide Unique, Rung, Ringing, Allowed, GroupsOf, HasRing, Keep, DeskVoicemail, HandlingOf, ClosedAt;
    KeySplits(digits, number);
    DigitsOfPlain(digits);
    assert line.key[|digits|] == '@';
    assert '@' !in digits;
    assert s.extensions[1..][0] == line;
    assert ResolveIn(s.extensions, number, digits, Some(owner)) == Some(line.key);
    assert KeyOn(s, number, digits, Some(owner)) == line.key;
    assert VoicemailKey(s, number, digits, Some(owner)) == line.key;
    assert [step][..0] == [];
    assert MailboxIn(s, [step], number, Some(owner)) == line.key;
    assert FirstMenu([step]).None?;
    assert Steps(s, [step], owner, "") == [step];
  }

  lemma BareDigitsAreConfigured(s: Store, digits: string, number: string, owner: nat, step: Node, bare: Extension, line: Extension)
    requires digits != "" && bare.key == digits && line.key != digits && bare.active && line.active && !bare.voicemail && !line.voicemail
    requires step.mailbox == digits
    requires s.extensions == [bare, line] && s.routes == [Flow(owner, number, [step])] && s.desks == []
    ensures line.key !in Configured(s)
  {
    var rows := ActiveRows(s.extensions);
    ActiveRowsAre(s.extensions);
    assert bare in s.extensions && line in s.extensions;
    var i :| 0 <= i < |rows| && rows[i] == bare;
    assert HasKey(rows, digits);
    assert ResolveMailbox(rows, digits, number) == digits;
    assert forall key :: key in StepMailboxes(rows, [step], number) ==> key == digits;
  }
}
