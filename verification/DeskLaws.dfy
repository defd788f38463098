/** What the desks' own flows do to a number's plan. */
module DeskLaws {
  import opened Wrappers
  import opened ExtensionKeys
  import opened Directory
  import opened RouteNodes
  import opened InboundPlan

  // ---------------------------------------------------------------- picking from a list

  /** Reading both lists from the front, `sub` has every entry of `full` in its place but those in `gone`. */
  predicate LeavesOut(sub: seq<string>, full: seq<string>, gone: set<string>) {
    if full == [] then sub == []
    else if full[0] in gone then LeavesOut(sub, full[1..], gone)
    else sub != [] && sub[0] == full[0] && LeavesOut(sub[1..], full[1..], gone)
  }

  /** So the entries are those of the list that are not gone. */
  lemma {:induction false} LeftAre(sub: seq<string>, full: seq<string>, gone: set<string>)
    requires LeavesOut(sub, full, gone)
    ensures forall k :: k in sub <==> k in full && k !in gone
  {
    if full != [] {
      assert full == [full[0]] + full[1..];
      if full[0] in gone { LeftAre(sub, full[1..], gone); }
      else {
        LeftAre(sub[1..], full[1..], gone);
        assert sub == [sub[0]] + sub[1..];
      }
    }
  }

  lemma {:induction false} KeepLeavesOut(full: seq<string>, gone: set<string>)
    ensures LeavesOut(Keep(full, k => k !in gone), full, gone)
  {
    var p := (k: string) => k !in gone;
    if full != [] {
      KeepLeavesOut(full[1..], gone);
      var rest := Keep(full[1..], p);
      assert [] + rest == rest && ([full[0]] + rest)[1..] == rest;
    }
  }

  // ---------------------------------------------------------------- a desk's own flow

  /** These are the steps of the first flow stored for this desk under its account. */
  predicate HasFlow(s: Store, owner: Option<nat>, key: string, i: nat) {
    && i < |s.desks| && IsFlowOf(s.desks[i], owner, key) && forall j :: 0 <= j < i ==> !IsFlowOf(s.desks[j], owner, key)
  }

  predicate IsFlowOf(flow: Flow, owner: Option<nat>, key: string) {
    flow.target == key && (owner.None? || flow.owner == owner.value)
  }

  /** The steps in a desk's own flow are the stored ones; a desk without a flow has none. */
  lemma {:induction false} FlowStepsAre(flows: seq<Flow>, owner: Option<nat>, key: string)
    ensures match FlowFor(flows, owner, key)
            case None => forall j :: 0 <= j < |flows| ==> !IsFlowOf(flows[j], owner, key)
            case Some(nodes) => exists i: nat :: i < |flows| && IsFlowOf(flows[i], owner, key) && flows[i].nodes == nodes
                                  && forall j :: 0 <= j < i ==> !IsFlowOf(flows[j], owner, key)
  {
    if flows != [] && !IsFlowOf(flows[0], owner, key) {
      FlowStepsAre(flows[1..], owner, key);
      if FlowFor(flows, owner, key).Some? {
        var i: nat :| i < |flows[1..]| && IsFlowOf(flows[1..][i], owner, key) && flows[1..][i].nodes == FlowFor(flows, owner, key).value
                 && forall j :: 0 <= j < i ==> !IsFlowOf(flows[1..][j], owner, key);
        assert flows[i + 1] == flows[1..][i];
        forall j | 0 <= j < i + 1 ensures !IsFlowOf(flows[j], owner, key) { if j > 0 { assert flows[j] == flows[1..][j - 1]; } }
      } else {
        forall j | 0 <= j < |flows| ensures !IsFlowOf(flows[j], owner, key) { if j > 0 { assert flows[j] == flows[1..][j - 1]; } }
      }
    } else if flows != [] {
      assert IsFlowOf(flows[0], owner, key);
    }
  }

  /** What holds of the steps of a desk's own flow, as they are stored. */
  ghost predicate InFlow(s: Store, owner: Option<nat>, key: string, nodes: seq<Node>) {
    if exists i: nat :: HasFlow(s, owner, key, i) then exists i: nat :: HasFlow(s, owner, key, i) && nodes == s.desks[i].nodes else nodes == []
  }

  lemma DeskFlowIs(s: Store, owner: Option<nat>, key: string)
    ensures InFlow(s, owner, key, DeskFlow(s, owner, key))
  {
    FlowStepsAre(s.desks, owner, key);
    if FlowFor(s.desks, owner, key).Some? {
      var i: nat :| i < |s.desks| && IsFlowOf(s.desks[i], owner, key) && s.desks[i].nodes == FlowFor(s.desks, owner, key).value
               && forall j :: 0 <= j < i ==> !IsFlowOf(s.desks[j], owner, key);
      assert HasFlow(s, owner, key, i);
    }
  }

  lemma OneFlow(s: Store, owner: Option<nat>, key: string, a: seq<Node>, b: seq<Node>)
    requires InFlow(s, owner, key, a) && InFlow(s, owner, key, b)
    ensures a == b
  {
    forall i: nat, j: nat | HasFlow(s, owner, key, i) && HasFlow(s, owner, key, j) ensures i == j {
      assert !(i < j) && !(j < i);
    }
  }

  /** The desk's own step in its own flow has ringing switched off. */
  ghost predicate Silent(s: Store, owner: Option<nat>, key: string) {
    exists i: nat, n :: HasFlow(s, owner, key, i) && n in s.desks[i].nodes && n.kind == Desk && n.extension == key && !n.ringEnabled
  }

  lemma SilentIs(s: Store, owner: Option<nat>, key: string)
    ensures Silent(s, owner, key) <==> SwitchedOff(DeskFlow(s, owner, key), key)
  {
    hide IsFlowOf;
    var nodes := DeskFlow(s, owner, key);
    DeskFlowIs(s, owner, key);
    if i: nat, n :| HasFlow(s, owner, key, i) && n in s.desks[i].nodes && n.kind == Desk && n.extension == key && !n.ringEnabled {
      OneFlow(s, owner, key, nodes, s.desks[i].nodes);
    }
    if j :| 0 <= j < |nodes| && nodes[j].kind == Desk && nodes[j].extension == key && !nodes[j].ringEnabled {
      var i: nat :| HasFlow(s, owner, key, i) && nodes == s.desks[i].nodes;
      assert nodes[j] in s.desks[i].nodes;
    }
  }

  // ---------------------------------------------------------------- whom the first desk hands calls to

  /** A step that names another desk. */
  predicate NamesOther(n: Node, key: string) { n.kind == Desk && n.extension != key && n.extension != "" }

  /** An active extension of the account; nobody's number may hand a call to anyone. */
  predicate MayRing(s: Store, owner: Option<nat>, key: string) {
    owner.Some? && exists e :: e in s.extensions && e.active && e.owner == owner && e.key == key
  }

  /** The fallbacks are the desks that the first listed desk's flow names and that may ring, each once, in the order of its steps. */
  lemma FirstFallbacks(s: Store, keys: seq<string>, owner: Option<nat>)
    requires keys != []
    ensures var names := HandlingOf(s, [keys[0]], owner).fallbacks;
            && NoRepeats(names) && InStepOrder(DeskFlow(s, owner, keys[0]), keys[0], names)
            && forall x :: x in names <==>
                 MayRing(s, owner, x) && exists n :: n in DeskFlow(s, owner, keys[0]) && NamesOther(n, keys[0]) && n.extension == x
  {
    hide DeskFlow, NamesOther, InStepOrder, HandlingOf, Others, Keep, Unique, Allowed, MayRing, NoRepeats, InFirstOrder;
    var key := keys[0];
    var p := (k: string) => k in Allowed(s, owner) && k !in [key];
    NamesAnother(key);
    FallbacksOfOne(s, key, owner, p);
    UniqueIs(Keep(Others(DeskFlow(s, owner, key), key), p));
    NamedInOrder(DeskFlow(s, owner, key), key, p);
    forall x ensures x in Allowed(s, owner) <==> MayRing(s, owner, x) { AllowedIs(s, owner, x); }
  }

  lemma AllowedIs(s: Store, owner: Option<nat>, key: string)
    ensures key in Allowed(s, owner) <==> MayRing(s, owner, key)
  {}

  lemma FallbacksOfOne(s: Store, key: string, owner: Option<nat>, p: string -> bool)
    requires forall k :: p(k) <==> k in Allowed(s, owner) && k !in [key]
    ensures HandlingOf(s, [key], owner).fallbacks == Unique(Keep(Others(DeskFlow(s, owner, key), key), p))
  {
    hide DeskFlow, Others, Keep, Unique, Allowed;
    AllOthersOfOne(s, key, owner);
    SameKeep(Others(DeskFlow(s, owner, key), key), k => k in Allowed(s, owner) && k !in [key], p);
  }

  lemma {:induction false} SameKeep(names: seq<string>, p: string -> bool, q: string -> bool)
    requires forall k :: p(k) <==> q(k)
    ensures Keep(names, p) == Keep(names, q)
  {
    if names != [] { SameKeep(names[1..], p, q); }
  }

  lemma NamesAnother(key: string)
    ensures forall n :: NamesOther(n, key) ==> n.extension != key
  {}

  lemma AllOthersOfOne(s: Store, key: string, owner: Option<nat>)
    ensures AllOthers(s, [key], owner) == Others(DeskFlow(s, owner, key), key)
    ensures PhoneOfAll(s, [key], owner) == FirstPhone(DeskFlow(s, owner, key))
  {
    hide DeskFlow, Others, FirstPhone;
    assert [key][..0] == [];
    assert AllOthers(s, [], owner) == [];
    assert [] + Others(DeskFlow(s, owner, key), key) == Others(DeskFlow(s, owner, key), key);
  }

  /** They stand in the order in which the steps first name them. */
  ghost predicate InStepOrder(nodes: seq<Node>, key: string, names: seq<string>) {
    forall i, j :: 0 <= i < j < |names| ==> NamedBefore(nodes, key, names[i], names[j])
  }

  ghost predicate NamedBefore(nodes: seq<Node>, key: string, one: string, other: string) {
    exists a :: NamedFirst(nodes, key, a, one, other)
  }

  /** Step `a` names the one, and no step up to it names the other. */
  predicate NamedFirst(nodes: seq<Node>, key: string, a: int, one: string, other: string) {
    && 0 <= a < |nodes| && NamesOther(nodes[a], key) && nodes[a].extension == one
    && forall b :: 0 <= b <= a && NamesOther(nodes[b], key) ==> nodes[b].extension != other
  }

  /** The desks that the steps name and that `p` allows, in the order in which they are first named. */
  ghost predicate AreNamed(nodes: seq<Node>, key: string, p: string -> bool, names: seq<string>) {
    && InStepOrder(nodes, key, names)
    && forall x :: x in names <==> p(x) && exists n :: n in nodes && NamesOther(n, key) && n.extension == x
  }

  lemma {:induction false} NamedInOrder(nodes: seq<Node>, key: string, p: string -> bool)
    ensures AreNamed(nodes, key, p, Unique(Keep(Others(nodes, key), p)))
  {
    hide *;
    if nodes == [] {
      NobodyIsNamed(key, p);
    } else {
      var shorter, last := nodes[..|nodes| - 1], nodes[|nodes| - 1];
      var before := Unique(Keep(Others(shorter, key), p));
      NamedInOrder(shorter, key, p);
      OneMoreName(shorter, last, key, p);
      assert nodes == shorter + [last];
      NamesGoOn(shorter, last, key, before, p);
    }
  }

  lemma NobodyIsNamed(key: string, p: string -> bool)
    ensures AreNamed([], key, p, Unique(Keep(Others([], key), p)))
  {
    assert Others([], key) == [] && Keep([], p) == [] && Unique([]) == [];
  }

  lemma NamesGoOn(shorter: seq<Node>, last: Node, key: string, before: seq<string>, p: string -> bool)
    requires AreNamed(shorter, key, p, before)
    ensures AreNamed(shorter + [last], key, p, if NamesOther(last, key) && p(last.extension) && last.extension !in before then before + [last.extension] else before)
  {
    hide NamesOther, InStepOrder;
    OrderGoesOn(shorter, last, key, before, p);
    assert forall n :: n in shorter + [last] <==> n in shorter || n == last;
  }

  /** One more step adds its desk at the end, if it is a new one. */
  lemma OneMoreName(shorter: seq<Node>, last: Node, key: string, p: string -> bool)
    ensures var before, x := Unique(Keep(Others(shorter, key), p)), last.extension;
            Unique(Keep(Others(shorter + [last], key), p)) == if NamesOther(last, key) && p(x) && x !in before then before + [x] else before
  {
    hide Unique;
    assert (shorter + [last])[..|shorter|] == shorter;
    var named, more := Others(shorter, key), if NamesOther(last, key) then [last.extension] else [];
    KeepTogether(named, more, p);
    assert Keep(more, p) == if NamesOther(last, key) && p(last.extension) then [last.extension] else [];
    if NamesOther(last, key) && p(last.extension) { UniqueOfOneMore(Keep(named, p), last.extension); }
    else { assert Keep(named, p) + [] == Keep(named, p); }
  }

  lemma UniqueOfOneMore(names: seq<string>, x: string)
    ensures Unique(names + [x]) == if x in Unique(names) then Unique(names) else Unique(names) + [x]
  {
    assert (names + [x])[..|names|] == names;
  }

  lemma OrderGoesOn(shorter: seq<Node>, last: Node, key: string, before: seq<string>, p: string -> bool)
    requires InStepOrder(shorter, key, before)
    requires forall x :: x in before <==> p(x) && exists n :: n in shorter && NamesOther(n, key) && n.extension == x
    ensures InStepOrder(shorter + [last], key, before)
    ensures NamesOther(last, key) && p(last.extension) && last.extension !in before ==> InStepOrder(shorter + [last], key, before + [last.extension])
  {
    hide NamesOther;
    var nodes, x := shorter + [last], last.extension;
    var longer := before + [x];
    forall i, j | 0 <= i < j < |before| ensures NamedBefore(nodes, key, before[i], before[j]) {
      var a :| NamedFirst(shorter, key, a, before[i], before[j]);
      assert forall b :: 0 <= b <= a ==> nodes[b] == shorter[b];
      assert NamedFirst(nodes, key, a, before[i], before[j]);
    }
    if NamesOther(last, key) && p(x) && x !in before {
      forall i, j | 0 <= i < j < |longer| ensures NamedBefore(nodes, key, longer[i], longer[j]) {
        assert longer[i] == before[i];
        if j == |before| { NamedEarlier(shorter, last, key, before, p, i); } else { assert longer[j] == before[j]; }
      }
    }
  }

  lemma NamedEarlier(shorter: seq<Node>, last: Node, key: string, before: seq<string>, p: string -> bool, i: nat)
    requires i < |before| && p(last.extension) && last.extension !in before
    requires forall x :: x in before <==> p(x) && exists n :: n in shorter && NamesOther(n, key) && n.extension == x
    ensures NamedBefore(shorter + [last], key, before[i], last.extension)
  {
    hide NamesOther;
    var nodes := shorter + [last];
    assert before[i] in before;
    var n :| n in shorter && NamesOther(n, key) && n.extension == before[i];
    var a :| 0 <= a < |shorter| && shorter[a] == n;
    assert nodes[a] == n;
    forall b | 0 <= b <= a && NamesOther(nodes[b], key) ensures nodes[b].extension != last.extension {
      assert nodes[b] == shorter[b] && shorter[b] in shorter;
    }
    assert NamedFirst(nodes, key, a, before[i], last.extension);
  }

  /** The phone of the first forward step that has one. */
  predicate FirstForward(nodes: seq<Node>, phone: string) {
    if phone == "" then forall n :: n in nodes && n.kind == ForwardStep ==> n.phone == ""
    else exists i :: 0 <= i < |nodes| && nodes[i].kind == ForwardStep && nodes[i].phone == phone
                     && forall j :: 0 <= j < i && nodes[j].kind == ForwardStep ==> nodes[j].phone == ""
  }

  lemma {:induction false} FirstPhoneIs(nodes: seq<Node>)
    ensures FirstForward(nodes, FirstPhone(nodes))
  {
    if nodes != [] {
      var shorter, last := nodes[..|nodes| - 1], nodes[|nodes| - 1];
      FirstPhoneIs(shorter);
      assert nodes == shorter + [last];
      var phone := FirstPhone(nodes);
      if FirstPhone(shorter) != "" {
        var i :| 0 <= i < |shorter| && shorter[i].kind == ForwardStep && shorter[i].phone == phone
                 && forall j :: 0 <= j < i && shorter[j].kind == ForwardStep ==> shorter[j].phone == "";
        assert nodes[i] == shorter[i] && forall j :: 0 <= j < i ==> nodes[j] == shorter[j];
      } else {
        forall j | 0 <= j < |shorter| && nodes[j].kind == ForwardStep ensures nodes[j].phone == "" { assert nodes[j] == shorter[j] && shorter[j] in shorter; }
        if last.kind == ForwardStep && last.phone != "" { assert nodes[|nodes| - 1] == last; }
      }
    }
  }

  // ---------------------------------------------------------------- the handling

  /** The listed desks whose own step has ringing switched off. */
  ghost predicate SilentAmong(s: Store, owner: Option<nat>, keys: seq<string>, gone: set<string>) {
    forall k :: k in gone <==> k in keys && Silent(s, owner, k)
  }

  /**
   * What the handling does. It leaves out exactly the listed desks that are switched off, in place; it hands
   * unanswered calls to the desks the first listed desk names and that may ring, and to no others; it keeps the
   * journey's own mailbox and phone; and to a journey with neither it gives the first desk's mailbox, or else its
   * first phone.
   */
  lemma HandlingMeans(s: Store, plan: Journey, keys: seq<string>, number: string, owner: Option<nat>)
    ensures var t := Handled(s, plan, keys, number, owner);
            && (exists gone :: SilentAmong(s, owner, keys, gone) && LeavesOut(t.destinations, plan.destinations, gone))
            && (forall k :: k in t.destinations <==> k in plan.destinations && !(k in keys && Silent(s, owner, k)))
            && NoRepeats(t.fallbacks) && (keys != [] ==> InStepOrder(DeskFlow(s, owner, keys[0]), keys[0], t.fallbacks))
            && (forall x :: x in t.fallbacks <==>
                  keys != [] && MayRing(s, owner, x) && exists n :: n in DeskFlow(s, owner, keys[0]) && NamesOther(n, keys[0]) && n.extension == x)
            && (if plan.voicemail != "" || plan.forward != "" then t.voicemail == plan.voicemail && t.forward == plan.forward
                else
                  && t.voicemail == (if keys == [] then "" else DeskVoicemail(s, number, keys[0], owner))
                  && (if t.voicemail != "" then t.forward == ""
                      else FirstForward(if keys == [] then [] else DeskFlow(s, owner, keys[0]), t.forward)))
            && t == plan.(destinations := t.destinations, fallbacks := t.fallbacks, voicemail := t.voicemail, forward := t.forward)
  {
    hide DeskFlow, DeskVoicemail, Keep, Silent, NamesOther, MayRing, LeavesOut, FirstForward, HandlingOf, InStepOrder;
    var gone := HandlingOf(s, keys, owner).disabled;
    DisabledAre(s, keys, owner);
    KeepLeavesOut(plan.destinations, gone);
    LeftAre(Handled(s, plan, keys, number, owner).destinations, plan.destinations, gone);
    if keys == [] {
      NobodyAsks(s, owner);
    } else {
      FirstFallbacks(s, keys, owner);
      FirstPhoneIs(DeskFlow(s, owner, keys[0]));
      FirstEnding(s, keys[0], owner);
    }
    assert SilentAmong(s, owner, keys, gone);
  }

  lemma DisabledAre(s: Store, keys: seq<string>, owner: Option<nat>)
    ensures SilentAmong(s, owner, keys, HandlingOf(s, keys, owner).disabled)
  {
    hide DeskFlow, Silent, SwitchedOff, Unique, Keep, AllOthers, PhoneOfAll, Allowed;
    forall k ensures Silent(s, owner, k) <==> SwitchedOff(DeskFlow(s, owner, k), k) { SilentIs(s, owner, k); }
  }

  lemma FirstEnding(s: Store, key: string, owner: Option<nat>)
    ensures HandlingOf(s, [key], owner).forward == FirstPhone(DeskFlow(s, owner, key))
  {
    hide DeskFlow, FirstPhone, Keep, Unique, Allowed;
    AllOthersOfOne(s, key, owner);
  }

  lemma NobodyAsks(s: Store, owner: Option<nat>)
    ensures HandlingOf(s, [], owner).fallbacks == [] && HandlingOf(s, [], owner).forward == ""
    ensures FirstForward([], "")
  {
    assert AllOthers(s, [], owner) == [];
  }

  // ---------------------------------------------------------------- the first desk's mailbox

  /** Step `i` is the first for which this holds. */
  ghost predicate IsFirst(nodes: seq<Node>, holds: Node -> bool, i: int) {
    0 <= i < |nodes| && holds(nodes[i]) && forall j :: 0 <= j < i ==> !holds(nodes[j])
  }

  predicate States(n: Node, key: string) { n.kind == Desk && n.extension == key && n.noAnswer.Some? }

  predicate TakesMessages(n: Node) { n.kind == VoicemailStep && n.enabled }

  lemma {:induction false} PolicyIs(nodes: seq<Node>, key: string)
    ensures match PolicyOf(nodes, key)
            case None => forall n :: n in nodes ==> !States(n, key)
            case Some(policy) => exists i :: IsFirst(nodes, n => States(n, key), i) && nodes[i].noAnswer == Some(policy)
  {
    var f := n => States(n, key);
    if nodes != [] {
      PolicyIs(nodes[1..], key);
      assert nodes == [nodes[0]] + nodes[1..];
      if States(nodes[0], key) { assert IsFirst(nodes, f, 0); }
      else if PolicyOf(nodes[1..], key).Some? {
        var i :| IsFirst(nodes[1..], f, i) && nodes[1..][i].noAnswer == PolicyOf(nodes, key);
        FirstMoves(nodes, f, i);
      }
    }
  }

  lemma FirstMoves(nodes: seq<Node>, holds: Node -> bool, i: int)
    requires nodes != [] && !holds(nodes[0]) && IsFirst(nodes[1..], holds, i)
    ensures IsFirst(nodes, holds, i + 1) && nodes[i + 1] == nodes[1..][i]
  {
    forall j | 0 <= j < i + 1 ensures !holds(nodes[j]) { if j > 0 { assert nodes[j] == nodes[1..][j - 1]; } }
  }

  lemma {:induction false} FirstVoicemailIs(nodes: seq<Node>)
    ensures match FirstVoicemail(nodes)
            case None => forall n :: n in nodes ==> !TakesMessages(n)
            case Some(mailbox) => exists i :: IsFirst(nodes, n => TakesMessages(n), i) && nodes[i].mailbox == mailbox
  {
    var f := n => TakesMessages(n);
    if nodes != [] {
      FirstVoicemailIs(nodes[1..]);
      assert nodes == [nodes[0]] + nodes[1..];
      if TakesMessages(nodes[0]) { assert IsFirst(nodes, f, 0); }
      else if FirstVoicemail(nodes[1..]).Some? {
        var i :| IsFirst(nodes[1..], f, i) && nodes[1..][i].mailbox == FirstVoicemail(nodes).value;
        FirstMoves(nodes, f, i);
      }
    }
  }

  /** A policy of the desk's own sends unanswered calls elsewhere. */
  ghost predicate SendsElsewhere(nodes: seq<Node>, key: string) {
    exists i :: IsFirst(nodes, n => States(n, key), i) && nodes[i].noAnswer != Some("voicemail")
  }

  /** The key of the desk that is meant: itself when it is one, or its digits' key on the number. */
  function DeskKey(s: Store, number: string, extension: string, owner: Option<nat>): string {
    if '@' !in extension && number != "" && extension != "" then KeyOn(s, number, extension, owner) else extension
  }

  /**
   * The mailbox of a desk, on a number: none when no desk is meant, or when the desk's policy sends unanswered calls
   * elsewhere; else the one its first enabled voicemail step names, its own when that names none; else its own if
   * its switch is on and it states no policy; else none.
   */
  lemma DeskMailboxMeans(s: Store, number: string, extension: string, owner: Option<nat>)
    ensures var key, v := DeskKey(s, number, extension, owner), DeskVoicemail(s, number, extension, owner);
            var nodes := DeskFlow(s, owner, key);
            && (key == "" || SendsElsewhere(nodes, key) ==> v == "")
            && (key != "" && !SendsElsewhere(nodes, key) ==> forall i :: IsFirst(nodes, n => TakesMessages(n), i) ==>
                  v == VoicemailKey(s, number, if nodes[i].mailbox == "" then key else nodes[i].mailbox, owner))
            && (key != "" && !SendsElsewhere(nodes, key) && (forall n :: n in nodes ==> !TakesMessages(n)) ==>
                  v == if SwitchIsOn(s, key) && (forall n :: n in nodes ==> !States(n, key)) then key else "")
  {
    hide DeskFlow, VoicemailKey, KeyOn;
    var key := DeskKey(s, number, extension, owner);
    var nodes := DeskFlow(s, owner, key);
    PolicyIs(nodes, key);
    FirstVoicemailIs(nodes);
    forall i, j, holds: Node -> bool | IsFirst(nodes, holds, i) && IsFirst(nodes, holds, j) ensures i == j { assert !(i < j) && !(j < i); }
    if FirstVoicemail(nodes).Some? {
      var i :| IsFirst(nodes, n => TakesMessages(n), i) && nodes[i].mailbox == FirstVoicemail(nodes).value;
      assert nodes[i] in nodes;
    }
    if PolicyOf(nodes, key).Some? {
      var i :| IsFirst(nodes, n => States(n, key), i) && nodes[i].noAnswer == PolicyOf(nodes, key);
      assert nodes[i] in nodes;
    }
    FirstRowIs(s.extensions, key);
  }

  /** The first row with this key has its voicemail switch on. */
  predicate SwitchIsOn(s: Store, key: string) {
    exists i :: 0 <= i < |s.extensions| && s.extensions[i].key == key && s.extensions[i].voicemail
                && forall j :: 0 <= j < i ==> s.extensions[j].key != key
  }

  lemma {:induction false} FirstRowIs(rows: seq<Extension>, key: string)
    ensures match RowOf(rows, key)
            case None => forall j :: 0 <= j < |rows| ==> rows[j].key != key
            case Some(e) => exists i :: 0 <= i < |rows| && rows[i] == e && e.key == key && forall j :: 0 <= j < i ==> rows[j].key != key
  {
    if rows != [] && rows[0].key != key {
      FirstRowIs(rows[1..], key);
      if RowOf(rows, key).Some? {
        var i :| 0 <= i < |rows[1..]| && rows[1..][i] == RowOf(rows, key).value && rows[1..][i].key == key && forall j :: 0 <= j < i ==> rows[1..][j].key != key;
        assert rows[i + 1] == rows[1..][i];
        forall j | 0 <= j < i + 1 ensures rows[j].key != key { if j > 0 { assert rows[j] == rows[1..][j - 1]; } }
      } else {
        forall j | 0 <= j < |rows| ensures rows[j].key != key { if j > 0 { assert rows[j] == rows[1..][j - 1]; } }
      }
    }
  }
}
