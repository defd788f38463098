/** What a save leaves in the tables: the flow it saved is the one found again, and every other flow is as it was. */
module FlowEdits {
  import opened Wrappers
  import opened ExtensionKeys
  import opened Directory
  import opened RouteNodes
  import opened InboundPlan
  import opened FlowSaves

  // ---------------------------------------------------------------- one row of a flow table

  lemma {:induction false} ReplacedIsFound(flows: seq<Flow>, flow: Flow)
    ensures FlowFor(Replaced(flows, flow), Some(flow.owner), flow.target) == Some(flow.nodes)
  {
    if flows != [] && !(flows[0].owner == flow.owner && flows[0].target == flow.target) {
      ReplacedIsFound(flows[1..], flow);
      assert ([flows[0]] + Replaced(flows[1..], flow))[1..] == Replaced(flows[1..], flow);
    }
  }

  lemma {:induction false} OthersAreKept(flows: seq<Flow>, flow: Flow, owner: nat, target: string)
    requires owner != flow.owner || target != flow.target
    ensures FlowFor(Replaced(flows, flow), Some(owner), target) == FlowFor(flows, Some(owner), target)
  {
    if flows != [] {
      if flows[0].owner == flow.owner && flows[0].target == flow.target {
        assert ([flow] + flows[1..])[1..] == flows[1..];
      } else {
        OthersAreKept(flows[1..], flow, owner, target);
        assert ([flows[0]] + Replaced(flows[1..], flow))[1..] == Replaced(flows[1..], flow);
      }
    } else {
      assert FlowFor([flow], Some(owner), target) == FlowFor([], Some(owner), target);
    }
  }

  /** One flow of a table was written, and no account sees any other change. */
  ghost predicate Wrote(before: seq<Flow>, after: seq<Flow>, owner: nat, target: string, nodes: seq<Node>) {
    && FlowFor(after, Some(owner), target) == Some(nodes)
    && forall o, t :: o != owner || t != target ==> FlowFor(after, Some(o), t) == FlowFor(before, Some(o), t)
  }

  lemma ReplacedWrites(flows: seq<Flow>, flow: Flow)
    ensures Wrote(flows, Replaced(flows, flow), flow.owner, flow.target, flow.nodes)
  {
    hide Replaced, FlowFor;
    ReplacedIsFound(flows, flow);
    forall o, t | o != flow.owner || t != flow.target ensures FlowFor(Replaced(flows, flow), Some(o), t) == FlowFor(flows, Some(o), t) {
      OthersAreKept(flows, flow, o, t);
    }
  }

  // ---------------------------------------------------------------- what an accepted flow names

  predicate IsOwn(s: Store, owner: nat, key: string) { exists e :: e in s.extensions && e.owner == Some(owner) && e.key == key }

  /** Every device the step names is one of the account's own. */
  predicate StepNamesOwn(s: Store, owner: nat, n: Node) {
    match n.kind
    case Desk => IsOwn(s, owner, n.extension)
    case VoicemailStep => IsOwn(s, owner, n.mailbox)
    case Menu => (forall k :: k in n.keys ==> IsOwn(s, owner, k.target)) && (n.fallback == "" || IsOwn(s, owner, n.fallback))
    case ForwardStep => true
    case Hours => true
    case _ => forall key :: key in n.extensions ==> IsOwn(s, owner, key)
  }

  predicate NamesOwn(s: Store, owner: nat, nodes: seq<Node>) { forall n :: n in nodes ==> StepNamesOwn(s, owner, n) }

  lemma OwnIs(s: Store, owner: nat, key: string)
    ensures OwnKey(s, owner, key) <==> IsOwn(s, owner, key)
  {
    if e :| e in s.extensions && e.owner == Some(owner) && e.key == key {
      var i :| 0 <= i < |s.extensions| && s.extensions[i] == e;
      assert s.extensions[i].owner == Some(owner) && s.extensions[i].key == key;
    }
    if i :| 0 <= i < |s.extensions| && s.extensions[i].owner == Some(owner) && s.extensions[i].key == key { assert s.extensions[i] in s.extensions; }
  }

  /** What else the validator asks: hours on real weekdays, single distinct menu digits, and ring steps that ring somebody of their group. */
  predicate WellShaped(s: Store, owner: nat, n: Node) {
    && (n.kind == Hours ==> n.days != [] && forall d :: d in n.days ==> 1 <= d <= 7)
    && (n.kind == Menu ==> SingleDigits(n.keys))
    && (n.kind == RingGroup || n.kind == Simultaneous || n.kind == Sequential ==>
          && (n.enabled ==> n.extensions != [])
          && (n.group != "" ==> GroupHolds(GroupsOf(s.groups, Some(owner)), n.group, n.extensions)))
  }

  lemma StepAcceptedIff(s: Store, owner: nat, n: Node)
    ensures StepAccepted(s, owner, n) <==> StepNamesOwn(s, owner, n) && WellShaped(s, owner, n)
  {
    hide OwnKey, IsOwn, GroupsOf, GroupHolds, SingleDigits;
    forall key: string ensures OwnKey(s, owner, key) <==> IsOwn(s, owner, key) { OwnIs(s, owner, key); }
    assert forall i :: 0 <= i < |n.keys| ==> n.keys[i] in n.keys;
    assert forall i :: 0 <= i < |n.days| ==> n.days[i] in n.days;
    assert OwnKeys(s, owner, n.extensions) <==> forall key :: key in n.extensions ==> IsOwn(s, owner, key) by {
      assert forall i :: 0 <= i < |n.extensions| ==> n.extensions[i] in n.extensions;
    }
  }

  lemma AcceptedIff(s: Store, owner: nat, nodes: seq<Node>)
    ensures Accepted(s, owner, nodes) <==> |nodes| <= 100 && NamesOwn(s, owner, nodes) && forall n :: n in nodes ==> WellShaped(s, owner, n)
  {
    hide StepAccepted, StepNamesOwn, WellShaped;
    forall n: Node ensures StepAccepted(s, owner, n) <==> StepNamesOwn(s, owner, n) && WellShaped(s, owner, n) { StepAcceptedIff(s, owner, n); }
    assert forall i :: 0 <= i < |nodes| ==> nodes[i] in nodes;
  }

  // ---------------------------------------------------------------- what destinations are spelled as

  /** The account's rows with these digits, on whatever line. */
  predicate Carries(s: Store, owner: nat, digits: string, e: Extension) { e in s.extensions && e.owner == Some(owner) && e.digits == digits }

  /** Only bare digits are looked up; anything else is kept as it was written. */
  predicate LookedUp(value: string) { value != "" && Scope(value) == "" && forall i :: 0 <= i < |value| ==> IsDigit(value[i]) }

  /**
   * On a number's journey, digits become the line's own key, if it has one. On a desk's flow they become the key of
   * a row of the account that carries them; that is refused when several do, and kept as digits when none does.
   */
  lemma ResolveKeyMeans(s: Store, value: string, owner: nat, number: string)
    ensures var r := ResolveKey(s, value, owner, number);
            if !LookedUp(value) then r == Some(value)
            else if number != "" then
              r == Some(if KeyOn(s, number, value, Some(owner)) == "" then value else KeyOn(s, number, value, Some(owner)))
            else
              && (r.None? <==> |RowsWith(s.extensions, Digits(value), owner)| > 1)
              && (r.Some? ==> (r.value == value && forall e :: !Carries(s, owner, Digits(value), e))
                              || exists e :: Carries(s, owner, Digits(value), e) && r.value == e.key)
  {
    hide KeyOn, Scope, Digits, RowsWith;
    RowsWithAre(s.extensions, Digits(value), owner);
    var rows := RowsWith(s.extensions, Digits(value), owner);
    if |rows| == 1 { assert rows[0] in rows; }
    if |rows| == 0 { assert rows == []; }
  }

  /** The same step with its destinations spelled as keys, and nothing else changed. */
  predicate SameStep(s: Store, owner: nat, number: string, a: Node, b: Node) {
    && b == a.(extensions := b.extensions, extension := b.extension, mailbox := b.mailbox, fallback := b.fallback, keys := b.keys)
    && ResolveKey(s, a.extension, owner, number) == Some(b.extension)
    && ResolveKey(s, a.mailbox, owner, number) == Some(b.mailbox)
    && ResolveKey(s, a.fallback, owner, number) == Some(b.fallback)
    && |b.extensions| == |a.extensions|
    && (forall i :: 0 <= i < |a.extensions| ==> ResolveKey(s, a.extensions[i], owner, number) == Some(b.extensions[i]))
    && |b.keys| == |a.keys|
    && forall i :: 0 <= i < |a.keys| ==> b.keys[i].key == a.keys[i].key && ResolveKey(s, a.keys[i].target, owner, number) == Some(b.keys[i].target)
  }

  /** Some destination of the step is refused. */
  predicate Unresolvable(s: Store, owner: nat, number: string, a: Node) {
    || ResolveKey(s, a.extension, owner, number).None? || ResolveKey(s, a.mailbox, owner, number).None?
    || ResolveKey(s, a.fallback, owner, number).None?
    || (exists i :: 0 <= i < |a.extensions| && ResolveKey(s, a.extensions[i], owner, number).None?)
    || (exists i :: 0 <= i < |a.keys| && ResolveKey(s, a.keys[i].target, owner, number).None?)
  }

  lemma {:induction false} ResolveAllIs(s: Store, values: seq<string>, owner: nat, number: string)
    ensures match ResolveAll(s, values, owner, number)
            case Some(r) => |r| == |values| && forall i :: 0 <= i < |values| ==> ResolveKey(s, values[i], owner, number) == Some(r[i])
            case None => exists i :: 0 <= i < |values| && ResolveKey(s, values[i], owner, number).None?
  {
    hide ResolveKey;
    if values != [] {
      ResolveAllIs(s, values[1..], owner, number);
      assert forall i :: 0 < i < |values| ==> values[i] == values[1..][i - 1];
      if ResolveAll(s, values[1..], owner, number).None? {
        var i :| 0 <= i < |values[1..]| && ResolveKey(s, values[1..][i], owner, number).None?;
        assert values[i + 1] == values[1..][i];
      }
    }
  }

  lemma {:induction false} ResolveMappingsIs(s: Store, keys: seq<Mapping>, owner: nat, number: string)
    ensures match ResolveMappings(s, keys, owner, number)
            case Some(r) => |r| == |keys| && forall i :: 0 <= i < |keys| ==> r[i].key == keys[i].key && ResolveKey(s, keys[i].target, owner, number) == Some(r[i].target)
            case None => exists i :: 0 <= i < |keys| && ResolveKey(s, keys[i].target, owner, number).None?
  {
    hide ResolveKey;
    if keys != [] {
      ResolveMappingsIs(s, keys[1..], owner, number);
      assert forall i :: 0 < i < |keys| ==> keys[i] == keys[1..][i - 1];
      if ResolveMappings(s, keys[1..], owner, number).None? {
        var i :| 0 <= i < |keys[1..]| && ResolveKey(s, keys[1..][i].target, owner, number).None?;
        assert keys[i + 1] == keys[1..][i];
      }
    }
  }

  lemma ResolveNodeIs(s: Store, a: Node, owner: nat, number: string)
    ensures match ResolveNode(s, a, owner, number)
            case Some(b) => SameStep(s, owner, number, a, b)
            case None => Unresolvable(s, owner, number, a)
  {
    hide ResolveKey, ResolveAll, ResolveMappings;
    ResolveAllIs(s, a.extensions, owner, number);
    ResolveMappingsIs(s, a.keys, owner, number);
  }

  /** Every step is spelled anew in its place, or the whole save is refused because of one destination. */
  lemma {:induction false} ResolvedSteps(s: Store, nodes: seq<Node>, owner: nat, number: string)
    ensures match ResolveNodes(s, nodes, owner, number)
            case Some(r) => |r| == |nodes| && forall i :: 0 <= i < |nodes| ==> SameStep(s, owner, number, nodes[i], r[i])
            case None => exists i :: 0 <= i < |nodes| && Unresolvable(s, owner, number, nodes[i])
  {
    hide ResolveNode, SameStep, Unresolvable;
    if nodes != [] {
      ResolveNodeIs(s, nodes[0], owner, number);
      ResolvedSteps(s, nodes[1..], owner, number);
      assert forall i :: 0 < i < |nodes| ==> nodes[i] == nodes[1..][i - 1];
      if ResolveNodes(s, nodes[1..], owner, number).None? {
        var i :| 0 <= i < |nodes[1..]| && Unresolvable(s, owner, number, nodes[1..][i]);
        assert nodes[i + 1] == nodes[1..][i];
      }
    }
  }

  // ---------------------------------------------------------------- the two saves

  /** The steps with every destination spelled as a key, when that goes through. */
  function Resolved(s: Store, owner: nat, nodes: seq<Node>, number: string): Option<seq<Node>> { ResolveNodes(s, nodes, owner, number) }

  /**
   * A journey is saved exactly when the account has the number, nobody else has a journey on it, and the resolved
   * steps name only the account's own devices and are well shaped. Then those steps are its journey from now on,
   * every other journey is found as before, and no other table differs.
   */
  lemma RouteSaveOutcome(s: Store, owner: nat, number: string, nodes: seq<Node>)
    ensures var r, steps := SaveRoute(s, owner, number, nodes), Resolved(s, owner, nodes, number);
            && (r.Some? <==>
                  && (exists n :: n in s.numbers && n.number == number && n.owner == Some(owner))
                  && !(exists f :: f in s.routes && f.target == number && f.owner != owner)
                  && steps.Some? && |steps.value| <= 100 && NamesOwn(s, owner, steps.value) && forall n :: n in steps.value ==> WellShaped(s, owner, n))
            && (r.Some? ==> r.value == s.(routes := r.value.routes) && Wrote(s.routes, r.value.routes, owner, number, steps.value))
  {
    hide ResolveNodes, Accepted, NamesOwn, WellShaped, Replaced, Wrote;
    ListedNumber(s, number, owner);
    OthersListed(s, number, owner);
    var steps := Resolved(s, owner, nodes, number);
    if steps.Some? {
      AcceptedIff(s, owner, steps.value);
      ReplacedWrites(s.routes, Flow(owner, number, steps.value));
    }
  }

  lemma ListedNumber(s: Store, number: string, owner: nat)
    ensures HasNumber(s, number, owner) <==> exists n :: n in s.numbers && n.number == number && n.owner == Some(owner)
  {
    if n :| n in s.numbers && n.number == number && n.owner == Some(owner) {
      var i :| 0 <= i < |s.numbers| && s.numbers[i] == n;
      assert s.numbers[i].number == number && s.numbers[i].owner == Some(owner);
    }
    if i :| 0 <= i < |s.numbers| && s.numbers[i].number == number && s.numbers[i].owner == Some(owner) { assert s.numbers[i] in s.numbers; }
  }

  lemma OthersListed(s: Store, number: string, owner: nat)
    ensures OthersRoute(s, number, owner) <==> exists f :: f in s.routes && f.target == number && f.owner != owner
  {
    if f :| f in s.routes && f.target == number && f.owner != owner {
      var i :| 0 <= i < |s.routes| && s.routes[i] == f;
      assert s.routes[i].target == number && s.routes[i].owner != owner;
    }
    if i :| 0 <= i < |s.routes| && s.routes[i].target == number && s.routes[i].owner != owner { assert s.routes[i] in s.routes; }
  }

  /** A desk's flow likewise, under the one key its target means, and only with steps a desk can have. */
  lemma DeskSaveOutcome(s: Store, owner: nat, target: string, nodes: seq<Node>)
    ensures var r, key, steps := SaveDesk(s, owner, target, nodes), ResolveKey(s, target, owner, ""), Resolved(s, owner, nodes, "");
            && (r.Some? <==>
                  && key.Some? && IsOwn(s, owner, key.value)
                  && steps.Some? && |steps.value| <= 100 && NamesOwn(s, owner, steps.value) && (forall n :: n in steps.value ==> WellShaped(s, owner, n))
                  && forall n :: n in steps.value ==> n.kind in {Desk, VoicemailStep, ForwardStep})
            && (r.Some? ==> r.value == s.(desks := r.value.desks) && Wrote(s.desks, r.value.desks, owner, key.value, steps.value))
  {
    hide ResolveNodes, ResolveKey, Accepted, NamesOwn, WellShaped, Replaced, Wrote, IsOwn, OwnKey;
    var key, steps := ResolveKey(s, target, owner, ""), Resolved(s, owner, nodes, "");
    if key.Some? && steps.Some? {
      OwnIs(s, owner, key.value);
      AcceptedIff(s, owner, steps.value);
      ReplacedWrites(s.desks, Flow(owner, key.value, steps.value));
      assert DeskKinds(steps.value) <==> forall n :: n in steps.value ==> n.kind in {Desk, VoicemailStep, ForwardStep};
    }
  }
}
