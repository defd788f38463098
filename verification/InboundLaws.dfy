/** What a planned journey promises: who rings, whose devices they are, and that a named mailbox exists. */
module InboundLaws {
  import opened Wrappers
  import opened ExtensionKeys
  import opened Directory
  import opened RouteNodes
  import opened InboundPlan

  // ---------------------------------------------------------------- who rings

  lemma {:induction false} RungIs(nodes: seq<Node>, groups: seq<Group>, allowed: set<string>)
    ensures forall k :: k in Rung(nodes, groups, allowed) <==>
              k in allowed && exists i :: 0 <= i < |nodes| && nodes[i].enabled && IsRing(nodes[i]) && k in Members(nodes[i], groups)
  {
    if nodes != [] {
      hide Members, IsRing;
      var shorter, last := nodes[..|nodes| - 1], nodes[|nodes| - 1];
      RungIs(shorter, groups, allowed);
      KeepIs(Members(last, groups), k => k in allowed);
      forall k | k in Rung(nodes, groups, allowed)
        ensures k in allowed && exists i :: 0 <= i < |nodes| && nodes[i].enabled && IsRing(nodes[i]) && k in Members(nodes[i], groups)
      {
        if k in Rung(shorter, groups, allowed) {
          var i :| 0 <= i < |shorter| && shorter[i].enabled && IsRing(shorter[i]) && k in Members(shorter[i], groups);
          assert nodes[i] == shorter[i];
        }
      }
      forall k, i | k in allowed && 0 <= i < |nodes| && nodes[i].enabled && IsRing(nodes[i]) && k in Members(nodes[i], groups)
        ensures k in Rung(nodes, groups, allowed)
      {
        if i < |shorter| { assert shorter[i] == nodes[i]; }
      }
    }
  }

  /** This step takes part now: it stands before the first hours step, or the line is open. */
  predicate TakesPart(nodes: seq<Node>, now: Moment, i: int) {
    0 <= i < |nodes| && nodes[i].enabled && IsRing(nodes[i]) && (i < HoursAt(nodes) || !ClosedAt(nodes, now))
  }

  /**
   * The devices of a journey are exactly the allowed members of the ring steps that take part now, each once
   * and in the order they are first named.
   */
  lemma DevicesAreTheOpenRingSteps(s: Store, nodes: seq<Node>, owner: Option<nat>, now: Moment)
    ensures var groups, allowed := GroupsOf(s.groups, owner), Allowed(s, owner);
            var devices := Unique(Rung(Ringing(nodes, now), groups, allowed));
            && NoRepeats(devices) && InFirstOrder(devices, Rung(Ringing(nodes, now), groups, allowed))
            && forall k :: k in devices <==> k in allowed && exists i :: TakesPart(nodes, now, i) && k in Members(nodes[i], groups)
  {
    hide Members, Allowed, GroupsOf, OpenAt, NoRepeats, InFirstOrder, Unique, Rung;
    var groups, allowed := GroupsOf(s.groups, owner), Allowed(s, owner);
    var steps, h := Ringing(nodes, now), HoursAt(nodes);
    UniqueIs(Rung(steps, groups, allowed));
    RungIs(steps, groups, allowed);
    forall k, i | TakesPart(nodes, now, i) && k in Members(nodes[i], groups)
      ensures exists j :: 0 <= j < |steps| && steps[j].enabled && IsRing(steps[j]) && k in Members(steps[j], groups)
    {
      assert steps[if i < h then i else i - 1] == nodes[i];
    }
    forall k, j | 0 <= j < |steps| && steps[j].enabled && IsRing(steps[j]) && k in Members(steps[j], groups)
      ensures exists i :: TakesPart(nodes, now, i) && k in Members(nodes[i], groups)
    {
      var i := if j < h then j else j + 1;
      assert steps[j] == nodes[i] && TakesPart(nodes, now, i);
    }
  }

  // ---------------------------------------------------------------- whose devices

  function AccountKeys(s: Store, owner: nat): set<string> {
    set e | e in s.extensions && e.owner == Some(owner) :: e.key
  }

  predicate Within(names: seq<string>, keys: set<string>) { forall k :: k in names ==> k in keys }

  /** Everything a journey may ever dial is in this set. */
  predicate DialsWithin(plan: Journey, keys: set<string>) {
    && Within(plan.destinations, keys) && Within(plan.fallbacks, keys) && Within(plan.fallbackDestinations, keys)
    && plan.offered <= keys
    && (forall i :: 0 <= i < |plan.keyMap| ==> plan.keyMap[i].target in keys)
    && (plan.fallback != "" ==> plan.fallback in keys)
  }

  lemma PlanIsAllowed(s: Store, nodes: seq<Node>, owner: Option<nat>, extension: string, number: string, now: Moment)
    ensures DialsWithin(PlanOf(s, nodes, owner, extension, number, now), Allowed(s, owner))
  {
    hide Allowed, GroupsOf, Ringing, Unique, Rung, MailboxIn, ForwardIn, HasRing, ClosedAt;
    var groups, allowed := GroupsOf(s.groups, owner), Allowed(s, owner);
    UniqueIs(Rung(Ringing(nodes, now), groups, allowed));
    RungIs(Ringing(nodes, now), groups, allowed);
  }

  lemma HandledIsAllowed(s: Store, plan: Journey, keys: seq<string>, number: string, owner: Option<nat>, within: set<string>)
    requires DialsWithin(plan, within) && Allowed(s, owner) <= within
    ensures DialsWithin(Handled(s, plan, keys, number, owner), within)
  {
    hide Allowed, Keep, Unique, AllOthers, DeskVoicemail, PhoneOfAll, SwitchedOff;
    var handling, first := HandlingOf(s, keys, owner), if keys == [] then [] else [keys[0]];
    KeepIs(plan.destinations, k => k !in handling.disabled);
    KeepIs(AllOthers(s, first, owner), k => k in Allowed(s, owner) && k !in first);
    UniqueIs(Keep(AllOthers(s, first, owner), k => k in Allowed(s, owner) && k !in first));
  }

  lemma {:induction false} MappingsAreAllowed(keys: seq<Mapping>, allowed: set<string>)
    ensures forall i :: 0 <= i < |KeepMappings(keys, allowed)| ==> KeepMappings(keys, allowed)[i].target in allowed
  {
    if keys != [] { MappingsAreAllowed(keys[1..], allowed); }
  }

  lemma MenuIsAllowed(s: Store, node: Node, rest: seq<Node>, owner: Option<nat>, extension: string, number: string, now: Moment)
    ensures DialsWithin(MenuPlan(s, node, rest, owner, extension, number, now), Allowed(s, owner))
  {
    hide Allowed, PlanOf;
    PlanIsAllowed(s, rest, owner, extension, number, now);
    MappingsAreAllowed(node.keys, Allowed(s, owner));
  }

  lemma {:induction false} ResolvedIsOwned(rows: seq<Extension>, number: string, digits: string, owner: Option<nat>)
    ensures ResolveIn(rows, number, digits, owner).Some? ==>
              exists e :: e in rows && OwnedBy(e, owner) && e.number == number && e.digits == digits
                          && e.key == ResolveIn(rows, number, digits, owner).value
  {
    if rows != [] {
      ResolvedIsOwned(rows[1..], number, digits, owner);
      assert rows == [rows[0]] + rows[1..];
    }
  }

  /**
   * Whatever is stored, a number that belongs to an account dials only that account's extensions: at once, as
   * fallbacks, and from its menu. With a stored journey they are all active ones.
   */
  lemma OwnedNumbersStayInTheAccount(s: Store, number: string, fallback: string, now: Moment, owner: nat)
    requires NumberOf(s.numbers, number).Some? && NumberOf(s.numbers, number).value.owner == Some(owner)
    ensures DialsWithin(Planned(s, number, fallback, now), AccountKeys(s, owner))
    ensures FlowFor(s.routes, Some(owner), number).Some? ==> DialsWithin(Planned(s, number, fallback, now), Allowed(s, Some(owner)))
  {
    hide Allowed, Handled, PlanOf, MenuPlan, Steps, ClosedAt, KeyOn, FlowFor, DialsWithin;
    AllowedIsOwned(s, owner);
    var row := NumberOf(s.numbers, number).value;
    var extension := if row.inbound != "" then row.inbound else fallback;
    match FlowFor(s.routes, Some(owner), number)
    case None =>
      var key := if extension == "" then "" else KeyOn(s, number, extension, Some(owner));
      LegacyIsOwned(s, number, extension, owner);
      var keys := if key == "" then [] else [key];
      HandledIsAllowed(s, Journey(false, keys, "", "", [], false, {}, [], "", []), keys, number, Some(owner), AccountKeys(s, owner));
    case Some(stored) =>
      var nodes := Steps(s, stored, owner, extension);
      var menu, plan := FirstMenu(nodes), PlanOf(s, nodes, Some(owner), extension, number, now);
      PlanIsAllowed(s, nodes, Some(owner), extension, number, now);
      HandledIsAllowed(s, plan, plan.destinations, number, Some(owner), Allowed(s, Some(owner)));
      if menu.Some? {
        MenuIsAllowed(s, nodes[menu.value], nodes[..menu.value] + nodes[menu.value + 1..], Some(owner), extension, number, now);
      }
      Wider(Planned(s, number, fallback, now), Allowed(s, Some(owner)), AccountKeys(s, owner));
  }

  lemma AllowedIsOwned(s: Store, owner: nat)
    ensures Allowed(s, Some(owner)) <= AccountKeys(s, owner)
  {}

  lemma Wider(plan: Journey, a: set<string>, b: set<string>)
    requires a <= b
    ensures DialsWithin(plan, a) ==> DialsWithin(plan, b)
  {}

  lemma LegacyIsOwned(s: Store, number: string, extension: string, owner: nat)
    ensures var key := if extension == "" then "" else KeyOn(s, number, extension, Some(owner));
            DialsWithin(Journey(false, if key == "" then [] else [key], "", "", [], false, {}, [], "", []), AccountKeys(s, owner))
  {
    hide Digits;
    ResolvedIsOwned(s.extensions, number, Digits(extension), Some(owner));
  }

  // ---------------------------------------------------------------- desk handling

  /** Applying the same desks' handling again changes nothing. */
  lemma HandledTwice(s: Store, plan: Journey, keys: seq<string>, number: string, owner: Option<nat>)
    ensures var once := Handled(s, plan, keys, number, owner); Handled(s, once, keys, number, owner) == once
  {
    hide HandlingOf, DeskVoicemail, Keep;
    KeepTwice(plan.destinations, HandlingOf(s, keys, owner).disabled);
  }

  lemma {:induction false} KeepTwice(names: seq<string>, disabled: set<string>)
    ensures var p := (k: string) => k !in disabled; Keep(Keep(names, p), p) == Keep(names, p)
  {
    if names != [] {
      var p := (k: string) => k !in disabled;
      KeepTwice(names[1..], disabled);
      var rest := Keep(names[1..], p);
      if p(names[0]) { assert ([names[0]] + rest)[1..] == rest; } else { assert Keep(names, p) == rest; }
    }
  }

  // ---------------------------------------------------------------- menus

  /** Two journeys that differ at most in which of their menu steps are switched on. */
  predicate SameButMenus(a: seq<Node>, b: seq<Node>) {
    |a| == |b| && forall i :: 0 <= i < |a| ==> SameButMenu(a[i], b[i])
  }

  predicate SameButMenu(m: Node, n: Node) { m == n || (m.kind == Menu && n == m.(enabled := n.enabled)) }

  lemma SameStep(m: Node, n: Node, groups: seq<Group>, allowed: set<string>)
    requires SameButMenu(m, n)
    ensures m.kind == n.kind && (IsHours(m) <==> IsHours(n)) && (m.kind != Menu ==> m == n)
    ensures StepRings(m, groups, allowed) == StepRings(n, groups, allowed)
  {
    hide Keep, Members;
  }

  lemma Shorter(a: seq<Node>, b: seq<Node>, from: nat, to: nat)
    requires SameButMenus(a, b) && from <= to <= |a|
    ensures SameButMenus(a[from..to], b[from..to])
  {
    hide SameButMenu;
    forall i | 0 <= i < to - from ensures SameButMenu(a[from..to][i], b[from..to][i]) {
      assert a[from..to][i] == a[from + i] && b[from..to][i] == b[from + i];
    }
  }

  lemma {:induction false} SameHoursAndMenu(a: seq<Node>, b: seq<Node>)
    requires SameButMenus(a, b)
    ensures HoursAt(a) == HoursAt(b) && FirstMenu(a) == FirstMenu(b)
  {
    if a != [] {
      hide IsHours, StepRings;
      SameStep(a[0], b[0], [], {});
      Shorter(a, b, 1, |a|);
      hide SameButMenus;
      assert a[1..] == a[1..|a|] && b[1..] == b[1..|b|];
      SameHoursAndMenu(a[1..], b[1..]);
    }
  }

  lemma {:induction false} SameDevices(s: Store, a: seq<Node>, b: seq<Node>, groups: seq<Group>, allowed: set<string>, number: string, owner: Option<nat>)
    requires SameButMenus(a, b)
    ensures Rung(a, groups, allowed) == Rung(b, groups, allowed) && ForwardIn(a) == ForwardIn(b)
    ensures MailboxIn(s, a, number, owner) == MailboxIn(s, b, number, owner)
  {
    if a != [] {
      hide StepRings, VoicemailKey, IsHours;
      var last := |a| - 1;
      SameStep(a[last], b[last], groups, allowed);
      Shorter(a, b, 0, last);
      hide SameButMenus;
      assert a[0..last] == a[..last] && b[0..last] == b[..last];
      SameDevices(s, a[..last], b[..last], groups, allowed, number, owner);
    }
  }

  lemma SameRinging(a: seq<Node>, b: seq<Node>, now: Moment)
    requires SameButMenus(a, b)
    ensures SameButMenus(Ringing(a, now), Ringing(b, now)) && (ClosedAt(a, now) <==> ClosedAt(b, now)) && (HasRing(a) <==> HasRing(b))
  {
    hide HoursAt, OpenAt;
    SameHoursAndMenu(a, b);
    var h := HoursAt(a);
    if h < |a| {
      assert SameButMenu(a[h], b[h]);
      assert a[h] == b[h];
      Without(a, b, h);
    }
    forall i | 0 <= i < |a| ensures IsRing(a[i]) <==> IsRing(b[i]) { assert SameButMenu(a[i], b[i]); }
  }

  /** The steps around a place stay alike. */
  lemma Without(a: seq<Node>, b: seq<Node>, h: nat)
    requires SameButMenus(a, b) && h < |a|
    ensures SameButMenus(a[..h], b[..h]) && SameButMenus(a[..h] + a[h + 1..], b[..h] + b[h + 1..])
  {
    hide SameButMenu;
    var c, d := a[..h] + a[h + 1..], b[..h] + b[h + 1..];
    forall i | 0 <= i < |c| ensures SameButMenu(c[i], d[i]) {
      var k := if i < h then i else i + 1;
      assert c[i] == a[k] && d[i] == b[k];
    }
  }

  lemma SamePlanOf(s: Store, a: seq<Node>, b: seq<Node>, owner: Option<nat>, extension: string, number: string, now: Moment)
    requires SameButMenus(a, b)
    ensures PlanOf(s, a, owner, extension, number, now) == PlanOf(s, b, owner, extension, number, now)
  {
    hide Allowed, GroupsOf, Unique, Ringing, ClosedAt, HasRing, SameButMenus, MailboxIn, ForwardIn, Rung, Settled;
    SameRinging(a, b, now);
    SameDevices(s, Ringing(a, now), Ringing(b, now), GroupsOf(s.groups, owner), Allowed(s, owner), number, owner);
    SameDevices(s, a, b, [], {}, number, owner);
  }

  lemma SameSteps(s: Store, a: seq<Node>, b: seq<Node>, owner: nat, extension: string)
    requires SameButMenus(a, b)
    ensures SameButMenus(Steps(s, a, owner, extension), Steps(s, b, owner, extension))
  {
    hide DeskFlow, KeepJourney, HasKind;
    forall i | 0 <= i < |a| ensures IsJourneyKind(a[i]) <==> IsJourneyKind(b[i]) { assert SameButMenu(a[i], b[i]); }
  }

  /** Switching menu steps on or off changes nothing in what a stored journey comes to: a disabled menu still answers. */
  lemma MenuSwitchIsIgnored(s: Store, a: seq<Node>, b: seq<Node>, owner: nat, extension: string, number: string, now: Moment)
    requires SameButMenus(a, b)
    ensures StoredPlan(s, a, owner, extension, number, now) == StoredPlan(s, b, owner, extension, number, now)
  {
    hide Steps, ClosedAt, PlanOf, Handled, FirstMenu, Allowed, KeepMappings, SameButMenu;
    var m, n := Steps(s, a, owner, extension), Steps(s, b, owner, extension);
    SameSteps(s, a, b, owner, extension);
    SameHoursAndMenu(m, n);
    SameRinging(m, n, now);
    SamePlanOf(s, m, n, Some(owner), extension, number, now);
    var menu := FirstMenu(m);
    if menu.Some? {
      Without(m, n, menu.value);
      SameChoices(m[menu.value], n[menu.value]);
      SamePlanOf(s, m[..menu.value] + m[menu.value + 1..], n[..menu.value] + n[menu.value + 1..], Some(owner), extension, number, now);
    }
  }

  lemma SameChoices(m: Node, n: Node)
    requires SameButMenu(m, n)
    ensures m.keys == n.keys && m.fallback == n.fallback
  {}
}
