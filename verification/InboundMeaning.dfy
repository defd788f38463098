/** What a planned call does, read from the stored rows and steps. */
module InboundMeaning {
  import opened Wrappers
  import opened ExtensionKeys
  import opened Directory
  import opened RouteNodes
  import opened InboundPlan
  import opened DeskLaws

  // ---------------------------------------------------------------- hours

  /** An hours step is open from its first minute through its last, on the days it names, or on every day when it names none. */
  lemma HoursMean(node: Node, now: Moment)
    ensures node.days == [] ==> (OpenAt(node, now) <==> node.start <= now.minute <= node.end)
    ensures node.days != [] ==>
              (OpenAt(node, now) <==> node.start <= now.minute <= node.end && exists i :: 0 <= i < |node.days| && node.days[i] == now.day)
  {}

  /** Only the first hours step that is switched on decides, and a journey without one is never closed. */
  lemma ClosedMeans(nodes: seq<Node>, now: Moment)
    ensures ClosedAt(nodes, now) <==>
              exists i :: 0 <= i < |nodes| && nodes[i].kind == Hours && nodes[i].enabled && !OpenAt(nodes[i], now)
                          && forall j :: 0 <= j < i ==> !(nodes[j].kind == Hours && nodes[j].enabled)
  {
    hide OpenAt;
    if i :| 0 <= i < |nodes| && nodes[i].kind == Hours && nodes[i].enabled && !OpenAt(nodes[i], now)
            && forall j :: 0 <= j < i ==> !(nodes[j].kind == Hours && nodes[j].enabled) {
      FirstHours(nodes, i);
    }
  }

  // ---------------------------------------------------------------- what the steps come to

  /** The first enabled voicemail step that names a mailbox names this one. */
  predicate FirstMailbox(s: Store, nodes: seq<Node>, number: string, owner: Option<nat>, v: string) {
    if v == "" then forall i :: 0 <= i < |nodes| && TakesMessages(nodes[i]) ==> VoicemailKey(s, number, nodes[i].mailbox, owner) == ""
    else exists i :: 0 <= i < |nodes| && TakesMessages(nodes[i]) && VoicemailKey(s, number, nodes[i].mailbox, owner) == v
                     && forall j :: 0 <= j < i && TakesMessages(nodes[j]) ==> VoicemailKey(s, number, nodes[j].mailbox, owner) == ""
  }

  lemma {:induction false} MailboxInIs(s: Store, nodes: seq<Node>, number: string, owner: Option<nat>)
    ensures FirstMailbox(s, nodes, number, owner, MailboxIn(s, nodes, number, owner))
  {
    hide VoicemailKey;
    if nodes != [] {
      var shorter, last := nodes[..|nodes| - 1], |nodes| - 1;
      MailboxInIs(s, shorter, number, owner);
      assert forall j :: 0 <= j < last ==> nodes[j] == shorter[j];
      var v := MailboxIn(s, shorter, number, owner);
      if v != "" {
        var i :| 0 <= i < |shorter| && TakesMessages(shorter[i]) && VoicemailKey(s, number, shorter[i].mailbox, owner) == v
                 && forall j :: 0 <= j < i && TakesMessages(shorter[j]) ==> VoicemailKey(s, number, shorter[j].mailbox, owner) == "";
        assert TakesMessages(nodes[i]);
      } else {
        assert forall j :: 0 <= j < last && TakesMessages(nodes[j]) ==> VoicemailKey(s, number, nodes[j].mailbox, owner) == "";
        if TakesMessages(nodes[last]) && VoicemailKey(s, number, nodes[last].mailbox, owner) != "" {}
      }
    }
  }

  /** The first enabled forward step that has a phone has this one. */
  predicate FirstOut(nodes: seq<Node>, phone: string) {
    if phone == "" then forall i :: 0 <= i < |nodes| && nodes[i].kind == ForwardStep && nodes[i].enabled ==> nodes[i].phone == ""
    else exists i :: 0 <= i < |nodes| && nodes[i].kind == ForwardStep && nodes[i].enabled && nodes[i].phone == phone
                     && forall j :: 0 <= j < i && nodes[j].kind == ForwardStep && nodes[j].enabled ==> nodes[j].phone == ""
  }

  lemma {:induction false} ForwardInIs(nodes: seq<Node>)
    ensures FirstOut(nodes, ForwardIn(nodes))
  {
    if nodes != [] {
      var shorter, last := nodes[..|nodes| - 1], |nodes| - 1;
      ForwardInIs(shorter);
      assert forall j :: 0 <= j < last ==> nodes[j] == shorter[j];
      var phone := ForwardIn(shorter);
      if phone != "" {
        var i :| 0 <= i < |shorter| && shorter[i].kind == ForwardStep && shorter[i].enabled && shorter[i].phone == phone
                 && forall j :: 0 <= j < i && shorter[j].kind == ForwardStep && shorter[j].enabled ==> shorter[j].phone == "";
        assert nodes[i].phone == phone;
      } else {
        assert forall j :: 0 <= j < last && nodes[j].kind == ForwardStep && nodes[j].enabled ==> nodes[j].phone == "";
        if nodes[last].kind == ForwardStep && nodes[last].enabled && nodes[last].phone != "" {}
      }
    }
  }

  /** What an open or closed journey without a menu comes to, before its desks are asked. */
  lemma StepsMean(s: Store, nodes: seq<Node>, owner: Option<nat>, extension: string, number: string, now: Moment)
    ensures var t := PlanOf(s, nodes, owner, extension, number, now);
            var devices := Unique(Rung(Ringing(nodes, now), GroupsOf(s.groups, owner), Allowed(s, owner)));
            && !t.menu && t.fallbacks == [] && (t.closed <==> ClosedAt(nodes, now))
            && FirstMailbox(s, nodes, number, owner, t.voicemail) && FirstOut(nodes, t.forward)
            && (devices != [] ==> t.destinations == devices)
            && (devices == [] ==>
                  t.destinations == if t.voicemail == "" && t.forward == "" && !t.closed && (forall i :: 0 <= i < |nodes| ==> !IsRing(nodes[i]))
                                       && MayRing(s, owner, extension) && extension != ""
                                    then [extension] else [])
  {
    hide Ringing, Rung, Unique, GroupsOf, ClosedAt, FirstMailbox, FirstOut, MailboxIn, ForwardIn, IsRing;
    MailboxInIs(s, nodes, number, owner);
    ForwardInIs(nodes);
  }

  // ---------------------------------------------------------------- borrowed steps

  lemma {:induction false} KeepJourneyLeaves(nodes: seq<Node>)
    ensures KeepJourney(nodes) == JourneySteps(nodes, |nodes|)
    ensures forall n :: n in KeepJourney(nodes) <==> n in nodes && IsJourneyKind(n)
  {
    if nodes != [] {
      KeepJourneyLeaves(nodes[1..]);
      assert nodes == [nodes[0]] + nodes[1..];
      JourneyStepsShift(nodes, |nodes|);
    }
  }

  /** The menu, hours, voicemail and forward steps among the first `k`, in their order. */
  function JourneySteps(nodes: seq<Node>, k: nat): seq<Node>
    requires k <= |nodes|
  {
    if k == 0 then []
    else JourneySteps(nodes, k - 1) + (if nodes[k - 1].kind in {Menu, Hours, VoicemailStep, ForwardStep} then [nodes[k - 1]] else [])
  }

  lemma {:induction false} JourneyStepsShift(nodes: seq<Node>, k: nat)
    requires 0 < k <= |nodes|
    ensures JourneySteps(nodes, k) == (if IsJourneyKind(nodes[0]) then [nodes[0]] else []) + JourneySteps(nodes[1..], k - 1)
  {
    if k > 1 {
      JourneyStepsShift(nodes, k - 1);
      assert nodes[1..][k - 2] == nodes[k - 1];
    } else {
      assert JourneySteps(nodes, 0) == [];
    }
  }

  /**
   * A number whose own journey has no menu, hours, voicemail or forward step borrows those of the desk it answers
   * with, in front of its own steps, when that desk's flow has a menu or hours; any other keeps its own alone.
   */
  lemma BorrowedMean(s: Store, stored: seq<Node>, owner: nat, extension: string)
    ensures var desk, nodes := DeskFlow(s, Some(owner), extension), Steps(s, stored, owner, extension);
            var borrows := extension != "" && (forall n :: n in stored ==> n.kind !in {Menu, Hours, VoicemailStep, ForwardStep})
                           && exists n :: n in desk && (n.kind == Menu || n.kind == Hours);
            nodes == if borrows then JourneySteps(desk, |desk|) + stored else stored
  {
    hide DeskFlow;
    KeepJourneyLeaves(DeskFlow(s, Some(owner), extension));
    var desk := DeskFlow(s, Some(owner), extension);
    assert (exists n :: n in desk && (n.kind == Menu || n.kind == Hours)) <==> HasKind(desk, Menu, Hours);
    assert (forall n :: n in stored ==> n.kind !in {Menu, Hours, VoicemailStep, ForwardStep}) <==> (forall i :: 0 <= i < |stored| ==> !IsJourneyKind(stored[i]));
  }

  // ---------------------------------------------------------------- menus

  /** The mappings whose targets may ring, in their order. */
  predicate KeptMappings(kept: seq<Mapping>, keys: seq<Mapping>, s: Store, owner: Option<nat>) {
    if keys == [] then kept == []
    else if MayRing(s, owner, keys[0].target) then kept != [] && kept[0] == keys[0] && KeptMappings(kept[1..], keys[1..], s, owner)
    else KeptMappings(kept, keys[1..], s, owner)
  }

  lemma {:induction false} MappingsAreKept(keys: seq<Mapping>, s: Store, owner: Option<nat>)
    ensures KeptMappings(KeepMappings(keys, Allowed(s, owner)), keys, s, owner)
  {
    if keys != [] {
      MappingsAreKept(keys[1..], s, owner);
      AllowedIs(s, owner, keys[0].target);
      hide Allowed, MayRing;
      var rest := KeepMappings(keys[1..], Allowed(s, owner));
      assert ([keys[0]] + rest)[1..] == rest && [] + rest == rest;
    }
  }

  /**
   * A number answers with a menu exactly when its steps have one and it is open. The menu rings nobody by itself;
   * it offers the active extensions of the account on this very number, maps keys only to extensions that may
   * ring, and falls back only to one that may; a caller who chooses nothing gets what the other steps come to.
   */
  lemma MenuMeans(s: Store, stored: seq<Node>, owner: nat, extension: string, number: string, now: Moment)
    ensures var nodes, t := Steps(s, stored, owner, extension), StoredPlan(s, stored, owner, extension, number, now);
            && (t.menu <==> (exists i :: 0 <= i < |nodes| && nodes[i].kind == Menu) && !ClosedAt(nodes, now))
            && (t.menu ==>
                 exists i :: 0 <= i < |nodes| && nodes[i].kind == Menu && (forall j :: 0 <= j < i ==> nodes[j].kind != Menu)
                   && var rest := PlanOf(s, nodes[..i] + nodes[i + 1..], Some(owner), extension, number, now);
                   && t.destinations == [] && t.fallbackDestinations == rest.destinations
                   && t.voicemail == rest.voicemail && t.forward == rest.forward && t.closed == rest.closed && t.fallbacks == []
                   && KeptMappings(t.keyMap, nodes[i].keys, s, Some(owner))
                   && t.fallback == (if MayRing(s, Some(owner), nodes[i].fallback) then nodes[i].fallback else "")
                   && forall key :: key in t.offered <==>
                        exists e :: e in s.extensions && e.active && e.owner == Some(owner) && e.key == key && (number == "" || OfferedHere(s, owner, number, key)))
  {
    hide Steps, ClosedAt, HandlingOf, DeskVoicemail, Keep, Unique, Rung, Ringing, GroupsOf, HasRing, MailboxIn, ForwardIn, KeepMappings, KeptMappings;
    var nodes := Steps(s, stored, owner, extension);
    FirstMenuIs(nodes);
    if FirstMenu(nodes).Some? {
      var i := FirstMenu(nodes).value;
      MappingsAreKept(nodes[i].keys, s, Some(owner));
      AllowedIs(s, Some(owner), nodes[i].fallback);
    }
  }

  /** An active extension of the account with this key is on the number. */
  predicate OfferedHere(s: Store, owner: nat, number: string, key: string) {
    exists e :: e in s.extensions && e.active && e.owner == Some(owner) && e.number == number && e.key == key
  }

  lemma {:induction false} FirstMenuIs(nodes: seq<Node>)
    ensures FirstMenu(nodes).Some? ==> forall j :: 0 <= j < FirstMenu(nodes).value ==> nodes[j].kind != Menu
  {
    if nodes != [] && nodes[0].kind != Menu {
      FirstMenuIs(nodes[1..]);
      if FirstMenu(nodes).Some? {
        forall j | 0 <= j < FirstMenu(nodes).value ensures nodes[j].kind != Menu { if j > 0 { assert nodes[j] == nodes[1..][j - 1]; } }
      }
    }
  }

  // ---------------------------------------------------------------- the whole plan

  /**
   * A number without a stored journey rings the extension its own link names on it, or the fallback when it has no
   * link, under that desk's handling; a number with one follows it, and a journey without an open menu is handled
   * by the desks it rings.
   */
  lemma PlannedMeans(s: Store, number: string, fallback: string, now: Moment)
    requires NumberOf(s.numbers, number).Some?
    ensures var row, t := NumberOf(s.numbers, number).value, Planned(s, number, fallback, now);
            var link := if row.inbound != "" then row.inbound else fallback;
            match (if row.owner.Some? then FlowFor(s.routes, row.owner, number) else None)
            case None =>
              var key := KeyOn(s, number, link, row.owner);
              var ringing := if link == "" || key == "" then [] else [key];
              t == Handled(s, Journey(false, ringing, "", "", [], false, {}, [], "", []), ringing, number, row.owner)
            case Some(stored) =>
              var nodes := Steps(s, stored, row.owner.value, link);
              t == StoredPlan(s, stored, row.owner.value, link, number, now)
              && (!t.menu ==> var plain := PlanOf(s, nodes, row.owner, link, number, now); t == Handled(s, plain, plain.destinations, number, row.owner))
  {
    hide Handled, PlanOf, Steps, ClosedAt, FlowFor, KeyOn;
  }
}
