/** Turning a number's stored journey into what the call engine dials. */
module InboundPlan {
  import opened Wrappers
  import opened ExtensionKeys
  import opened Directory
  import opened RouteNodes

  /** A stored flow: its owner, the number or extension it is for, and its steps. */
  datatype Flow = Flow(owner: nat, target: string, nodes: seq<Node>)

  /** The tables a plan reads: number journeys in `routes`, desk flows in `desks`. */
  datatype Store = Store(
    extensions: seq<Extension>, numbers: seq<Number>, groups: seq<Group>, routes: seq<Flow>, desks: seq<Flow>)

  datatype Moment = Moment(day: nat, minute: nat)

  datatype Journey = Journey(
    menu: bool, destinations: seq<string>, voicemail: string, forward: string, fallbacks: seq<string>, closed: bool,
    offered: set<string>, keyMap: seq<Mapping>, fallback: string, fallbackDestinations: seq<string>)

  // ---------------------------------------------------------------- lookups

  predicate OwnedBy(e: Extension, owner: Option<nat>) { owner == None || e.owner == owner }

  /** The active extensions of an account; a number without an account may ring none through its journey. */
  function Allowed(s: Store, owner: Option<nat>): set<string> {
    if owner.None? then {} else set e | e in s.extensions && e.active && e.owner == owner :: e.key
  }

  /** The extension, active or not, that carries these digits on this number. */
  function ResolveIn(rows: seq<Extension>, number: string, digits: string, owner: Option<nat>): Option<string> {
    if rows == [] then None
    else if OwnedBy(rows[0], owner) && rows[0].number == number && rows[0].digits == digits then Some(rows[0].key)
    else ResolveIn(rows[1..], number, digits, owner)
  }

  function KeyOn(s: Store, number: string, value: string, owner: Option<nat>): string {
    if Digits(value) == "" || number == "" then "" else ResolveIn(s.extensions, number, Digits(value), owner).GetOr("")
  }

  /** The extension a voicemail step names on one number. */
  function VoicemailKey(s: Store, number: string, value: string, owner: Option<nat>): string {
    if value == "" || '@' in value || KeyOn(s, number, value, owner) == "" then value else KeyOn(s, number, value, owner)
  }

  function RowOf(rows: seq<Extension>, key: string): Option<Extension> {
    if rows == [] then None else if rows[0].key == key then Some(rows[0]) else RowOf(rows[1..], key)
  }

  function NumberOf(numbers: seq<Number>, number: string): Option<Number> {
    if numbers == [] then None else if numbers[0].number == number then Some(numbers[0]) else NumberOf(numbers[1..], number)
  }

  /** The steps of the first flow for a target that this account (or, without one, anybody) owns. */
  function FlowFor(flows: seq<Flow>, owner: Option<nat>, target: string): Option<seq<Node>> {
    if flows == [] then None
    else if (owner == None || owner == Some(flows[0].owner)) && flows[0].target == target then Some(flows[0].nodes)
    else FlowFor(flows[1..], owner, target)
  }

  function GroupsOf(groups: seq<Group>, owner: Option<nat>): seq<Group> {
    if groups == [] then []
    else (if owner == Some(groups[0].owner) then [groups[0]] else []) + GroupsOf(groups[1..], owner)
  }

  // ---------------------------------------------------------------- the declarative reading of a journey

  predicate IsHours(node: Node) { node.enabled && node.kind == Hours }

  predicate OpenAt(node: Node, now: Moment) {
    (node.days == [] || now.day in node.days) && node.start <= now.minute <= node.end
  }

  /** The place of the first enabled hours step, or the length when there is none. */
  function HoursAt(nodes: seq<Node>): (h: nat)
    ensures h <= |nodes|
    ensures h < |nodes| ==> IsHours(nodes[h])
    ensures forall i :: 0 <= i < h ==> !IsHours(nodes[i])
  {
    if nodes == [] then 0 else if IsHours(nodes[0]) then 0 else 1 + HoursAt(nodes[1..])
  }

  predicate ClosedAt(nodes: seq<Node>, now: Moment) {
    HoursAt(nodes) < |nodes| && !OpenAt(nodes[HoursAt(nodes)], now)
  }

  /** The steps that may ring now: all before the first hours step, and all after it while it is open. */
  function Ringing(nodes: seq<Node>, now: Moment): seq<Node> {
    var h := HoursAt(nodes);
    if h == |nodes| then nodes else if OpenAt(nodes[h], now) then nodes[..h] + nodes[h + 1..] else nodes[..h]
  }

  function StepRings(node: Node, groups: seq<Group>, allowed: set<string>): seq<string> {
    if node.enabled && IsRing(node) then Keep(Members(node, groups), k => k in allowed) else []
  }

  /** Every allowed device the steps name, in order. */
  function Rung(nodes: seq<Node>, groups: seq<Group>, allowed: set<string>): seq<string> {
    if nodes == [] then []
    else Rung(nodes[..|nodes| - 1], groups, allowed) + StepRings(nodes[|nodes| - 1], groups, allowed)
  }

  /** The first mailbox an enabled voicemail step names. */
  function MailboxIn(s: Store, nodes: seq<Node>, number: string, owner: Option<nat>): string {
    if nodes == [] then ""
    else
      var before, last := MailboxIn(s, nodes[..|nodes| - 1], number, owner), nodes[|nodes| - 1];
      if before == "" && last.enabled && last.kind == VoicemailStep then VoicemailKey(s, number, last.mailbox, owner) else before
  }

  /** The first phone an enabled forward step names. */
  function ForwardIn(nodes: seq<Node>): string {
    if nodes == [] then ""
    else
      var before, last := ForwardIn(nodes[..|nodes| - 1]), nodes[|nodes| - 1];
      if before == "" && last.enabled && last.kind == ForwardStep then last.phone else before
  }

  predicate HasRing(nodes: seq<Node>) { exists i :: 0 <= i < |nodes| && IsRing(nodes[i]) }

  /** What the steps come to: the devices to ring, and what follows when nobody answers. */
  function PlanOf(s: Store, nodes: seq<Node>, owner: Option<nat>, extension: string, number: string, now: Moment): Journey {
    var allowed := Allowed(s, owner);
    var devices := Unique(Rung(Ringing(nodes, now), GroupsOf(s.groups, owner), allowed));
    Settled(devices, MailboxIn(s, nodes, number, owner), ForwardIn(nodes), ClosedAt(nodes, now), HasRing(nodes), extension, allowed)
  }

  /** A journey that names no device, mailbox or phone and has no ring step at all rings the number's own extension while open. */
  function Settled(
    devices: seq<string>, voicemail: string, forward: string, closed: bool, hasRing: bool, extension: string, allowed: set<string>): Journey
  {
    var silent := devices == [] && voicemail == "" && forward == "" && extension != "" && !hasRing && !closed;
    Journey(false, if silent && extension in allowed then [extension] else devices, voicemail, forward, [], closed, {}, [], "", [])
  }

  // ---------------------------------------------------------------- the planner's loop

  lemma {:induction false} HoursOfPrefix(nodes: seq<Node>, i: nat)
    requires i < |nodes|
    ensures HoursAt(nodes[..i + 1]) ==
            if HoursAt(nodes[..i]) < i then HoursAt(nodes[..i]) else if IsHours(nodes[i]) then i else i + 1
  {
    var longer, shorter := nodes[..i + 1], nodes[..i];
    var g := HoursAt(shorter);
    assert forall k :: 0 <= k < i ==> longer[k] == shorter[k];
    FirstHours(longer, if g < i then g else if IsHours(nodes[i]) then i else i + 1);
  }

  /** The first hours step is the only place with that description. */
  lemma FirstHours(nodes: seq<Node>, h: nat)
    requires h <= |nodes| && (h < |nodes| ==> IsHours(nodes[h])) && forall k :: 0 <= k < h ==> !IsHours(nodes[k])
    ensures HoursAt(nodes) == h
  {
    hide IsHours;
  }

  /** One more step of the list: what may ring now grows by it unless it is past closed hours. */
  lemma RingingStep(nodes: seq<Node>, i: nat, now: Moment)
    requires i < |nodes|
    ensures var before, next := Ringing(nodes[..i], now), Ringing(nodes[..i + 1], now);
            if HoursAt(nodes[..i]) < i
            then next == (if ClosedAt(nodes[..i], now) then before else before + [nodes[i]])
            else before == nodes[..i] && (if IsHours(nodes[i]) then next == before else next == before + [nodes[i]])
    ensures ClosedAt(nodes[..i + 1], now) <==>
            if HoursAt(nodes[..i]) < i then ClosedAt(nodes[..i], now) else IsHours(nodes[i]) && !OpenAt(nodes[i], now)
  {
    HoursOfPrefix(nodes, i);
    var longer, shorter := nodes[..i + 1], nodes[..i];
    var g := HoursAt(shorter);
    assert longer == shorter + [nodes[i]];
    if g < i {
      assert longer[..g] == shorter[..g] && longer[g + 1..] == shorter[g + 1..] + [nodes[i]];
    } else {
      assert shorter[..g] == shorter && longer[..i] == shorter && longer[i + 1..] == [];
    }
  }

  lemma RungStep(nodes: seq<Node>, node: Node, groups: seq<Group>, allowed: set<string>)
    ensures Rung(nodes + [node], groups, allowed) == Rung(nodes, groups, allowed) + StepRings(node, groups, allowed)
  {
    assert (nodes + [node])[..|nodes|] == nodes;
  }

  lemma NothingYet(now: Moment)
    ensures Ringing([], now) == [] && !ClosedAt([], now) && HoursAt([]) == 0
  {}

  /** The loop over the steps, carrying what it has seen so far. */
  method PlanNodes(s: Store, nodes: seq<Node>, owner: Option<nat>, extension: string, number: string, now: Moment) returns (plan: Journey)
    ensures plan == PlanOf(s, nodes, owner, extension, number, now)
  {
    hide Allowed, GroupsOf, Unique, StepRings, HoursAt, VoicemailKey, Ringing, ClosedAt, OpenAt, HasRing, Settled;
    NothingYet(now);
    var allowed, groups := Allowed(s, owner), GroupsOf(s.groups, owner);
    var seenHours, openNow := false, false;
    var destinations: seq<string> := [];
    var voicemail, forward := "", "";
    for i := 0 to |nodes|
      invariant seenHours <==> HoursAt(nodes[..i]) < i
      invariant ClosedAt(nodes[..i], now) <==> seenHours && !openNow
      invariant destinations == Rung(Ringing(nodes[..i], now), groups, allowed)
      invariant voicemail == MailboxIn(s, nodes[..i], number, owner)
      invariant forward == ForwardIn(nodes[..i])
    {
      var node := nodes[i];
      HoursOfPrefix(nodes, i);
      RingingStep(nodes, i, now);
      RungStep(Ringing(nodes[..i], now), node, groups, allowed);
      assert nodes[..i + 1][..i] == nodes[..i] && nodes[..i + 1][i] == node;
      if IsHours(node) && !seenHours {
        seenHours, openNow := true, OpenAt(node, now);
      } else {
        if !seenHours || openNow { destinations := destinations + StepRings(node, groups, allowed); }
        if node.enabled && node.kind == VoicemailStep && voicemail == "" { voicemail := VoicemailKey(s, number, node.mailbox, owner); }
        if node.enabled && node.kind == ForwardStep && forward == "" { forward := node.phone; }
      }
    }
    assert nodes[..|nodes|] == nodes;
    plan := Settled(Unique(destinations), voicemail, forward, seenHours && !openNow, HasRing(nodes), extension, allowed);
  }

  // ---------------------------------------------------------------- desk handling

  /** What one desk's own flow says. */
  function DeskFlow(s: Store, owner: Option<nat>, key: string): seq<Node> { FlowFor(s.desks, owner, key).GetOr([]) }

  /** The desk's own step switches its ringing off. */
  predicate SwitchedOff(nodes: seq<Node>, key: string) {
    exists i :: 0 <= i < |nodes| && nodes[i].kind == Desk && nodes[i].extension == key && !nodes[i].ringEnabled
  }

  /** The other desks a flow hands an unanswered call to, in order. */
  function Others(nodes: seq<Node>, key: string): seq<string> {
    if nodes == [] then []
    else
      var last := nodes[|nodes| - 1];
      Others(nodes[..|nodes| - 1], key) +
      if last.kind == Desk && last.extension != key && last.extension != "" then [last.extension] else []
  }

  function FirstPhone(nodes: seq<Node>): string {
    if nodes == [] then ""
    else
      var before, last := FirstPhone(nodes[..|nodes| - 1]), nodes[|nodes| - 1];
      if before == "" && last.kind == ForwardStep then last.phone else before
  }

  datatype Handling = Handling(fallbacks: seq<string>, disabled: set<string>, forward: string)

  function AllOthers(s: Store, keys: seq<string>, owner: Option<nat>): seq<string> {
    if keys == [] then []
    else AllOthers(s, keys[..|keys| - 1], owner) + Others(DeskFlow(s, owner, keys[|keys| - 1]), keys[|keys| - 1])
  }

  function PhoneOfAll(s: Store, keys: seq<string>, owner: Option<nat>): string {
    if keys == [] then ""
    else
      var before := PhoneOfAll(s, keys[..|keys| - 1], owner);
      if before != "" then before else FirstPhone(DeskFlow(s, owner, keys[|keys| - 1]))
  }

  /** What the rung desks ask for: the other desks they name, those that do not ring, and the first phone. */
  function HandlingOf(s: Store, keys: seq<string>, owner: Option<nat>): Handling {
    Handling(
      Unique(Keep(AllOthers(s, keys, owner), k => k in Allowed(s, owner) && k !in keys)),
      (set k | k in keys && SwitchedOff(DeskFlow(s, owner, k), k)),
      PhoneOfAll(s, keys, owner))
  }

  /** A desk's policy follows it onto the line: its ringing, its fallbacks, and its ending when the journey has none. */
  function Handled(s: Store, plan: Journey, keys: seq<string>, number: string, owner: Option<nat>): Journey {
    var handling, first := HandlingOf(s, keys, owner), HandlingOf(s, if keys == [] then [] else [keys[0]], owner);
    var ringing := plan.(destinations := Keep(plan.destinations, k => k !in handling.disabled), fallbacks := first.fallbacks);
    if plan.voicemail != "" || plan.forward != "" then ringing
    else
      var voicemail := if keys == [] then "" else DeskVoicemail(s, number, keys[0], owner);
      if voicemail != "" then ringing.(voicemail := voicemail) else ringing.(voicemail := "", forward := first.forward)
  }

  /** The first own step of a desk that states a no-answer policy. */
  function PolicyOf(nodes: seq<Node>, key: string): Option<string> {
    if nodes == [] then None
    else if nodes[0].kind == Desk && nodes[0].extension == key && nodes[0].noAnswer.Some? then nodes[0].noAnswer
    else PolicyOf(nodes[1..], key)
  }

  /** The first enabled voicemail step's mailbox. */
  function FirstVoicemail(nodes: seq<Node>): Option<string> {
    if nodes == [] then None
    else if nodes[0].kind == VoicemailStep && nodes[0].enabled then Some(nodes[0].mailbox)
    else FirstVoicemail(nodes[1..])
  }

  /** The mailbox of the desk the line answers with, when the journey is silent. */
  function DeskVoicemail(s: Store, number: string, extension: string, owner: Option<nat>): string {
    var key := if extension == "" || '@' in extension || number == "" then extension else KeyOn(s, number, extension, owner);
    if key == "" then ""
    else
      var nodes := DeskFlow(s, owner, key);
      var policy := PolicyOf(nodes, key);
      if policy.Some? && policy != Some("voicemail") then ""
      else match FirstVoicemail(nodes)
        case Some(mailbox) => VoicemailKey(s, number, if mailbox == "" then key else mailbox, owner)
        case None =>
          var row := RowOf(s.extensions, key);
          if row.Some? && row.value.voicemail && policy.None? then key else ""
  }

  // ---------------------------------------------------------------- the whole plan

  function FirstMenu(nodes: seq<Node>): (r: Option<nat>)
    ensures r.Some? ==> r.value < |nodes| && nodes[r.value].kind == Menu
    ensures r.None? ==> forall i :: 0 <= i < |nodes| ==> nodes[i].kind != Menu
  {
    if nodes == [] then None
    else if nodes[0].kind == Menu then Some(0)
    else match FirstMenu(nodes[1..])
      case Some(i) => Some(i + 1)
      case None => None
  }

  function KeepMappings(keys: seq<Mapping>, allowed: set<string>): seq<Mapping> {
    if keys == [] then []
    else (if keys[0].target in allowed then [keys[0]] else []) + KeepMappings(keys[1..], allowed)
  }

  /** The menu's own plan: what it offers, and the rest of the journey for a caller who chooses nothing. */
  function MenuPlan(s: Store, node: Node, rest: seq<Node>, owner: Option<nat>, extension: string, number: string, now: Moment): Journey {
    var active := Allowed(s, owner);
    var here := if number == "" then active else set e | e in s.extensions && e.active && e.owner == owner && e.number == number :: e.key;
    var tail := PlanOf(s, rest, owner, extension, number, now);
    tail.(menu := true, destinations := [], offered := active * here, keyMap := KeepMappings(node.keys, active),
          fallback := if node.fallback in active then node.fallback else "", fallbackDestinations := tail.destinations)
  }

  predicate IsJourneyKind(node: Node) {
    node.kind == Menu || node.kind == Hours || node.kind == VoicemailStep || node.kind == ForwardStep
  }

  function KeepJourney(nodes: seq<Node>): seq<Node> {
    if nodes == [] then [] else (if IsJourneyKind(nodes[0]) then [nodes[0]] else []) + KeepJourney(nodes[1..])
  }

  predicate HasKind(nodes: seq<Node>, a: Kind, b: Kind) {
    exists i :: 0 <= i < |nodes| && (nodes[i].kind == a || nodes[i].kind == b)
  }

  /** A silent number journey borrows the menu and hours that its answering desk's flow still holds. */
  function Steps(s: Store, nodes: seq<Node>, owner: nat, extension: string): seq<Node> {
    var desk := DeskFlow(s, Some(owner), extension);
    if extension != "" && (forall i :: 0 <= i < |nodes| ==> !IsJourneyKind(nodes[i])) && HasKind(desk, Menu, Hours)
    then KeepJourney(desk) + nodes else nodes
  }

  /** What a stored journey comes to: its menu while open, or else its devices with their desks' handling. */
  function StoredPlan(s: Store, stored: seq<Node>, owner: nat, extension: string, number: string, now: Moment): Journey {
    var nodes := Steps(s, stored, owner, extension);
    var menu := FirstMenu(nodes);
    if menu.Some? && !ClosedAt(nodes, now)
    then MenuPlan(s, nodes[menu.value], nodes[..menu.value] + nodes[menu.value + 1..], Some(owner), extension, number, now)
    else
      var plan := PlanOf(s, nodes, Some(owner), extension, number, now);
      Handled(s, plan, plan.destinations, number, Some(owner))
  }

  /** What happens when a number is called. */
  function Planned(s: Store, number: string, fallback: string, now: Moment): Journey {
    var row := NumberOf(s.numbers, number);
    var owner := if row.Some? then row.value.owner else None;
    var extension := if row.Some? && row.value.inbound != "" then row.value.inbound else fallback;
    var flow := if owner.Some? then FlowFor(s.routes, owner, number) else None;
    match flow
    case None =>
      var key := if extension == "" then "" else KeyOn(s, number, extension, owner);
      var keys := if key == "" then [] else [key];
      Handled(s, Journey(false, keys, "", "", [], false, {}, [], "", []), keys, number, owner)
    case Some(stored) => StoredPlan(s, stored, owner.value, extension, number, now)
  }

  // ---------------------------------------------------------------- the loops over desks and flows

  /** The devices of a list that may stand in for the rung ones. */
  function Eligible(names: seq<string>, allowed: set<string>, keys: seq<string>): seq<string> {
    Unique(Keep(names, k => k in allowed && k !in keys))
  }

  lemma EligibleStep(names: seq<string>, value: string, allowed: set<string>, keys: seq<string>)
    ensures Eligible(names + [value], allowed, keys) ==
            if value in allowed && value !in keys && value !in Eligible(names, allowed, keys)
            then Eligible(names, allowed, keys) + [value] else Eligible(names, allowed, keys)
  {
    var p := k => k in allowed && k !in keys;
    KeepTogether(names, [value], p);
    assert Keep([value], p) == if p(value) then [value] else [];
    if p(value) {
      assert (Keep(names, p) + [value])[..|Keep(names, p)|] == Keep(names, p);
    } else {
      assert Keep(names, p) + [] == Keep(names, p);
    }
  }

  /** The loop over the rung desks and the steps of each desk's flow. */
  method DeskHandling(s: Store, keys: seq<string>, owner: Option<nat>) returns (handling: Handling)
    ensures handling == HandlingOf(s, keys, owner)
  {
    hide Unique, Keep, Allowed, FlowFor;
    var allowed := Allowed(s, owner);
    var fallbacks, forward := Eligible([], allowed, keys), "";
    var disabled: set<string> := {};
    for i := 0 to |keys|
      invariant fallbacks == Eligible(AllOthers(s, keys[..i], owner), allowed, keys)
      invariant disabled == set k | k in keys[..i] && SwitchedOff(DeskFlow(s, owner, k), k)
      invariant forward == PhoneOfAll(s, keys[..i], owner)
    {
      var key := keys[i];
      assert keys[..i + 1][..i] == keys[..i] && keys[..i + 1][i] == key && keys[..i + 1] == keys[..i] + [key];
      var off: bool;
      fallbacks, off, forward := ReadDesk(s, keys, key, owner, AllOthers(s, keys[..i], owner), fallbacks, forward);
      if off { disabled := disabled + {key}; }
    }
    assert keys[..|keys|] == keys;
    handling := Handling(fallbacks, disabled, forward);
  }

  lemma OthersNone(key: string)
    ensures Others([], key) == []
  {}

  lemma OthersStep(nodes: seq<Node>, node: Node, key: string)
    ensures Others(nodes + [node], key) ==
            if node.kind == Desk && node.extension != key && node.extension != "" then Others(nodes, key) + [node.extension] else Others(nodes, key)
  {
    assert (nodes + [node])[..|nodes|] == nodes;
  }

  method ReadDesk(
    s: Store, keys: seq<string>, key: string, owner: Option<nat>, ghost named: seq<string>, before: seq<string>, phone: string
  ) returns (fallbacks: seq<string>, off: bool, forward: string)
    requires before == Eligible(named, Allowed(s, owner), keys)
    ensures fallbacks == Eligible(named + Others(DeskFlow(s, owner, key), key), Allowed(s, owner), keys)
    ensures off <==> SwitchedOff(DeskFlow(s, owner, key), key)
    ensures forward == if phone != "" then phone else FirstPhone(DeskFlow(s, owner, key))
  {
    hide Unique, Keep, Allowed, FlowFor, Eligible, DeskFlow, Others;
    assert Others([], key) == [] by { OthersNone(key); }
    var nodes, allowed := DeskFlow(s, owner, key), Allowed(s, owner);
    fallbacks, off, forward := before, false, phone;
    assert named + [] == named;
    for j := 0 to |nodes|
      invariant fallbacks == Eligible(named + Others(nodes[..j], key), allowed, keys)
      invariant off <==> SwitchedOff(nodes[..j], key)
      invariant forward == if phone != "" then phone else FirstPhone(nodes[..j])
    {
      var node := nodes[j];
      assert nodes[..j + 1][..j] == nodes[..j] && nodes[..j + 1][j] == node && nodes[..j + 1] == nodes[..j] + [node];
      OthersStep(nodes[..j], node, key);
      if node.kind == Desk && node.extension == key {
        if !node.ringEnabled { off := true; }
      } else if node.kind == Desk && node.extension != "" {
        EligibleStep(named + Others(nodes[..j], key), node.extension, allowed, keys);
        assert named + (Others(nodes[..j], key) + [node.extension]) == named + Others(nodes[..j], key) + [node.extension];
        if node.extension in allowed && node.extension !in fallbacks && node.extension !in keys { fallbacks := fallbacks + [node.extension]; }
      } else if node.kind == ForwardStep && forward == "" {
        forward := node.phone;
      }
    }
    assert nodes[..|nodes|] == nodes;
  }
}
