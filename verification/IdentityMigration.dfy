/** Moving extensions that only carry digits onto the phone numbers they answer for. */
module IdentityMigration {
  import opened Wrappers
  import opened ExtensionKeys

  /** A phone number as the migration reads it. */
  datatype Line = Line(id: nat, number: string, owner: Option<nat>, inbound: string, main: bool)

  /** An extension row before the migration: its key, and the line it may already be on. */
  datatype Row = Row(id: nat, extension: string, line: Option<nat>, owner: Option<nat>)

  /** A row with its new identity: its digits, and the line they answer on. */
  datatype Item = Item(id: nat, digits: string, line: Option<nat>, owner: Option<nat>)

  function ByNumber(lines: seq<Line>, number: string): Option<nat> {
    if lines == [] then None
    else if lines[|lines| - 1].number == number then Some(lines[|lines| - 1].id)
    else ByNumber(lines[..|lines| - 1], number)
  }

  predicate HasId(lines: seq<Line>, id: nat) { exists l :: l in lines && l.id == id }

  /** What a row already says: the line its key names, else the line it is on, else none. */
  function Known(row: Row, lines: seq<Line>): Item {
    var digits, scope := Digits(row.extension), Scope(row.extension);
    var named := if scope == "" then None else ByNumber(lines, scope);
    Item(row.id, digits,
         if named.Some? then named else if row.line.Some? && HasId(lines, row.line.value) then row.line else None,
         row.owner)
  }

  function AllKnown(rows: seq<Row>, lines: seq<Line>): (r: seq<Item>)
    ensures |r| == |rows|
    ensures forall i :: 0 <= i < |r| ==> r[i] == Known(rows[i], lines)
  {
    seq(|rows|, i requires 0 <= i < |rows| => Known(rows[i], lines))
  }

  /** The account's own lines whose link names these digits, in order. */
  function Linked(lines: seq<Line>, owner: Option<nat>, digits: string): seq<nat> {
    if lines == [] then []
    else (if lines[0].owner == owner && Digits(lines[0].inbound) == digits then [lines[0].id] else []) + Linked(lines[1..], owner, digits)
  }

  function FirstOwn(lines: seq<Line>, owner: Option<nat>, mainOnly: bool): Option<nat> {
    if lines == [] then None
    else if lines[0].owner == owner && (mainOnly ==> lines[0].main) then Some(lines[0].id)
    else FirstOwn(lines[1..], owner, mainOnly)
  }

  /** The account's main line: the one marked so, else its first. */
  function MainLine(lines: seq<Line>, owner: Option<nat>): Option<nat> {
    if FirstOwn(lines, owner, true).Some? then FirstOwn(lines, owner, true) else FirstOwn(lines, owner, false)
  }

  /** The lines tried for a row, in order. */
  function Targets(lines: seq<Line>, item: Item): seq<nat> {
    Linked(lines, item.owner, item.digits) +
    match MainLine(lines, item.owner)
    case Some(id) => [id]
    case None => []
  }

  /** A customer's row with digits and no line yet: the migration looks for a place for it. */
  predicate Homeless(item: Item) { item.digits != "" && item.line.None? && item.owner.Some? }

  datatype Slot = Slot(line: nat, digits: string)

  /** Row `j` answers these digits on this line. */
  predicate Holds(plan: seq<Item>, j: int, slot: Slot) {
    0 <= j < |plan| && plan[j].digits != "" && plan[j].line == Some(slot.line) && plan[j].digits == slot.digits
  }

  /** No two rows answer the same digits on the same line. */
  ghost predicate SlotsDistinct(plan: seq<Item>) {
    forall i, j, slot :: Holds(plan, i, slot) && Holds(plan, j, slot) ==> i == j
  }

  /** Nothing but the line of a homeless row may have changed. */
  ghost predicate SameRows(before: seq<Item>, after: seq<Item>) {
    && |after| == |before|
    && forall i :: 0 <= i < |before| ==>
         after[i] == before[i].(line := after[i].line) && (!Homeless(before[i]) ==> after[i] == before[i])
  }

  /** Every other line this row could have gone to holds its digits for another row. */
  ghost predicate CrowdedOut(plan: seq<Item>, lines: seq<Line>, i: nat)
    requires i < |plan|
  {
    forall k :: 0 <= k < |Targets(lines, plan[i])| ==> HeldByAnother(plan, i, Slot(Targets(lines, plan[i])[k], plan[i].digits))
  }

  ghost predicate HeldByAnother(plan: seq<Item>, i: int, slot: Slot) { exists j :: j != i && Holds(plan, j, slot) }

  /** The row is on the first of the lines tried for it that no other row holds its digits on. */
  ghost predicate TookTheFirst(plan: seq<Item>, lines: seq<Line>, i: nat)
    requires i < |plan| && plan[i].line.Some?
  {
    exists k :: 0 <= k < |Targets(lines, plan[i])| && TookTarget(plan, lines, i, k)
  }

  ghost predicate TookTarget(plan: seq<Item>, lines: seq<Line>, i: nat, k: nat)
    requires i < |plan| && plan[i].line.Some? && k < |Targets(lines, plan[i])|
  {
    var targets := Targets(lines, plan[i]);
    targets[k] == plan[i].line.value && forall j :: 0 <= j < k ==> HeldByAnother(plan, i, Slot(targets[j], plan[i].digits))
  }

  predicate Owns(lines: seq<Line>, owner: Option<nat>, id: nat) { exists l :: l in lines && l.id == id && l.owner == owner }

  // ---------------------------------------------------------------- the placement

  /** The set of slots in use is exactly what the rows hold. */
  ghost predicate Tracks(plan: seq<Item>, occupied: set<Slot>) {
    forall slot :: slot in occupied <==> exists j :: Holds(plan, j, slot)
  }

  method OccupiedSlots(plan: seq<Item>) returns (occupied: set<Slot>)
    ensures Tracks(plan, occupied)
  {
    occupied := {};
    for i := 0 to |plan|
      invariant forall slot :: slot in occupied <==> exists j :: j < i && Holds(plan, j, slot)
    {
      if plan[i].line.Some? && plan[i].digits != "" {
        var slot := Slot(plan[i].line.value, plan[i].digits);
        assert Holds(plan, i, slot);
        occupied := occupied + {slot};
      }
      assert forall slot :: Holds(plan, i, slot) ==> slot in occupied;
    }
  }

  /** The first of a row's targets that is free. */
  method FirstFree(targets: seq<nat>, digits: string, occupied: set<Slot>) returns (found: Option<nat>)
    ensures found.None? ==> forall k :: 0 <= k < |targets| ==> Slot(targets[k], digits) in occupied
    ensures found.Some? ==> exists k :: 0 <= k < |targets| && targets[k] == found.value && Slot(targets[k], digits) !in occupied
                              && forall j :: 0 <= j < k ==> Slot(targets[j], digits) in occupied
  {
    for k := 0 to |targets|
      invariant forall j :: 0 <= j < k ==> Slot(targets[j], digits) in occupied
    {
      if Slot(targets[k], digits) !in occupied { return Some(targets[k]); }
    }
    return None;
  }

  /**
   * Place every homeless row. Ids and digits never change and rows that had a line keep it; slots stay
   * distinct; a placed row is on a line of its own account, the first tried for it that was free; and a row is left over exactly when every line
   * linked to it and the account's main line hold its digits for somebody else.
   */
  method Place(rows: seq<Row>, lines: seq<Line>) returns (plan: seq<Item>, unassigned: seq<nat>)
    ensures SameRows(AllKnown(rows, lines), plan)
    ensures SlotsDistinct(AllKnown(rows, lines)) ==> SlotsDistinct(plan)
    ensures forall i :: 0 <= i < |plan| && Homeless(AllKnown(rows, lines)[i]) && plan[i].line.Some? ==> Owns(lines, plan[i].owner, plan[i].line.value)
    ensures forall i :: 0 <= i < |plan| && Homeless(AllKnown(rows, lines)[i]) && plan[i].line.Some? ==> TookTheFirst(plan, lines, i)
    ensures SlotsDistinct(AllKnown(rows, lines)) ==>
              forall i :: 0 <= i < |plan| && Homeless(AllKnown(rows, lines)[i]) ==> (plan[i].line.None? <==> CrowdedOut(plan, lines, i))
    ensures forall id :: id in unassigned <==> exists i :: 0 <= i < |plan| && Homeless(plan[i]) && plan[i].id == id
  {
    hide Targets, Known, Owns, Holds, HeldByAnother, TookTheFirst;
    ghost var known := AllKnown(rows, lines);
    plan := AllKnown(rows, lines);
    unassigned := [];
    var occupied := OccupiedSlots(plan);
    for i := 0 to |plan|
      invariant SameRows(known, plan) && Tracks(plan, occupied)
      invariant SlotsDistinct(known) ==> SlotsDistinct(plan)
      invariant forall k :: i <= k < |plan| ==> plan[k] == known[k]
      invariant forall k :: 0 <= k < i && Homeless(known[k]) && plan[k].line.Some? ==> Owns(lines, plan[k].owner, plan[k].line.value)
      invariant forall k :: 0 <= k < i && Homeless(known[k]) ==> (plan[k].line.None? ==> CrowdedOut(plan, lines, k))
      invariant forall k :: 0 <= k < i && Homeless(known[k]) && plan[k].line.Some? ==> TookTheFirst(plan, lines, k)
      invariant forall id :: id in unassigned <==> exists k :: 0 <= k < i && Homeless(plan[k]) && plan[k].id == id
    {
      var item := plan[i];
      if Homeless(item) {
        var found := FirstFree(Targets(lines, item), item.digits, occupied);
        match found
        case Some(id) =>
          var slot := Slot(id, item.digits);
          PlaceOne(known, plan, lines, occupied, i, id);
          plan := plan[i := item.(line := Some(id))];
          occupied := occupied + {slot};
        case None =>
          LeftOver(plan, lines, occupied, i);
          unassigned := unassigned + [item.id];
      }
    }
    if SlotsDistinct(known) {
      forall i | 0 <= i < |plan| && Homeless(known[i]) && plan[i].line.Some? ensures !CrowdedOut(plan, lines, i) {
        PlacedIsNotCrowded(plan, lines, i);
      }
    }
  }

  lemma PlacedIsNotCrowded(plan: seq<Item>, lines: seq<Line>, i: nat)
    requires i < |plan| && SlotsDistinct(plan) && plan[i].line.Some? && plan[i].digits != "" && TookTheFirst(plan, lines, i)
    ensures !CrowdedOut(plan, lines, i)
  {
    hide Targets;
    var k :| 0 <= k < |Targets(lines, plan[i])| && TookTarget(plan, lines, i, k);
    var slot := Slot(Targets(lines, plan[i])[k], plan[i].digits);
    assert Holds(plan, i, slot);
  }

  lemma LeftOver(plan: seq<Item>, lines: seq<Line>, occupied: set<Slot>, i: nat)
    requires i < |plan| && Homeless(plan[i]) && Tracks(plan, occupied)
    requires forall k :: 0 <= k < |Targets(lines, plan[i])| ==> Slot(Targets(lines, plan[i])[k], plan[i].digits) in occupied
    ensures CrowdedOut(plan, lines, i)
  {}

  lemma {:induction false} LinkedAreOwn(lines: seq<Line>, owner: Option<nat>, digits: string)
    ensures forall id :: id in Linked(lines, owner, digits) ==> Owns(lines, owner, id)
  {
    if lines != [] {
      LinkedAreOwn(lines[1..], owner, digits);
      assert lines == [lines[0]] + lines[1..];
    }
  }

  lemma {:induction false} FirstOwnIsOwn(lines: seq<Line>, owner: Option<nat>, mainOnly: bool)
    ensures FirstOwn(lines, owner, mainOnly).Some? ==> Owns(lines, owner, FirstOwn(lines, owner, mainOnly).value)
  {
    if lines != [] {
      FirstOwnIsOwn(lines[1..], owner, mainOnly);
      assert lines == [lines[0]] + lines[1..];
    }
  }

  lemma TargetsAreOwn(lines: seq<Line>, item: Item)
    ensures forall id :: id in Targets(lines, item) ==> Owns(lines, item.owner, id)
  {
    LinkedAreOwn(lines, item.owner, item.digits);
    FirstOwnIsOwn(lines, item.owner, true);
    FirstOwnIsOwn(lines, item.owner, false);
  }

  /** One placement: the slot was free, so slots stay distinct and tracked, and what held a slot holds it still. */
  lemma PlaceOne(known: seq<Item>, plan: seq<Item>, lines: seq<Line>, occupied: set<Slot>, i: nat, id: nat)
    requires i < |plan| && |plan| == |known| && Homeless(plan[i]) && Tracks(plan, occupied)
    requires exists k :: 0 <= k < |Targets(lines, plan[i])| && Targets(lines, plan[i])[k] == id && Slot(id, plan[i].digits) !in occupied
               && forall j :: 0 <= j < k ==> Slot(Targets(lines, plan[i])[j], plan[i].digits) in occupied
    ensures var next := plan[i := plan[i].(line := Some(id))];
            && Tracks(next, occupied + {Slot(id, plan[i].digits)})
            && (SlotsDistinct(plan) ==> SlotsDistinct(next))
            && Owns(lines, next[i].owner, id) && TookTheFirst(next, lines, i)
            && (forall k :: 0 <= k < |plan| && k != i && CrowdedOut(plan, lines, k) ==> CrowdedOut(next, lines, k))
            && (forall k :: 0 <= k < |plan| && k != i && plan[k].line.Some? && TookTheFirst(plan, lines, k) ==> TookTheFirst(next, lines, k))
  {
    hide Targets, Owns, HeldByAnother, CrowdedOut, TookTheFirst, Tracks, SlotsDistinct;
    var k :| 0 <= k < |Targets(lines, plan[i])| && Targets(lines, plan[i])[k] == id
             && forall j :: 0 <= j < k ==> Slot(Targets(lines, plan[i])[j], plan[i].digits) in occupied;
    assert id in Targets(lines, plan[i]);
    TargetsAreOwn(lines, plan[i]);
    var next := plan[i := plan[i].(line := Some(id))];
    HoldsAfter(plan, i, id);
    Tracked(plan, next, occupied, i, Slot(id, plan[i].digits));
    NobodyHolds(plan, occupied, Slot(id, plan[i].digits));
    StillDistinct(plan, next, i, Slot(id, plan[i].digits));
    TakesTheFirst(plan, lines, occupied, i, k);
    forall m | 0 <= m < |plan| && m != i && CrowdedOut(plan, lines, m) ensures CrowdedOut(next, lines, m) { StillCrowded(plan, next, lines, m); }
    forall m | 0 <= m < |plan| && m != i && plan[m].line.Some? && TookTheFirst(plan, lines, m) ensures TookTheFirst(next, lines, m) {
      StillFirst(plan, next, lines, m);
    }
  }

  lemma NobodyHolds(plan: seq<Item>, occupied: set<Slot>, slot: Slot)
    requires Tracks(plan, occupied) && slot !in occupied
    ensures forall j :: !Holds(plan, j, slot)
  {}

  lemma TakesTheFirst(plan: seq<Item>, lines: seq<Line>, occupied: set<Slot>, i: nat, k: nat)
    requires i < |plan| && Homeless(plan[i]) && Tracks(plan, occupied) && k < |Targets(lines, plan[i])|
    requires forall j :: 0 <= j < k ==> Slot(Targets(lines, plan[i])[j], plan[i].digits) in occupied
    ensures TookTheFirst(plan[i := plan[i].(line := Some(Targets(lines, plan[i])[k]))], lines, i)
  {
    hide Targets;
    var next := plan[i := plan[i].(line := Some(Targets(lines, plan[i])[k]))];
    TargetsIgnoreTheLine(lines, plan[i], next[i].line);
    forall j | 0 <= j < k ensures HeldByAnother(next, i, Slot(Targets(lines, next[i])[j], next[i].digits)) {
      var slot := Slot(Targets(lines, plan[i])[j], plan[i].digits);
      var m :| Holds(plan, m, slot);
      assert m != i && Holds(next, m, slot);
    }
    assert TookTarget(next, lines, i, k);
  }

  /** What others held they hold still. */
  ghost predicate HoldOn(plan: seq<Item>, next: seq<Item>) {
    |next| == |plan| && forall j, slot :: Holds(plan, j, slot) ==> Holds(next, j, slot)
  }

  lemma HeldStill(plan: seq<Item>, next: seq<Item>, m: nat, slot: Slot)
    requires HoldOn(plan, next) && HeldByAnother(plan, m, slot)
    ensures HeldByAnother(next, m, slot)
  {
    hide Holds;
    var j :| j != m && Holds(plan, j, slot);
    assert Holds(next, j, slot);
  }

  lemma StillCrowded(plan: seq<Item>, next: seq<Item>, lines: seq<Line>, m: nat)
    requires HoldOn(plan, next) && m < |plan| == |next| && next[m] == plan[m] && CrowdedOut(plan, lines, m)
    ensures CrowdedOut(next, lines, m)
  {
    hide Targets, HeldByAnother, HoldOn;
    forall k | 0 <= k < |Targets(lines, plan[m])| ensures HeldByAnother(next, m, Slot(Targets(lines, plan[m])[k], plan[m].digits)) {
      HeldStill(plan, next, m, Slot(Targets(lines, plan[m])[k], plan[m].digits));
    }
  }

  lemma StillFirst(plan: seq<Item>, next: seq<Item>, lines: seq<Line>, m: nat)
    requires HoldOn(plan, next) && m < |plan| == |next| && next[m] == plan[m] && plan[m].line.Some? && TookTheFirst(plan, lines, m)
    ensures TookTheFirst(next, lines, m)
  {
    hide Targets, HeldByAnother, HoldOn;
    var k :| 0 <= k < |Targets(lines, plan[m])| && TookTarget(plan, lines, m, k);
    forall j | 0 <= j < k ensures HeldByAnother(next, m, Slot(Targets(lines, plan[m])[j], plan[m].digits)) {
      HeldStill(plan, next, m, Slot(Targets(lines, plan[m])[j], plan[m].digits));
    }
    assert TookTarget(next, lines, m, k);
  }

  lemma TargetsIgnoreTheLine(lines: seq<Line>, item: Item, line: Option<nat>)
    ensures Targets(lines, item.(line := line)) == Targets(lines, item)
  {}

  lemma HoldsAfter(plan: seq<Item>, i: nat, id: nat)
    requires i < |plan| && Homeless(plan[i])
    ensures var next := plan[i := plan[i].(line := Some(id))];
            forall j, slot :: Holds(next, j, slot) <==> Holds(plan, j, slot) || (j == i && slot == Slot(id, plan[i].digits))
  {}

  lemma Tracked(plan: seq<Item>, next: seq<Item>, occupied: set<Slot>, i: nat, slot: Slot)
    requires Tracks(plan, occupied)
    requires forall j, other :: Holds(next, j, other) <==> Holds(plan, j, other) || (j == i && other == slot)
    ensures Tracks(next, occupied + {slot})
  {
    hide Holds;
    forall other ensures other in occupied + {slot} <==> exists j :: Holds(next, j, other) {
      if other in occupied {
        var j :| Holds(plan, j, other);
        assert Holds(next, j, other);
      } else if other == slot {
        assert Holds(next, i, other);
      }
    }
  }

  lemma StillDistinct(plan: seq<Item>, next: seq<Item>, i: nat, slot: Slot)
    requires forall j, other :: Holds(next, j, other) <==> Holds(plan, j, other) || (j == i && other == slot)
    requires forall j :: !Holds(plan, j, slot)
    ensures SlotsDistinct(plan) ==> SlotsDistinct(next)
  {
    hide Holds;
  }

  // ---------------------------------------------------------------- what a row says, and where it may go

  /** The last line with this number. */
  predicate LastLine(lines: seq<Line>, number: string, i: int) {
    0 <= i < |lines| && lines[i].number == number && forall j :: i < j < |lines| ==> lines[j].number != number
  }

  lemma {:induction false} ByNumberIs(lines: seq<Line>, number: string)
    ensures ByNumber(lines, number).Some? <==> exists l :: l in lines && l.number == number
    ensures forall i :: LastLine(lines, number, i) ==> ByNumber(lines, number) == Some(lines[i].id)
  {
    if lines != [] {
      var shorter, last := lines[..|lines| - 1], |lines| - 1;
      ByNumberIs(shorter, number);
      assert lines == shorter + [lines[last]];
      forall i | LastLine(lines, number, i) ensures ByNumber(lines, number) == Some(lines[i].id) {
        if i < last { assert LastLine(shorter, number, i); }
      }
    }
  }

  /**
   * What a row already says of itself: its id, its account and the digits of its key; and its line is the one its
   * key names, else the one it is on already when that line exists, else none.
   */
  lemma KnownMeans(row: Row, lines: seq<Line>)
    ensures var item, scope := Known(row, lines), Scope(row.extension);
            && item.id == row.id && item.owner == row.owner && item.digits == Digits(row.extension)
            && if scope != "" && exists l :: l in lines && l.number == scope
               then forall i :: LastLine(lines, scope, i) ==> item.line == Some(lines[i].id)
               else item.line == if row.line.Some? && exists l :: l in lines && l.id == row.line.value then row.line else None
  {
    hide Scope, Digits, ByNumber;
    ByNumberIs(lines, Scope(row.extension));
  }

  lemma {:induction false} LinkedTogether(a: seq<Line>, b: seq<Line>, owner: Option<nat>, digits: string)
    ensures Linked(a + b, owner, digits) == Linked(a, owner, digits) + Linked(b, owner, digits)
  {
    hide Digits;
    if a == [] {
      assert a + b == b;
    } else {
      LinkedTogether(a[1..], b, owner, digits);
      assert (a + b)[0] == a[0] && (a + b)[1..] == a[1..] + b;
      var head := if a[0].owner == owner && Digits(a[0].inbound) == digits then [a[0].id] else [];
      assert head + (Linked(a[1..], owner, digits) + Linked(b, owner, digits)) == head + Linked(a[1..], owner, digits) + Linked(b, owner, digits);
    }
  }

  /** A line of the account, the first one marked as main, or the first of all when none is. */
  predicate IsMain(lines: seq<Line>, owner: Option<nat>, i: nat) {
    && i < |lines| && lines[i].owner == owner
    && (lines[i].main ==> forall j :: 0 <= j < i ==> !(lines[j].owner == owner && lines[j].main))
    && (!lines[i].main ==> (forall j :: 0 <= j < i ==> lines[j].owner != owner) && forall j :: 0 <= j < |lines| ==> !(lines[j].owner == owner && lines[j].main))
  }

  lemma {:induction false} FirstOwnIs(lines: seq<Line>, owner: Option<nat>, mainOnly: bool)
    ensures match FirstOwn(lines, owner, mainOnly)
            case Some(id) => exists i :: 0 <= i < |lines| && lines[i].owner == owner && (mainOnly ==> lines[i].main) && lines[i].id == id
                                         && forall j :: 0 <= j < i ==> !(lines[j].owner == owner && (mainOnly ==> lines[j].main))
            case None => forall j :: 0 <= j < |lines| ==> !(lines[j].owner == owner && (mainOnly ==> lines[j].main))
  {
    if lines != [] && !(lines[0].owner == owner && (mainOnly ==> lines[0].main)) {
      var rest := lines[1..];
      FirstOwnIs(rest, owner, mainOnly);
      assert forall j :: 0 < j < |lines| ==> lines[j] == rest[j - 1];
      if FirstOwn(rest, owner, mainOnly).Some? {
        var i :| 0 <= i < |rest| && rest[i].owner == owner && (mainOnly ==> rest[i].main) && rest[i].id == FirstOwn(rest, owner, mainOnly).value
                 && forall j :: 0 <= j < i ==> !(rest[j].owner == owner && (mainOnly ==> rest[j].main));
        assert lines[i + 1] == rest[i];
      }
    }
  }

  /**
   * The lines tried for a row: those of its account whose link names its digits, in their order, and then the
   * account's main line, if the account has any line.
   */
  lemma TargetsMean(lines: seq<Line>, item: Item)
    ensures var linked, targets := Linked(lines, item.owner, item.digits), Targets(lines, item);
            && linked <= targets
            && if exists l :: l in lines && l.owner == item.owner
               then exists i: nat :: IsMain(lines, item.owner, i) && targets == linked + [lines[i].id]
               else targets == linked
    ensures forall l: Line :: Linked([l], item.owner, item.digits) == if l.owner == item.owner && Digits(l.inbound) == item.digits then [l.id] else []
  {
    hide Digits, Linked, FirstOwn;
    FirstOwnIs(lines, item.owner, true);
    FirstOwnIs(lines, item.owner, false);
    forall l: Line ensures Linked([l], item.owner, item.digits) == if l.owner == item.owner && Digits(l.inbound) == item.digits then [l.id] else [] {
      OneLinked(l, item.owner, item.digits);
    }
    match MainLine(lines, item.owner)
    case Some(id) =>
      var main := FirstOwn(lines, item.owner, true).Some?;
      var i :| 0 <= i < |lines| && lines[i].owner == item.owner && (main ==> lines[i].main) && lines[i].id == id
               && forall j :: 0 <= j < i ==> !(lines[j].owner == item.owner && (main ==> lines[j].main));
      assert IsMain(lines, item.owner, i);
    case None =>
  }

  lemma OneLinked(l: Line, owner: Option<nat>, digits: string)
    ensures Linked([l], owner, digits) == if l.owner == owner && Digits(l.inbound) == digits then [l.id] else []
  {
    assert [l][1..] == [];
  }
}
