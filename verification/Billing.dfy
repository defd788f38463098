/** Monthly invoices and the discontinuation of numbers. */
module Billing {
  import opened Wrappers
  import opened Calendar

  datatype Number = Number(
    number: string, owner: Option<nat>, active: bool, cycle: int, billingStart: Option<Date>, stops: Option<Date>, price: nat)

  datatype Invoice = Invoice(owner: nat, number: string, start: Date, end: Date, cents: nat)

  /** The database asks only for owned, active numbers that have not stopped. */
  predicate Runs(n: Number, today: Date) {
    n.owner.Some? && n.active && (n.stops.None? || Before(today, n.stops.value))
  }

  predicate Started(n: Number, today: Date) { n.billingStart.None? || !Before(today, n.billingStart.value) }

  predicate Invoiced(invoices: seq<Invoice>, number: string, start: Date) {
    exists i :: 0 <= i < |invoices| && invoices[i].number == number && invoices[i].start == start
  }

  /** The invoice of the current period. */
  function InvoiceFor(n: Number, today: Date): Invoice
    requires Valid(today)
  {
    var cycle := CycleDay(n.cycle);
    Invoice(n.owner.GetOr(0), n.number, PeriodStart(today, cycle), PeriodEnd(today, cycle), n.price)
  }

  predicate Owes(n: Number, invoices: seq<Invoice>, today: Date)
    requires Valid(today)
  {
    Runs(n, today) && Started(n, today) && !Invoiced(invoices, n.number, PeriodStart(today, CycleDay(n.cycle)))
  }

  /** The invoices after a billing run over these numbers, in order. */
  function Billed(invoices: seq<Invoice>, numbers: seq<Number>, today: Date): seq<Invoice>
    requires Valid(today)
  {
    if numbers == [] then invoices
    else
      var n, before := numbers[|numbers| - 1], Billed(invoices, numbers[..|numbers| - 1], today);
      if Owes(n, before, today) then before + [InvoiceFor(n, today)] else before
  }

  /** The first number of this owner that can be discontinued. */
  function PlaceOf(numbers: seq<Number>, number: string, owner: nat): (r: Option<nat>)
    ensures r.Some? ==> r.value < |numbers|
  {
    if numbers == [] then None
    else if numbers[0].number == number && numbers[0].owner == Some(owner) && numbers[0].active then Some(0)
    else match PlaceOf(numbers[1..], number, owner)
      case Some(i) => Some(i + 1)
      case None => None
  }

  /** The rows after `stops` was set on every row of that number and owner. */
  function Stopped(numbers: seq<Number>, number: string, owner: nat, stop: Date): (r: seq<Number>)
    ensures |r| == |numbers|
    ensures forall i :: 0 <= i < |r| ==>
              r[i] == if numbers[i].number == number && numbers[i].owner == Some(owner) then numbers[i].(stops := Some(stop)) else numbers[i]
  {
    seq(|numbers|, i requires 0 <= i < |numbers| =>
      if numbers[i].number == number && numbers[i].owner == Some(owner) then numbers[i].(stops := Some(stop)) else numbers[i])
  }

  predicate IsActiveOf(n: Number, number: string, owner: nat) { n.number == number && n.owner == Some(owner) && n.active }

  lemma {:induction false} PlaceIs(numbers: seq<Number>, number: string, owner: nat)
    ensures PlaceOf(numbers, number, owner).Some? ==>
              var i := PlaceOf(numbers, number, owner).value;
              IsActiveOf(numbers[i], number, owner) && forall j :: 0 <= j < i ==> !IsActiveOf(numbers[j], number, owner)
    ensures PlaceOf(numbers, number, owner).None? <==> forall i :: 0 <= i < |numbers| ==> !IsActiveOf(numbers[i], number, owner)
  {
    if numbers != [] {
      PlaceIs(numbers[1..], number, owner);
      assert forall j :: 0 < j < |numbers| ==> numbers[j] == numbers[1..][j - 1];
    }
  }

  class Ledger {
    var numbers: seq<Number>
    var invoices: seq<Invoice>

    constructor (numbers: seq<Number>)
      ensures this.numbers == numbers && invoices == []
    {
      this.numbers, invoices := numbers, [];
    }

    /** Write the invoice of the current period for every number that owes one. */
    method EnsureMonthlyInvoices(today: Date)
      requires Valid(today)
      modifies this`invoices
      ensures invoices == Billed(old(invoices), numbers, today)
    {
      for i := 0 to |numbers|
        invariant invoices == Billed(old(invoices), numbers[..i], today)
      {
        var n := numbers[i];
        assert numbers[..i + 1][..i] == numbers[..i] && numbers[..i + 1][i] == n;
        if Runs(n, today) && Started(n, today) && !Invoiced(invoices, n.number, PeriodStart(today, CycleDay(n.cycle))) {
          invoices := invoices + [InvoiceFor(n, today)];
        }
      }
      assert numbers[..|numbers|] == numbers;
    }

    /** Stop a number at the end of its current period; only its own active number, and only its owner's. */
    method RequestDiscontinuation(number: string, owner: nat, today: Date) returns (stop: Option<Date>)
      requires Valid(today)
      modifies this`numbers
      ensures stop.None? <==> PlaceOf(old(numbers), number, owner).None?
      ensures stop.None? <==> forall i :: 0 <= i < |old(numbers)| ==> !IsActiveOf(old(numbers)[i], number, owner)
      ensures stop.None? ==> numbers == old(numbers)
      ensures stop.Some? ==>
                var row := old(numbers)[PlaceOf(old(numbers), number, owner).value];
                && stop.value == NextDay(PeriodEnd(today, CycleDay(row.cycle)))
                && numbers == Stopped(old(numbers), number, owner, stop.value)
    {
      PlaceIs(numbers, number, owner);
      match PlaceOf(numbers, number, owner)
      case None => return None;
      case Some(i) =>
        var cycle := CycleDay(numbers[i].cycle);
        StopsAfterThePeriod(today, cycle);
        var date := StopDay(today, cycle);
        numbers := Stopped(numbers, number, owner, date);
        return Some(date);
    }
  }

  // ---------------------------------------------------------------- what the runs promise

  predicate NoneTwice(invoices: seq<Invoice>) {
    forall i, j :: 0 <= i < j < |invoices| ==> invoices[i].number != invoices[j].number || invoices[i].start != invoices[j].start
  }

  lemma {:induction false} BillingKeepsUnique(invoices: seq<Invoice>, numbers: seq<Number>, today: Date)
    requires Valid(today) && NoneTwice(invoices)
    ensures NoneTwice(Billed(invoices, numbers, today)) && invoices <= Billed(invoices, numbers, today)
  {
    hide PeriodStart, PeriodEnd, Runs, Started;
    if numbers != [] { BillingKeepsUnique(invoices, numbers[..|numbers| - 1], today); }
  }

  /** The rows after those that have stopped are swept out of service. */
  function Swept(numbers: seq<Number>, today: Date): (r: seq<Number>)
    ensures |r| == |numbers|
    ensures forall i :: 0 <= i < |r| ==> r[i] == SweptRow(numbers[i], today)
  {
    seq(|numbers|, i requires 0 <= i < |numbers| => SweptRow(numbers[i], today))
  }

  function SweptRow(n: Number, today: Date): Number {
    if n.stops.Some? && !Before(today, n.stops.value) then n.(active := false) else n
  }

  /** Anything may happen to the table of numbers between runs; only a billing run writes invoices. */
  datatype Action = Bill(today: Date) | Sweep(today: Date) | Stop(number: string, owner: nat, today: Date) | Edit(numbers: seq<Number>)

  datatype Books = Books(numbers: seq<Number>, invoices: seq<Invoice>)

  function Act(b: Books, action: Action): Books {
    match action
    case Bill(today) => if Valid(today) then b.(invoices := Billed(b.invoices, b.numbers, today)) else b
    case Sweep(today) => b.(numbers := Swept(b.numbers, today))
    case Stop(number, owner, today) =>
      if Valid(today) && PlaceOf(b.numbers, number, owner).Some?
      then b.(numbers := Stopped(b.numbers, number, owner, StopDay(today, CycleDay(b.numbers[PlaceOf(b.numbers, number, owner).value].cycle))))
      else b
    case Edit(numbers) => b.(numbers := numbers)
  }

  function Run(b: Books, actions: seq<Action>): Books
    decreases |actions|
  {
    if actions == [] then b else Run(Act(b, actions[0]), actions[1..])
  }

  /** Over any run no number is invoiced twice for one period, and no invoice is ever withdrawn. */
  lemma {:induction false} NeverInvoicedTwice(b: Books, actions: seq<Action>)
    requires NoneTwice(b.invoices)
    ensures NoneTwice(Run(b, actions).invoices) && b.invoices <= Run(b, actions).invoices
    decreases |actions|
  {
    hide NoneTwice, Billed;
    if actions != [] {
      if actions[0].Bill? && Valid(actions[0].today) { BillingKeepsUnique(b.invoices, b.numbers, actions[0].today); }
      NeverInvoicedTwice(Act(b, actions[0]), actions[1..]);
    }
  }

  /** The row belongs to a customer and is in service, has not come to its last day, and its billing has begun. */
  predicate Billable(n: Number, today: Date) {
    && n.owner.Some? && n.active
    && (n.stops.Some? ==> Before(today, n.stops.value))
    && (n.billingStart.Some? ==> !Before(today, n.billingStart.value))
  }

  /** After a billing run every running, started number has the invoice of its current period. */
  lemma {:induction false} EveryoneIsInvoiced(invoices: seq<Invoice>, numbers: seq<Number>, today: Date, i: nat)
    requires Valid(today) && i < |numbers| && Billable(numbers[i], today)
    ensures Invoiced(Billed(invoices, numbers, today), numbers[i].number, PeriodStart(today, CycleDay(numbers[i].cycle)))
  {
    hide PeriodStart, PeriodEnd;
    var shorter, last := numbers[..|numbers| - 1], numbers[|numbers| - 1];
    var before, after := Billed(invoices, shorter, today), Billed(invoices, numbers, today);
    if i < |numbers| - 1 {
      EveryoneIsInvoiced(invoices, shorter, today, i);
      var start := PeriodStart(today, CycleDay(numbers[i].cycle));
      var k :| 0 <= k < |before| && before[k].number == numbers[i].number && before[k].start == start;
      assert after[k] == before[k];
    } else if Owes(last, before, today) {
      assert after[|before|] == InvoiceFor(last, today);
    }
  }

  /** The invoice of a number: to its owner, at its price. */
  predicate IsFor(invoice: Invoice, n: Number) { n.owner == Some(invoice.owner) && invoice.number == n.number && invoice.cents == n.price }

  /** A new invoice is for a running, started number, to its owner and at its price, and its period contains the day of the run. */
  lemma {:induction false} NewInvoicesAreCurrent(invoices: seq<Invoice>, numbers: seq<Number>, today: Date, k: nat)
    requires Valid(today) && |invoices| <= k < |Billed(invoices, numbers, today)|
    ensures exists i :: 0 <= i < |numbers| && Billable(numbers[i], today)
                        && Billed(invoices, numbers, today)[k] == InvoiceFor(numbers[i], today) && IsFor(InvoiceFor(numbers[i], today), numbers[i])
    ensures var invoice := Billed(invoices, numbers, today)[k]; Within(invoice.start, today, invoice.end)
  {
    hide PeriodStart, PeriodEnd, Within;
    if numbers != [] {
      var shorter, last := numbers[..|numbers| - 1], numbers[|numbers| - 1];
      var before := Billed(invoices, shorter, today);
      if k < |before| {
        NewInvoicesAreCurrent(invoices, shorter, today, k);
        var i :| 0 <= i < |shorter| && Billable(shorter[i], today) && before[k] == InvoiceFor(shorter[i], today);
        assert numbers[i] == shorter[i];
      } else {
        PeriodContainsToday(today, CycleDay(last.cycle));
      }
    }
  }

  /**
   * A sweep puts a row out of service exactly when its last day has come, leaves the rest of the row alone, and
   * changes no bill: from that day on the row runs after the sweep exactly when it ran before it.
   */
  lemma SweepChangesNoBill(numbers: seq<Number>, today: Date, i: nat, later: Date)
    requires i < |numbers| && !Before(later, today)
    ensures var n, swept := numbers[i], Swept(numbers, today)[i];
            && swept == n.(active := swept.active)
            && (swept.active <==> n.active && (n.stops.Some? ==> Before(today, n.stops.value)))
            && (Runs(swept, later) <==> Runs(n, later))
  {}

  // ---------------------------------------------------------------- discontinued numbers

  /** The row is out of service, nobody's, or stops by this day. */
  predicate WillStop(n: Number, stop: Date) { !n.active || n.owner.None? || (n.stops.Some? && !Before(stop, n.stops.value)) }

  predicate Stopping(numbers: seq<Number>, number: string, stop: Date) {
    forall i :: 0 <= i < |numbers| && numbers[i].number == number ==> WillStop(numbers[i], stop)
  }

  /**
   * What lets a stopping number run on: its discontinuation is asked for again while the row is still active,
   * so late that it moves beyond the day; or an edit leaves a row that does not stop by then.
   */
  predicate RunsOn(b: Books, action: Action, number: string, stop: Date) {
    match action
    case Bill(_) => false
    case Sweep(_) => false
    case Stop(nr, owner, today) =>
      && nr == number && Valid(today) && PlaceOf(b.numbers, nr, owner).Some?
      && Before(stop, StopDay(today, CycleDay(b.numbers[PlaceOf(b.numbers, nr, owner).value].cycle)))
    case Edit(numbers) => !Stopping(numbers, number, stop)
  }

  predicate EverRunsOn(b: Books, actions: seq<Action>, number: string, stop: Date)
    decreases |actions|
  {
    actions != [] && (RunsOn(b, actions[0], number, stop) || EverRunsOn(Act(b, actions[0]), actions[1..], number, stop))
  }

  /** A later discontinuation of a row that is still active moves beyond the day it stops exactly when it is asked for on that day or after. */
  lemma LateMeansOnOrAfter(today: Date, stop: Date, cycle: nat)
    requires Valid(today) && Valid(stop) && 1 <= cycle <= 28 && PeriodStart(stop, cycle) == stop
    ensures Before(stop, StopDay(today, cycle)) <==> !Before(today, stop)
  {
    hide PeriodStart, StopDay;
    if Before(today, stop) { NextStartIsSoonest(today, stop, cycle); } else { StopsLater(today, cycle); }
  }

  lemma StopsLater(today: Date, cycle: nat)
    requires Valid(today) && 1 <= cycle <= 28
    ensures Before(today, StopDay(today, cycle))
  {}

  lemma ActKeepsStopping(b: Books, action: Action, number: string, stop: Date)
    requires Stopping(b.numbers, number, stop) && !RunsOn(b, action, number, stop)
    ensures Stopping(Act(b, action).numbers, number, stop)
  {
    hide StopDay, CycleDay, Billed;
  }

  /** An invoice of the number for the period that starts on this day, or a later one. */
  predicate LaterFrom(invoices: seq<Invoice>, from: nat, number: string, stop: Date) {
    exists k: nat :: from <= k < |invoices| && IsLater(invoices[k], number, stop)
  }

  predicate IsLater(invoice: Invoice, number: string, stop: Date) { invoice.number == number && !Before(invoice.start, stop) }

  /** A billing run invoices a stopping number only for periods that start before it stops. */
  lemma BilledBeforeTheStop(invoices: seq<Invoice>, numbers: seq<Number>, today: Date, number: string, stop: Date)
    requires Valid(today) && Stopping(numbers, number, stop)
    ensures !LaterFrom(Billed(invoices, numbers, today), |invoices|, number, stop)
  {
    hide PeriodStart, PeriodEnd, Billed;
    var after := Billed(invoices, numbers, today);
    forall k: nat | |invoices| <= k < |after| ensures !IsLater(after[k], number, stop) {
      NewInvoicesAreCurrent(invoices, numbers, today, k);
      var i :| 0 <= i < |numbers| && Billable(numbers[i], today) && after[k] == InvoiceFor(numbers[i], today);
      PeriodContainsToday(today, CycleDay(numbers[i].cycle));
    }
  }

  lemma {:induction false} LaterNeedsARunOn(b: Books, actions: seq<Action>, number: string, stop: Date)
    requires Stopping(b.numbers, number, stop) && LaterFrom(Run(b, actions).invoices, |b.invoices|, number, stop)
    ensures EverRunsOn(b, actions, number, stop)
    decreases |actions|
  {
    hide Billed, Stopping, RunsOn, IsLater;
    if actions != [] && !RunsOn(b, actions[0], number, stop) {
      var next := Act(b, actions[0]);
      ActKeepsStopping(b, actions[0], number, stop);
      InvoicesStay(next, actions[1..]);
      if actions[0].Bill? && Valid(actions[0].today) { BilledBeforeTheStop(b.invoices, b.numbers, actions[0].today, number, stop); }
      LaterMoves(next.invoices, Run(b, actions).invoices, |b.invoices|, number, stop);
      LaterNeedsARunOn(next, actions[1..], number, stop);
    }
  }

  /** A later invoice was there already or is among the newer ones. */
  lemma LaterMoves(invoices: seq<Invoice>, after: seq<Invoice>, from: nat, number: string, stop: Date)
    requires invoices <= after && LaterFrom(after, from, number, stop)
    ensures LaterFrom(invoices, from, number, stop) || LaterFrom(after, |invoices|, number, stop)
  {
    hide IsLater;
    var k: nat :| from <= k < |after| && IsLater(after[k], number, stop);
    if k < |invoices| { assert IsLater(invoices[k], number, stop); }
  }

  /** No invoice is ever withdrawn. */
  lemma {:induction false} InvoicesStay(b: Books, actions: seq<Action>)
    ensures b.invoices <= Run(b, actions).invoices
    decreases |actions|
  {
    hide Billed;
    if actions != [] {
      if actions[0].Bill? && Valid(actions[0].today) { BilledAppends(b.invoices, b.numbers, actions[0].today); }
      InvoicesStay(Act(b, actions[0]), actions[1..]);
    }
  }

  lemma {:induction false} BilledAppends(invoices: seq<Invoice>, numbers: seq<Number>, today: Date)
    requires Valid(today)
    ensures invoices <= Billed(invoices, numbers, today)
  {
    hide Owes, InvoiceFor;
    if numbers != [] { BilledAppends(invoices, numbers[..|numbers| - 1], today); }
  }

  predicate NumbersDiffer(numbers: seq<Number>) {
    forall i, j :: 0 <= i < j < |numbers| ==> numbers[i].number != numbers[j].number
  }

  /** Asking for the discontinuation leaves the number stopping on its stop day, the first day of its next period. */
  lemma AskedIsStopping(b: Books, number: string, owner: nat, asked: Date)
    requires Valid(asked) && NumbersDiffer(b.numbers) && PlaceOf(b.numbers, number, owner).Some?
    ensures var cycle := CycleDay(b.numbers[PlaceOf(b.numbers, number, owner).value].cycle);
            var stop := StopDay(asked, cycle);
            && Stopping(Act(b, Stop(number, owner, asked)).numbers, number, stop)
            && stop == NextDay(PeriodEnd(asked, cycle)) && Valid(stop) && PeriodStart(stop, cycle) == stop
  {
    hide PeriodStart, PeriodEnd, StopDay, NextDay, NextStart;
    var i := PlaceOf(b.numbers, number, owner).value;
    PlaceIs(b.numbers, number, owner);
    StopsAfterThePeriod(asked, CycleDay(b.numbers[i].cycle));
    PeriodsAreAdjacent(asked, CycleDay(b.numbers[i].cycle));
  }

  /**
   * Over any run after a discontinuation is asked for, no later period of that number is ever invoiced, unless
   * it is asked for again too late while the row is still active, or an edit lets the row run on.
   */
  lemma NoLaterPeriodIsInvoiced(b: Books, number: string, owner: nat, asked: Date, actions: seq<Action>, k: nat)
    requires Valid(asked) && NumbersDiffer(b.numbers) && PlaceOf(b.numbers, number, owner).Some?
    requires var cycle := CycleDay(b.numbers[PlaceOf(b.numbers, number, owner).value].cycle);
             !EverRunsOn(Act(b, Stop(number, owner, asked)), actions, number, StopDay(asked, cycle))
    requires var last := Run(Act(b, Stop(number, owner, asked)), actions).invoices;
             |b.invoices| <= k < |last| && last[k].number == number
    ensures var cycle := CycleDay(b.numbers[PlaceOf(b.numbers, number, owner).value].cycle);
            var last := Run(Act(b, Stop(number, owner, asked)), actions).invoices;
            Before(last[k].start, NextDay(PeriodEnd(asked, cycle)))
  {
    hide Run, EverRunsOn, PeriodStart, PeriodEnd, StopDay, NextDay, NextStart;
    var stopped := Act(b, Stop(number, owner, asked));
    var stop := StopDay(asked, CycleDay(b.numbers[PlaceOf(b.numbers, number, owner).value].cycle));
    AskedIsStopping(b, number, owner, asked);
    if IsLater(Run(stopped, actions).invoices[k], number, stop) {
      assert LaterFrom(Run(stopped, actions).invoices, |stopped.invoices|, number, stop);
      LaterNeedsARunOn(stopped, actions, number, stop);
    }
  }

  // ---------------------------------------------------------------- exactly when a stopped number is billed on

  /** Some billing run on these books would invoice a later period of the number. */
  ghost predicate BillableNow(b: Books, number: string, stop: Date) {
    exists day :: Valid(day) && LaterFrom(Billed(b.invoices, b.numbers, day), |b.invoices|, number, stop)
  }

  /** At some point of the run a billing run would. */
  ghost predicate EverBillable(b: Books, actions: seq<Action>, number: string, stop: Date)
    decreases |actions|
  {
    BillableNow(b, number, stop) || (actions != [] && EverBillable(Act(b, actions[0]), actions[1..], number, stop))
  }

  predicate OnlyRow(numbers: seq<Number>, number: string, i: nat) {
    i < |numbers| && forall j :: 0 <= j < |numbers| ==> (numbers[j].number == number <==> j == i)
  }

  /** The number has one row, billed from the stop day's period on at the latest, and not yet for that period. */
  predicate OnItsRow(b: Books, number: string, i: nat, cycle: nat, stop: Date) {
    && OnlyRow(b.numbers, number, i) && b.numbers[i].owner.Some? && CycleDay(b.numbers[i].cycle) == cycle && Started(b.numbers[i], stop)
    && !Invoiced(b.invoices, number, stop)
  }

  lemma NotBillable(b: Books, number: string, stop: Date)
    requires Stopping(b.numbers, number, stop)
    ensures !BillableNow(b, number, stop)
  {
    hide Stopping, LaterFrom, Billed;
    forall day | Valid(day) ensures !LaterFrom(Billed(b.invoices, b.numbers, day), |b.invoices|, number, stop) {
      BilledBeforeTheStop(b.invoices, b.numbers, day, number, stop);
    }
  }

  lemma NewIsNotLater(invoices: seq<Invoice>, after: seq<Invoice>, number: string, stop: Date)
    requires invoices <= after && !LaterFrom(after, |invoices|, number, stop) && !Invoiced(invoices, number, stop)
    ensures !Invoiced(after, number, stop)
  {
    forall i | 0 <= i < |after| ensures after[i].number != number || after[i].start != stop {
      if i < |invoices| { assert invoices[i] == after[i]; } else { assert !IsLater(after[i], number, stop); }
    }
  }

  lemma StaysOnItsRow(b: Books, action: Action, number: string, i: nat, cycle: nat, stop: Date)
    requires OnItsRow(b, number, i, cycle, stop) && !action.Edit? && (action.Bill? ==> Stopping(b.numbers, number, stop))
    ensures OnItsRow(Act(b, action), number, i, cycle, stop)
  {
    hide Billed, StopDay, CycleDay, Stopping, LaterFrom, Invoiced;
    if action.Bill? && Valid(action.today) {
      BilledAppends(b.invoices, b.numbers, action.today);
      BilledBeforeTheStop(b.invoices, b.numbers, action.today, number, stop);
      NewIsNotLater(b.invoices, Billed(b.invoices, b.numbers, action.today), number, stop);
    }
  }

  /** A late second discontinuation makes the period of the stop day billable at once. */
  lemma RunOnIsBillable(b: Books, action: Action, number: string, i: nat, cycle: nat, stop: Date)
    requires OnItsRow(b, number, i, cycle, stop) && !action.Edit? && RunsOn(b, action, number, stop)
    requires Valid(stop) && PeriodStart(stop, cycle) == stop
    ensures BillableNow(Act(b, action), number, stop)
  {
    hide Billed, StopDay, PeriodStart, PeriodEnd, Invoiced;
    PlaceIs(b.numbers, number, action.owner);
    var next := Act(b, action);
    var row := next.numbers[i];
    assert row.active && Runs(row, stop) && Started(row, stop);
    EveryoneIsInvoiced(next.invoices, next.numbers, stop, i);
    var after := Billed(next.invoices, next.numbers, stop);
    BilledAppends(next.invoices, next.numbers, stop);
    InvoicedLater(next.invoices, after, number, stop);
  }

  lemma InvoicedLater(invoices: seq<Invoice>, after: seq<Invoice>, number: string, stop: Date)
    requires invoices <= after && !Invoiced(invoices, number, stop) && Invoiced(after, number, stop)
    ensures LaterFrom(after, |invoices|, number, stop)
  {
    assert forall j :: 0 <= j < |invoices| ==> invoices[j] == after[j];
    var k: nat :| k < |after| && after[k].number == number && after[k].start == stop;
    assert IsLater(after[k], number, stop);
  }

  lemma {:induction false} BillableIff(b: Books, actions: seq<Action>, number: string, i: nat, cycle: nat, stop: Date)
    requires OnItsRow(b, number, i, cycle, stop) && Stopping(b.numbers, number, stop)
    requires (forall a :: a in actions ==> !a.Edit?) && Valid(stop) && PeriodStart(stop, cycle) == stop
    ensures EverBillable(b, actions, number, stop) <==> EverRunsOn(b, actions, number, stop)
    decreases |actions|
  {
    hide OnItsRow, Stopping, RunsOn, BillableNow, Act, PeriodStart;
    NotBillable(b, number, stop);
    if actions != [] {
      var action, next := actions[0], Act(b, actions[0]);
      assert actions == [action] + actions[1..];
      if RunsOn(b, action, number, stop) {
        RunOnIsBillable(b, action, number, i, cycle, stop);
        assert EverBillable(next, actions[1..], number, stop);
      } else {
        ActKeepsStopping(b, action, number, stop);
        StaysOnItsRow(b, action, number, i, cycle, stop);
        BillableIff(next, actions[1..], number, i, cycle, stop);
      }
    }
  }

  /**
   * After a discontinuation is asked for, and as long as the table is not edited, a later period can be billed at
   * some point of the run exactly when the discontinuation is asked for again, on the stop day or after it, while
   * the row is still active.
   */
  lemma BilledOnIffAskedAgain(b: Books, number: string, owner: nat, asked: Date, actions: seq<Action>)
    requires Valid(asked) && NumbersDiffer(b.numbers) && PlaceOf(b.numbers, number, owner).Some?
    requires forall a :: a in actions ==> !a.Edit?
    requires var row := b.numbers[PlaceOf(b.numbers, number, owner).value];
             var stop := StopDay(asked, CycleDay(row.cycle));
             Started(row, stop) && !Invoiced(b.invoices, number, stop)
    ensures var row := b.numbers[PlaceOf(b.numbers, number, owner).value];
            var stop, stopped := StopDay(asked, CycleDay(row.cycle)), Act(b, Stop(number, owner, asked));
            EverBillable(stopped, actions, number, stop) <==> AskedAgain(stopped, actions, number, stop)
  {
    hide PeriodStart, PeriodEnd, StopDay, NextDay, NextStart, EverBillable, EverRunsOn, AskedAgain, Invoiced;
    var i := PlaceOf(b.numbers, number, owner).value;
    var cycle := CycleDay(b.numbers[i].cycle);
    var stop, stopped := StopDay(asked, cycle), Act(b, Stop(number, owner, asked));
    PlaceIs(b.numbers, number, owner);
    AskedIsStopping(b, number, owner, asked);
    BillableIff(stopped, actions, number, i, cycle, stop);
    SameAsAskedAgain(stopped, actions, number, i, cycle, stop);
  }

  /** Its discontinuation is asked for on this day or later, while a row of that number and owner is active. */
  predicate AsksAgain(b: Books, action: Action, number: string, stop: Date) {
    action.Stop? && action.number == number && Valid(action.today) && !Before(action.today, stop)
    && PlaceOf(b.numbers, number, action.owner).Some?
  }

  predicate AskedAgain(b: Books, actions: seq<Action>, number: string, stop: Date)
    decreases |actions|
  {
    actions != [] && (AsksAgain(b, actions[0], number, stop) || AskedAgain(Act(b, actions[0]), actions[1..], number, stop))
  }

  /** The row's own fields never change without an edit. */
  predicate SameRow(b: Books, number: string, i: nat, cycle: nat) {
    OnlyRow(b.numbers, number, i) && CycleDay(b.numbers[i].cycle) == cycle
  }

  lemma {:induction false} SameAsAskedAgain(b: Books, actions: seq<Action>, number: string, i: nat, cycle: nat, stop: Date)
    requires SameRow(b, number, i, cycle) && 1 <= cycle <= 28 && Valid(stop) && PeriodStart(stop, cycle) == stop
    requires forall a :: a in actions ==> !a.Edit?
    ensures EverRunsOn(b, actions, number, stop) <==> AskedAgain(b, actions, number, stop)
    decreases |actions|
  {
    hide StopDay, PeriodStart, CycleDay, Billed;
    if actions != [] {
      var action := actions[0];
      assert actions == [action] + actions[1..];
      if action.Stop? && action.number == number && Valid(action.today) {
        PlaceIs(b.numbers, number, action.owner);
        LateMeansOnOrAfter(action.today, stop, cycle);
      }
      SameAsAskedAgain(Act(b, action), actions[1..], number, i, cycle, stop);
    }
  }

  /**
   * For instance, a number that has not been swept may be discontinued again on any day on or after the
   * one it stops, and billing on that day then invoices the period that day is in, which is a later one.
   */
  lemma SecondStopReopensBilling(n: Number, owner: nat, asked: Date, again: Date)
    requires Valid(asked) && Valid(again) && n.owner == Some(owner) && n.active && n.billingStart.None?
    requires !Before(again, StopDay(asked, CycleDay(n.cycle)))
    ensures var cycle := CycleDay(n.cycle);
            var last := Run(Act(Books([n], []), Stop(n.number, owner, asked)), [Stop(n.number, owner, again), Bill(again)]).invoices;
            |last| == 1 && last[0].number == n.number && last[0].start == PeriodStart(again, cycle)
            && Before(PeriodEnd(asked, cycle), last[0].start)
  {
    hide PeriodStart, PeriodEnd, NextStart;
    var cycle := CycleDay(n.cycle);
    var once := n.(stops := Some(StopDay(asked, cycle)));
    var twice := n.(stops := Some(StopDay(again, cycle)));
    var b1, b2 := Books([once], []), Books([twice], []);
    assert Stopped([n], n.number, owner, StopDay(asked, cycle)) == [once];
    assert Stopped([once], n.number, owner, StopDay(again, cycle)) == [twice];
    assert Act(Books([n], []), Stop(n.number, owner, asked)) == b1 && Act(b1, Stop(n.number, owner, again)) == b2;
    var actions := [Stop(n.number, owner, again), Bill(again)];
    assert actions[1..] == [Bill(again)] && actions[1..][1..] == [];
    RunsUntilTheStop(again, cycle);
    assert [twice][..0] == [];
    assert Billed([], [twice], again) == [InvoiceFor(twice, again)];
    assert Run(b2, [Bill(again)]) == Run(Act(b2, Bill(again)), []);
    LaterPeriod(asked, again, cycle);
  }

  lemma RunsUntilTheStop(today: Date, cycle: nat)
    requires Valid(today) && 1 <= cycle <= 28
    ensures Before(today, StopDay(today, cycle))
  {}

  lemma LaterPeriod(asked: Date, again: Date, cycle: nat)
    requires Valid(asked) && Valid(again) && 1 <= cycle <= 28 && !Before(again, StopDay(asked, cycle))
    ensures Before(PeriodEnd(asked, cycle), PeriodStart(again, cycle))
  {}
}
