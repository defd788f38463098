/** What holds of every call record and of the trace kept beside it, and how one write keeps it. */
module CallInvariants {
  import opened Wrappers
  import opened CallRecords
  import opened CallSteps

  // ---------------------------------------------------------------- counting the trace

  /**
   * How often one call's record was marked in the ways the properties count. A menu strays when its caller
   * makes a choice although the call's no-answer path has been under way already.
   */
  datatype Books = Books(
    answered: nat, completed: nat, failed: nat, rounds: nat, forwards: nat,
    interrupted: nat, reopened: nat, menus: nat, strayed: nat)

  const BLANK: Books := Books(0, 0, 0, 0, 0, 0, 0, 0, 0)

  function After(b: Books, kind: Kind): Books {
    match kind
    case CallAnswered => b.(answered := b.answered + 1)
    case CallCompleted => b.(completed := b.completed + 1)
    case CallFailed => b.(failed := b.failed + 1)
    case FallbackRound => b.(rounds := b.rounds + 1)
    case CallForwarding => b.(forwards := b.forwards + 1)
    case PickUpInterrupted => b.(interrupted := b.interrupted + 1)
    case Reopened => b.(reopened := b.reopened + 1, strayed := b.strayed + if b.rounds + b.forwards > 0 then 1 else 0)
    case MenuSelected => b.(strayed := b.strayed + if b.forwards > 0 then 1 else 0)
    case MenuFallback => b.(strayed := b.strayed + if b.forwards > 0 then 1 else 0)
    case MenuOpened => b.(menus := b.menus + 1)
    case _ => b
  }

  function BooksOf(trace: seq<Entry>, id: CallId): Books {
    if trace == [] then BLANK
    else
      var before, last := BooksOf(trace[..|trace| - 1], id), trace[|trace| - 1];
      if last.call == id then After(before, last.kind) else before
  }

  lemma BooksAppend(trace: seq<Entry>, entry: Entry, id: CallId)
    ensures BooksOf(trace + [entry], id) == if entry.call == id then After(BooksOf(trace, id), entry.kind) else BooksOf(trace, id)
  {
    assert (trace + [entry])[..|trace|] == trace;
  }

  predicate AtLeast(b: Books, a: Books) {
    && b.answered >= a.answered && b.completed >= a.completed && b.failed >= a.failed && b.rounds >= a.rounds
    && b.forwards >= a.forwards && b.interrupted >= a.interrupted && b.reopened >= a.reopened && b.menus >= a.menus
    && b.strayed >= a.strayed
  }

  /** A longer trace only counts more. */
  lemma {:induction false} BooksGrow(trace: seq<Entry>, longer: seq<Entry>, id: CallId)
    requires trace <= longer
    ensures AtLeast(BooksOf(longer, id), BooksOf(trace, id))
    decreases |longer|
  {
    if trace != longer {
      BooksGrow(trace, longer[..|longer| - 1], id);
      BooksAppend(longer[..|longer| - 1], longer[|longer| - 1], id);
      assert longer == longer[..|longer| - 1] + [longer[|longer| - 1]];
    } else {
      assert AtLeast(BooksOf(longer, id), BooksOf(longer, id));
    }
  }

  /** A call the trace never mentions has blank books. */
  lemma {:induction false} UnmentionedIsBlank(trace: seq<Entry>, id: CallId)
    requires forall i :: 0 <= i < |trace| ==> trace[i].call != id
    ensures BooksOf(trace, id) == BLANK
  {
    if trace != [] { UnmentionedIsBlank(trace[..|trace| - 1], id); }
  }

  // ---------------------------------------------------------------- the invariant

  /** The recording has left the states in which Asterisk is still writing it. */
  predicate Closed(r: Recording) { r == Finalized || r == RecordingFailed || r == Deleted }

  /**
   * One record; `open` marks the one call a pick-up handler is in the middle of joining, where a bridge
   * may exist before the answer is written down.
   */
  predicate CallOk(c: Call, open: bool) {
    && (c.Over() <==> c.endedAt.Some?)
    && (c.status == Completed ==> c.answered)
    && (c.answered ==> c.answeredAt.Some? && c.bridged)
    && (c.status == Bridged || c.status == Answered ==> c.bridged)
    && (!open && c.bridged && !c.Over() ==> c.answered)
    && (c.inbound ==> c.customer.Some?)
    && (c.named ==> c.bridged)
    && (!c.named && c.status != Failed ==> c.recording == NoRecording)
    && (c.recording == Running || c.recording == Finalizing ==> c.named)
    && (c.recording == Finalized || c.recording == Deleted ==> c.named)
  }

  /** A fallback round was used: by the rank the call has reached, by an answer, or by a pick-up under way. */
  predicate Spent(c: Call, rank: nat, open: bool) {
    Rank(c.status) >= rank || c.answered || (open && c.status == EmployeeAnswered)
  }

  function One(p: bool): nat { if p then 1 else 0 }

  /** One record agrees with what the trace says of it. */
  predicate Booked(c: Call, b: Books, open: bool) {
    && b.answered == One(c.answered)
    && b.completed == One(c.status == Completed)
    && (b.failed > 0 <==> c.status == Failed)
    && (!c.inbound ==> b.rounds == 0 && b.forwards == 0)
    && b.rounds <= One(Spent(c, 1, open)) + b.interrupted + b.reopened
    && b.forwards <= One(Spent(c, 2, open)) + b.interrupted + b.reopened
    && (b.reopened + b.strayed > 0 ==> b.menus > 0)
    && (c.status == Forwarding ==> b.forwards > 0)
    && (b.strayed == 0 ==> InStep(c, b, open))
  }

  /** Unless a menu strayed, only a pick-up cut short makes room for one more round, and nothing for one more forward. */
  predicate InStep(c: Call, b: Books, open: bool) {
    && b.rounds <= One(Spent(c, 1, open)) + b.interrupted
    && b.forwards <= One(Spent(c, 2, open))
    && (c.status == Forwarding ==> |c.rung| == 1)
  }

  predicate Kept(core: Core, id: CallId, open: Option<CallId>)
    requires id in core.calls
  {
    CallOk(core.calls[id], open == Some(id)) && Booked(core.calls[id], BooksOf(core.trace, id), open == Some(id))
  }

  /** A completion is only ever told after an answer. */
  predicate CompletedLate(trace: seq<Entry>) {
    forall i :: 0 <= i < |trace| && trace[i].kind == CallCompleted ==> BooksOf(trace[..i], trace[i].call).answered >= 1
  }

  predicate Mentioned(core: Core) { forall i :: 0 <= i < |core.trace| ==> core.trace[i].call in core.calls }

  /** Every call stands in the creation order exactly once. */
  predicate OrderOk(core: Core) {
    && (forall id :: id in core.calls ==> id in core.order) && (forall id :: id in core.order ==> id in core.calls)
    && (forall i, j :: 0 <= i < j < |core.order| ==> core.order[i] != core.order[j])
  }

  predicate CoreOk(core: Core, open: Option<CallId>) {
    && (forall id :: id in core.calls ==> Kept(core, id, open))
    && CompletedLate(core.trace)
    && Mentioned(core)
    && OrderOk(core)
  }

  // ---------------------------------------------------------------- what never changes back

  predicate CallEvolved(c: Call, d: Call) {
    && d.inbound == c.inbound
    && (c.Over() ==> d.status == c.status)
    && (c.endedAt.Some? ==> d.endedAt.Some?)
    && (c.answered ==> d.answered && d.answeredAt == c.answeredAt)
    && (c.bridged ==> d.bridged || d.status == Failed)
    && (Closed(c.recording) ==> Closed(d.recording))
  }

  predicate Evolved(a: Core, b: Core) {
    && (forall id :: id in a.calls ==> id in b.calls && CallEvolved(a.calls[id], b.calls[id]))
    && a.trace <= b.trace
  }

  lemma EvolvedSame(a: Core)
    ensures Evolved(a, a)
  {}

  lemma EvolvedThen(a: Core, b: Core, c: Core)
    requires Evolved(a, b) && Evolved(b, c)
    ensures Evolved(a, c)
  {}

  // ---------------------------------------------------------------- one write

  predicate Fits(core: Core, id: CallId, call: Call, b: Books, open: bool)
    requires id in core.calls
  {
    CallOk(call, open) && CallEvolved(core.calls[id], call) && Booked(call, b, open)
  }

  /** The call being joined, if any, is the one written to. */
  predicate Confined(open: Option<CallId>, id: CallId) { open == None || open == Some(id) }

  lemma PutKeeps(core: Core, id: CallId, call: Call, open: Option<CallId>, now: Option<CallId>)
    requires CoreOk(core, open) && id in core.calls && Confined(open, id) && Confined(now, id)
    requires Fits(core, id, call, BooksOf(core.trace, id), now == Some(id))
    ensures CoreOk(Put(core, id, call), now) && Evolved(core, Put(core, id, call))
  {
    hide BooksOf, CallOk, Booked, CallEvolved;
    var next := Put(core, id, call);
    forall other | other in next.calls ensures Kept(next, other, now) {
      assert other in core.calls && Kept(core, other, open);
    }
    forall other | other in core.calls ensures CallEvolved(core.calls[other], next.calls[other]) {
      SelfEvolved(core.calls[other]);
    }
  }

  lemma SelfEvolved(c: Call)
    ensures CallEvolved(c, c)
  {}

  lemma NoteKeeps(core: Core, id: CallId, kind: Kind, open: Option<CallId>, now: Option<CallId>)
    requires CoreOk(core, open) && id in core.calls && Confined(open, id) && Confined(now, id)
    requires Fits(core, id, core.calls[id], After(BooksOf(core.trace, id), kind), now == Some(id))
    requires kind == CallCompleted ==> BooksOf(core.trace, id).answered >= 1
    ensures CoreOk(Note(core, id, kind), now) && Evolved(core, Note(core, id, kind))
  {
    hide *;
    SaveKeeps(core, id, core.calls[id], kind, open, now);
    SaveSame(core, id, kind);
  }

  lemma SaveSame(core: Core, id: CallId, kind: Kind)
    requires id in core.calls
    ensures Save(core, id, core.calls[id], kind) == Note(core, id, kind)
  {
    assert core.calls[id := core.calls[id]] == core.calls;
  }

  lemma SaveKeeps(core: Core, id: CallId, call: Call, kind: Kind, open: Option<CallId>, now: Option<CallId>)
    requires CoreOk(core, open) && id in core.calls && Confined(open, id) && Confined(now, id)
    requires Fits(core, id, call, After(BooksOf(core.trace, id), kind), now == Some(id))
    requires kind == CallCompleted ==> BooksOf(core.trace, id).answered >= 1
    ensures CoreOk(Save(core, id, call, kind), now) && Evolved(core, Save(core, id, call, kind))
  {
    hide BooksOf, CallOk, Booked, CallEvolved, After;
    var entry, next := Entry(id, kind), Save(core, id, call, kind);
    forall other | other in next.calls ensures Kept(next, other, now) {
      BooksAppend(core.trace, entry, other);
      assert other in core.calls && Kept(core, other, open);
    }
    forall other | other in core.calls ensures CallEvolved(core.calls[other], next.calls[other]) {
      SelfEvolved(core.calls[other]);
    }
    AppendKeepsLate(core.trace, entry);
  }

  lemma AppendKeepsLate(trace: seq<Entry>, entry: Entry)
    requires CompletedLate(trace)
    requires entry.kind == CallCompleted ==> BooksOf(trace, entry.call).answered >= 1
    ensures CompletedLate(trace + [entry])
  {
    hide BooksOf;
    var longer := trace + [entry];
    forall i | 0 <= i < |longer| && longer[i].kind == CallCompleted
      ensures BooksOf(longer[..i], longer[i].call).answered >= 1
    {
      if i < |trace| { assert longer[..i] == trace[..i]; } else { assert longer[..i] == trace; }
    }
  }

  lemma CreateKeepsOrder(core: Core, id: CallId, call: Call)
    requires OrderOk(core) && id !in core.calls
    ensures OrderOk(Create(core, id, call))
  {}

  lemma BlankFits(call: Call)
    requires !call.answered && !call.Over() && call.status != Forwarding
    ensures Booked(call, BLANK, false) && After(BLANK, CallStarted) == BLANK
  {}

  /** A new record starts with blank books. */
  lemma CreateKeeps(core: Core, id: CallId, call: Call)
    requires CoreOk(core, None) && id !in core.calls
    requires CallOk(call, false) && !call.answered && !call.Over() && call.status != Forwarding
    ensures CoreOk(Create(core, id, call), None) && Evolved(core, Create(core, id, call))
    ensures Create(core, id, call).calls == core.calls[id := call]
    ensures BooksOf(Create(core, id, call).trace, id) == BLANK
  {
    hide BooksOf, CallOk, CallEvolved, OrderOk, CompletedLate, Booked;
    var entry, next := Entry(id, CallStarted), Create(core, id, call);
    BlankFits(call);
    CreateKeepsOrder(core, id, call);
    UnmentionedIsBlank(core.trace, id);
    forall other | other in next.calls ensures Kept(next, other, None) {
      BooksAppend(core.trace, entry, other);
      if other != id { assert Kept(core, other, None); }
    }
    forall other | other in core.calls ensures CallEvolved(core.calls[other], next.calls[other]) {
      SelfEvolved(core.calls[other]);
    }
    BooksAppend(core.trace, entry, id);
    AppendKeepsLate(core.trace, entry);
  }
}
