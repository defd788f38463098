/** What holds over every run of the call engine, whatever Asterisk answers and wherever it stops answering. */
module CallRuns {
  import opened Wrappers
  import opened CallRecords
  import opened CallSteps
  import opened CallInvariants
  import opened CallLaws
  import opened CallRequests

  /** The service after any events since it was first started. */
  function Reached(steps: seq<Step>): State { Run(NEW_STATE, steps) }

  lemma StartIsSane()
    ensures Sane(NEW_STATE)
  {}

  lemma ReachedIsSane(steps: seq<Step>)
    ensures Sane(Reached(steps))
  {
    StartIsSane();
    RunKeeps(NEW_STATE, steps);
  }

  lemma ReachedIsOk(steps: seq<Step>)
    ensures CoreOk(Reached(steps).core, None)
  {
    hide CoreOk, Run;
    ReachedIsSane(steps);
    SaneParts(Reached(steps));
  }

  // ---------------------------------------------------------------- the record

  /**
   * A call is completed or failed exactly when its end time is set; a completed call was answered; an
   * answered call has an answer time and a bridge.
   */
  lemma RecordsAreCoherent(steps: seq<Step>, id: CallId)
    requires id in Reached(steps).core.calls
    ensures var c := Reached(steps).core.calls[id];
            && (c.Over() <==> c.endedAt.Some?)
            && (c.status == Completed ==> c.answered)
            && (c.answered ==> c.answeredAt.Some? && c.bridged)
            && (c.recording == Running || c.recording == Finalizing ==> c.named && c.bridged)
  {
    hide Reached, CoreOk, BooksOf;
    ReachedIsOk(steps);
    KeptAt(Reached(steps).core, id, None);
  }

  /**
   * Whatever happens later: an ended call keeps its status, an answered call stays answered since the same
   * moment, and a recording that is no longer being written never is again.
   */
  lemma EndingsAreFinal(steps: seq<Step>, more: seq<Step>, id: CallId)
    requires id in Reached(steps).core.calls
    ensures var later := Run(Reached(steps), more);
            var c := Reached(steps).core.calls[id];
            && id in later.core.calls
            && var d := later.core.calls[id];
               && (c.Over() ==> d.status == c.status)
               && (c.answered ==> d.answered && d.answeredAt == c.answeredAt)
               && (c.recording != NoRecording && c.recording != Running && c.recording != Finalizing
                   ==> d.recording != NoRecording && d.recording != Running && d.recording != Finalizing)
  {
    hide Reached, Run, Sane;
    ReachedIsSane(steps);
    RunKeeps(Reached(steps), more);
  }

  // ---------------------------------------------------------------- the trace

  function Count(b: Books, kind: Kind): nat {
    match kind
    case CallAnswered => b.answered
    case CallCompleted => b.completed
    case CallFailed => b.failed
    case FallbackRound => b.rounds
    case CallForwarding => b.forwards
    case _ => 0
  }

  predicate Counted(kind: Kind) {
    kind == CallAnswered || kind == CallCompleted || kind == CallFailed || kind == FallbackRound || kind == CallForwarding
  }

  predicate ToldAt(trace: seq<Entry>, i: int, id: CallId, kind: Kind) {
    0 <= i < |trace| && trace[i] == Entry(id, kind)
  }

  lemma CountAt(trace: seq<Entry>, i: nat, id: CallId, kind: Kind)
    requires ToldAt(trace, i, id, kind) && Counted(kind)
    ensures Count(BooksOf(trace[..i + 1], id), kind) == Count(BooksOf(trace[..i], id), kind) + 1
  {
    assert trace[..i + 1] == trace[..i] + [trace[i]];
    BooksAppend(trace[..i], trace[i], id);
  }

  lemma CountGrows(trace: seq<Entry>, i: nat, j: nat, id: CallId, kind: Kind)
    requires i <= j <= |trace|
    ensures Count(BooksOf(trace[..i], id), kind) <= Count(BooksOf(trace[..j], id), kind)
  {
    BooksGrow(trace[..i], trace[..j], id);
  }

  /** What is told at some position is counted in the whole trace. */
  lemma ToldIsCounted(trace: seq<Entry>, i: nat, id: CallId, kind: Kind)
    requires ToldAt(trace, i, id, kind) && Counted(kind)
    ensures Count(BooksOf(trace, id), kind) >= 1
  {
    CountAt(trace, i, id, kind);
    CountGrows(trace, i + 1, |trace|, id, kind);
    assert trace[..|trace|] == trace;
  }

  /** Told twice is counted twice. */
  lemma TwiceIsTwo(trace: seq<Entry>, i: nat, j: nat, id: CallId, kind: Kind)
    requires i < j && ToldAt(trace, i, id, kind) && ToldAt(trace, j, id, kind) && Counted(kind)
    ensures Count(BooksOf(trace, id), kind) >= 2
  {
    CountAt(trace, i, id, kind);
    CountAt(trace, j, id, kind);
    CountGrows(trace, i + 1, j, id, kind);
    CountGrows(trace, j + 1, |trace|, id, kind);
    assert trace[..|trace|] == trace;
  }

  /** What is counted was told at some position. */
  lemma {:induction false} CountedWasTold(trace: seq<Entry>, id: CallId, kind: Kind)
    requires Count(BooksOf(trace, id), kind) >= 1 && Counted(kind)
    ensures exists i :: ToldAt(trace, i, id, kind)
  {
    if trace != [] {
      var shorter, last := trace[..|trace| - 1], |trace| - 1;
      if ToldAt(trace, last, id, kind) {
      } else {
        CountedWasTold(shorter, id, kind);
        var i :| ToldAt(shorter, i, id, kind);
        assert ToldAt(trace, i, id, kind);
      }
    }
  }

  lemma CountsAtRest(core: Core, id: CallId)
    requires CoreOk(core, None) && id in core.calls
    ensures Count(BooksOf(core.trace, id), CallAnswered) == One(core.calls[id].answered)
    ensures Count(BooksOf(core.trace, id), CallCompleted) == One(core.calls[id].status == Completed)
    ensures Count(BooksOf(core.trace, id), CallFailed) >= 1 <==> core.calls[id].status == Failed
  {
    hide CoreOk, BooksOf;
    KeptAt(core, id, None);
  }

  /** The console hears of one answer at most, and of one completion at most. */
  lemma ToldAtMostOnce(steps: seq<Step>, id: CallId, i: nat, j: nat, kind: Kind)
    requires kind == CallAnswered || kind == CallCompleted
    requires ToldAt(Reached(steps).core.trace, i, id, kind) && ToldAt(Reached(steps).core.trace, j, id, kind)
    ensures i == j
  {
    hide Reached, Kept, BooksOf, CompletedLate;
    var core := Reached(steps).core;
    ReachedIsOk(steps);
    assert core.trace[i].call in core.calls;
    CountsAtRest(core, id);
    if i < j { TwiceIsTwo(core.trace, i, j, id, kind); }
    if j < i { TwiceIsTwo(core.trace, j, i, id, kind); }
  }

  /** A completion is told only after an answer of the same call. */
  lemma CompletedAfterAnswered(steps: seq<Step>, id: CallId, i: nat)
    requires ToldAt(Reached(steps).core.trace, i, id, CallCompleted)
    ensures exists j :: 0 <= j < i && ToldAt(Reached(steps).core.trace, j, id, CallAnswered)
  {
    hide Reached, Kept, BooksOf;
    var trace := Reached(steps).core.trace;
    ReachedIsOk(steps);
    CountedWasTold(trace[..i], id, CallAnswered);
    var j :| ToldAt(trace[..i], j, id, CallAnswered);
    assert ToldAt(trace, j, id, CallAnswered);
  }

  /** No call is told both completed and failed, and each is told exactly of the calls that are. */
  lemma CompletedOrFailed(steps: seq<Step>, id: CallId)
    requires id in Reached(steps).core.calls
    ensures var core := Reached(steps).core;
            && ((exists i :: ToldAt(core.trace, i, id, CallCompleted)) <==> core.calls[id].status == Completed)
            && ((exists i :: ToldAt(core.trace, i, id, CallFailed)) <==> core.calls[id].status == Failed)
            && ((exists i :: ToldAt(core.trace, i, id, CallAnswered)) <==> core.calls[id].answered)
  {
    hide Reached, CoreOk, BooksOf, ToldAt, Count;
    var core := Reached(steps).core;
    ReachedIsOk(steps);
    CountsAtRest(core, id);
    ToldExactly(core.trace, id, CallCompleted);
    ToldExactly(core.trace, id, CallFailed);
    ToldExactly(core.trace, id, CallAnswered);
  }

  lemma ToldExactly(trace: seq<Entry>, id: CallId, kind: Kind)
    requires Counted(kind)
    ensures (exists i :: ToldAt(trace, i, id, kind)) <==> Count(BooksOf(trace, id), kind) >= 1
  {
    if i :| ToldAt(trace, i, id, kind) { ToldIsCounted(trace, i, id, kind); }
    if Count(BooksOf(trace, id), kind) >= 1 { CountedWasTold(trace, id, kind); }
  }

  // ---------------------------------------------------------------- the ladder

  /**
   * Over any run a call gets one fallback round, one more for every pick-up an unreachable Asterisk cut short,
   * and one forward leg, unless a menu's caller makes a choice when the call's no-answer path is under way
   * already; only then can a cut-short pick-up or a choice on an answered call bring one more of either.
   */
  lemma LadderIsBounded(steps: seq<Step>, id: CallId)
    requires id in Reached(steps).core.calls
    ensures var b := BooksOf(Reached(steps).core.trace, id);
            && (b.strayed == 0 ==> b.rounds <= 1 + b.interrupted && b.forwards <= 1)
            && (b.menus == 0 ==> b.strayed == 0)
            && b.rounds <= 1 + b.interrupted + b.reopened && b.forwards <= 1 + b.interrupted + b.reopened
  {
    hide Reached, CoreOk, BooksOf;
    ReachedIsOk(steps);
    KeptAt(Reached(steps).core, id, None);
  }

  /** The console is told twice of one kind only if it is counted twice. */
  lemma OnceIfCountedOnce(steps: seq<Step>, id: CallId, i: nat, j: nat, kind: Kind)
    requires Counted(kind) && Count(BooksOf(Reached(steps).core.trace, id), kind) <= 1
    requires ToldAt(Reached(steps).core.trace, i, id, kind) && ToldAt(Reached(steps).core.trace, j, id, kind)
    ensures i == j
  {
    hide Reached, BooksOf, Count;
    var trace := Reached(steps).core.trace;
    if i < j { TwiceIsTwo(trace, i, j, id, kind); }
    if j < i { TwiceIsTwo(trace, j, i, id, kind); }
  }

  lemma ToldCallExists(steps: seq<Step>, id: CallId, i: nat, kind: Kind)
    requires ToldAt(Reached(steps).core.trace, i, id, kind)
    ensures id in Reached(steps).core.calls
  {
    hide Reached, Kept, BooksOf, CompletedLate;
    ReachedIsOk(steps);
  }

  /**
   * The exception is real: a pick-up cut short leaves an unanswered call back at the foot of the ladder, so
   * when that leg dies too a plan with fallbacks starts another round, however many there were before.
   */
  lemma InterruptedPickUpForgetsTheRound(s: State, w: World, id: CallId, channel: Channel, later: World, plan: Plan)
    requires CoreOk(s.core, None) && id in s.core.calls && s.core.calls[id].inbound && !s.core.calls[id].Over()
    requires channel in Channels(s.core.calls[id].Legs())
    requires !s.core.calls[id].answered && plan.fallbacks != []
    requires !AllReached(s, w, Without(Channels(s.core.calls[id].Legs()), channel))
    ensures var cut := PickUp(s, w, id, channel).state;
            var again := NoAnswer(cut, later, id, plan).state;
            && id in cut.core.calls && cut.core.calls[id].status == EmployeeAnswered && MayFallBack(cut, id)
            && BooksOf(again.core.trace, id).rounds >= BooksOf(s.core.trace, id).rounds + 1
  {
    hide CoreOk, Evolved, StartBridge, RingFallbacks, Only;
    var cut := PickUp(s, w, id, channel).state;
    PickUpIsCutShortIff(s, w, id, channel);
    PickUpKeeps(s, w, id, channel);
    OverIsEnded(cut.core, id);
    PickUpGrows(s, w, id, channel);
    RingFallbacksCounts(cut, later, id, plan);
  }

  lemma PickUpGrows(s: State, w: World, id: CallId, channel: Channel)
    requires id in s.core.calls && !PickUp(s, w, id, channel).ok
    ensures BooksOf(PickUp(s, w, id, channel).state.core.trace, id).rounds == BooksOf(s.core.trace, id).rounds
  {
    hide Only, ExtensionOf, StartBridge, MarkAnswered, BooksOf;
    var taken := s.core.trace + [Entry(id, EmployeePickedUp)];
    BooksAppend(s.core.trace, Entry(id, EmployeePickedUp), id);
    BooksAppend(taken, Entry(id, PickUpInterrupted), id);
    assert PickUp(s, w, id, channel).state.core.trace == taken + [Entry(id, PickUpInterrupted)];
  }

  lemma RingFallbacksCounts(s: State, w: World, id: CallId, plan: Plan)
    requires CoreOk(s.core, None) && MayFallBack(s, id) && plan.fallbacks != []
    requires s.core.calls[id].inbound && !s.core.calls[id].Over() && !s.core.calls[id].answered
    ensures BooksOf(RingFallbacks(s, w, id, plan).state.core.trace, id).rounds >= BooksOf(s.core.trace, id).rounds + 1
  {
    hide CoreOk, Evolved, NoAnswer, TargetsApart, RingEach, Forget, CallOk, Booked, CallEvolved, Room, BooksOf;
    KeptAt(s.core, id, None);
    RoomAtRest(s.core.calls[id], BooksOf(s.core.trace, id));
    var call := s.core.calls[id];
    var next := w.desk(plan.(destinations := plan.fallbacks), plan.fallbacks, call.number, OfExtension(plan.fallbacks[0]));
    var round := RingEach(s, w, id, TargetsApart(w, next.destinations, call.number), ByRound, []);
    BooksAppend(s.core.trace, Entry(id, FallbackRound), id);
    BooksAppend(s.core.trace + [Entry(id, FallbackRound)], Entry(id, EmployeeRinging), id);
    if round.legs == [] {
      var d := call.(extension := plan.fallbacks[0], status := RingingFallback);
      RoundKeeps(s.core, id, d);
      var written := round.state.(core := Save(s.core, id, d, FallbackRound));
      NoAnswerKeeps(written, w, id, next);
      NoAnswerTraceGrows(written, w, id, next);
      BooksGrow(written.core.trace, NoAnswer(written, w, id, next).state.core.trace, id);
    }
  }

  lemma NoAnswerTraceGrows(s: State, w: World, id: CallId, plan: Plan)
    requires Evolved(s.core, NoAnswer(s, w, id, plan).state.core)
    ensures s.core.trace <= NoAnswer(s, w, id, plan).state.core.trace
  {}

  // ---------------------------------------------------------------- joining

  /** Every one of these requests is carried out when made in turn. */
  predicate AllDone(s: State, w: World, requests: seq<Request>)
    decreases |requests|
  {
    requests == [] || (ReplyTo(s, w, requests[0]).Done? && AllDone(Ask(s, requests[0]), w, requests[1..]))
  }

  /**
   * A running, unbridged call is answered exactly when Asterisk builds the bridge and admits both sides, and
   * failed otherwise; nothing in the step asks whether an employee ever picked up.
   */
  lemma JoinedIffBridgeBuilt(s: State, w: World, id: CallId)
    requires CoreOk(s.core, None) && id in s.core.calls && !s.core.calls[id].Over()
    requires s.core.calls[id].customer.Some? && !s.core.calls[id].bridged
    ensures var c := s.core.calls[id];
            var r := Join(s, w, id).state;
            && id in r.core.calls
            && (r.core.calls[id].status == Answered <==>
                AllDone(s, w, [CreateBridge(id), AddToBridge(id, c.employee), AddToBridge(id, c.customer.value)]))
            && (r.core.calls[id].status != Answered ==> r.core.calls[id].status == Failed)
  {
    hide CoreOk, Evolved, HangupCallChannels, BuildBridge, AllDone, StartRecording, CallOk;
    UnbridgedIsUnanswered(s.core, id);
    StartRecordingStays(s, w, id);
    var c := s.core.calls[id];
    BuiltIffAllDone(s, w, id, [CreateBridge(id), AddToBridge(id, c.employee), AddToBridge(id, c.customer.value)]);
  }

  lemma UnbridgedIsUnanswered(core: Core, id: CallId)
    requires CoreOk(core, None) && id in core.calls && !core.calls[id].bridged
    ensures !core.calls[id].answered
  {
    KeptAt(core, id, None);
  }

  /** Setting up the recording changes neither the status nor the answer of the call. */
  lemma StartRecordingStays(s: State, w: World, id: CallId)
    ensures forall t: State :: id in t.core.calls ==>
              var r := StartRecording(t, w, id);
              id in r.core.calls && r.core.calls[id].status == t.core.calls[id].status && r.core.calls[id].answered == t.core.calls[id].answered
  {}

  lemma {:induction false} BuiltIffAllDone(s: State, w: World, id: CallId, requests: seq<Request>)
    ensures BuildBridge(s, w, id, requests).ok <==> AllDone(s, w, requests)
    decreases |requests|
  {
    if requests != [] { BuiltIffAllDone(Ask(s, requests[0]), w, id, requests[1..]); }
  }
}
