/** Every handler of the call engine keeps the records, the trace and the menus in order. */
module CallLaws {
  import opened Wrappers
  import opened CallRecords
  import opened CallSteps
  import opened CallInvariants
  import IvrMenu

  /** From one core to the next: the invariant holds again and nothing settled was undone. */
  predicate Keeps(a: Core, b: Core) { CoreOk(b, None) && Evolved(a, b) }

  lemma KeptAt(core: Core, id: CallId, open: Option<CallId>)
    requires CoreOk(core, open) && id in core.calls
    ensures CallOk(core.calls[id], open == Some(id))
    ensures Booked(core.calls[id], BooksOf(core.trace, id), open == Some(id))
  {}

  lemma KeepsThen(a: Core, b: Core, c: Core)
    requires Evolved(a, b) && Keeps(b, c)
    ensures Keeps(a, c)
  {
    EvolvedThen(a, b, c);
  }

  lemma KeepsSame(a: Core)
    requires CoreOk(a, None)
    ensures Keeps(a, a)
  {
    EvolvedSame(a);
  }

  // ---------------------------------------------------------------- the end of a call

  /** Failing a call that is still running, or failed already, fits its record. */
  lemma FailFits(c: Call, b: Books, now: nat, open: bool)
    requires CallOk(c, open) && Booked(c, b, open) && c.status != Completed
    ensures var d := c.(status := Failed, endedAt := Some(now));
            CallOk(d, false) && CallEvolved(c, d) && Booked(d, After(b, CallFailed), false)
  {}

  lemma FailKeeps(core: Core, id: CallId, now: nat)
    requires CoreOk(core, None) && id in core.calls && core.calls[id].status != Completed
    ensures Keeps(core, Save(core, id, core.calls[id].(status := Failed, endedAt := Some(now)), CallFailed))
  {
    hide BooksOf, CoreOk, Evolved, CallOk, Booked, CallEvolved, After;
    KeptAt(core, id, None);
    FailFits(core.calls[id], BooksOf(core.trace, id), now, false);
    SaveKeeps(core, id, core.calls[id].(status := Failed, endedAt := Some(now)), CallFailed, None, None);
  }

  lemma CompleteFits(c: Call, b: Books, now: nat)
    requires CallOk(c, false) && Booked(c, b, false) && c.answered && !c.Over()
    ensures var d := c.(status := Completed, endedAt := Some(now));
            CallOk(d, false) && CallEvolved(c, d) && Booked(d, After(b, CallCompleted), false)
    ensures b.answered >= 1
  {}

  lemma CloseKeeps(core: Core, id: CallId, now: nat)
    requires CoreOk(core, None) && id in core.calls && core.calls[id].status != Completed
    ensures Keeps(core, Close(core, id, now))
    ensures Close(core, id, now).calls.Keys == core.calls.Keys && Close(core, id, now).calls[id].Over()
  {
    hide BooksOf, CoreOk, Evolved, CallOk, Booked, CallEvolved, After;
    KeptAt(core, id, None);
    var call := core.calls[id];
    if call.status != Failed && call.answered {
      CompleteFits(call, BooksOf(core.trace, id), now);
      SaveKeeps(core, id, call.(status := Completed, endedAt := Some(now)), CallCompleted, None, None);
    } else {
      FailKeeps(core, id, now);
    }
  }

  lemma StopFits(c: Call, b: Books)
    requires CallOk(c, false) && Booked(c, b, false) && c.named && c.recording == Running
    ensures var d := c.(recording := Finalizing); CallOk(d, false) && CallEvolved(c, d) && Booked(d, b, false)
  {}

  lemma FinalizeKeeps(s: State, w: World, id: CallId, keep: Option<Channel>)
    requires CoreOk(s.core, None)
    ensures Keeps(s.core, Finalize(s, w, id, keep).state.core)
    ensures Finalize(s, w, id, keep).state.sessions == s.sessions
    ensures Finalize(s, w, id, keep).ok && id in s.core.calls ==>
              id in Finalize(s, w, id, keep).state.core.calls && Finalize(s, w, id, keep).state.core.calls[id].Over()
  {
    hide BooksOf, CoreOk, Evolved, HangupCallChannels, Close, CallOk, Booked, CallEvolved;
    KeepsSame(s.core);
    if id in s.core.calls && s.core.calls[id].status != Completed {
      KeptAt(s.core, id, None);
      var call := s.core.calls[id];
      if call.named && call.recording == Running {
        var marked := Put(s.core, id, call.(recording := Finalizing));
        StopFits(call, BooksOf(s.core.trace, id));
        PutKeeps(s.core, id, call.(recording := Finalizing), None, None);
        CloseKeeps(marked, id, w.now);
        KeepsThen(s.core, marked, Close(marked, id, w.now));
      } else {
        CloseKeeps(s.core, id, w.now);
      }
    }
  }

  // ---------------------------------------------------------------- joining the two sides

  /** A call may be looked at as the one being joined. */
  lemma OpenUp(core: Core, id: CallId, open: Option<CallId>)
    requires CoreOk(core, open) && id in core.calls && Confined(open, id)
    ensures CoreOk(core, Some(id))
  {
    hide BooksOf, CompletedLate, Mentioned;
    forall other | other in core.calls ensures Kept(core, other, Some(id)) { assert Kept(core, other, open); }
  }

  /** Once it is answered or failed, nothing about the joined call is exceptional any more. */
  lemma CloseUp(core: Core, id: CallId)
    requires CoreOk(core, Some(id)) && id in core.calls && (core.calls[id].answered || core.calls[id].Over())
    ensures CoreOk(core, None)
  {
    hide BooksOf, CompletedLate, Mentioned;
    forall other | other in core.calls ensures Kept(core, other, None) { assert Kept(core, other, Some(id)); }
  }

  lemma BridgeFits(c: Call, b: Books, open: bool)
    requires CallOk(c, open) && Booked(c, b, open) && !c.bridged && !c.Over() && c.customer.Some?
    ensures var d := c.(bridged := true, status := Bridged);
            CallOk(d, true) && CallEvolved(c, d) && Booked(d, After(b, CallBridged), true) && !d.named && d.recording == NoRecording
  {}

  lemma BridgeFailFits(c: Call, b: Books, now: nat, open: bool)
    requires CallOk(c, open) && Booked(c, b, open) && !c.bridged && !c.Over()
    ensures var d := c.(status := Failed, endedAt := Some(now), bridged := false, recording := RecordingFailed);
            CallOk(d, true) && CallEvolved(c, d) && Booked(d, After(b, CallFailed), true)
  {}

  lemma RecordFits(c: Call, b: Books)
    requires CallOk(c, true) && Booked(c, b, true) && c.bridged && c.status == Bridged && c.recording == NoRecording
    ensures var d := c.(named := true, recording := Running); CallOk(d, true) && CallEvolved(c, d) && Booked(d, b, true)
  {}

  lemma RecordFailFits(c: Call, b: Books)
    requires CallOk(c, true) && Booked(c, b, true) && c.named
    ensures var d := c.(recording := RecordingFailed); CallOk(d, true) && CallEvolved(c, d) && Booked(d, After(b, RecordingRefused), true)
  {}

  /** A mark the counts do not look at. */
  lemma PlainNote(core: Core, id: CallId, kind: Kind, open: Option<CallId>)
    requires CoreOk(core, open) && id in core.calls && Confined(open, id) && After(BooksOf(core.trace, id), kind) == BooksOf(core.trace, id)
    requires kind != CallCompleted
    ensures CoreOk(Note(core, id, kind), open) && Evolved(core, Note(core, id, kind))
  {
    hide BooksOf, CoreOk, Evolved, CallOk, Booked, CallEvolved, After;
    KeptAt(core, id, open);
    SelfEvolved(core.calls[id]);
    NoteKeeps(core, id, kind, open, open);
  }

  lemma StartRecordingKeeps(s: State, w: World, id: CallId)
    requires CoreOk(s.core, Some(id)) && id in s.core.calls
    requires s.core.calls[id].bridged && s.core.calls[id].status == Bridged && s.core.calls[id].recording == NoRecording
    ensures var r := StartRecording(s, w, id);
            && CoreOk(r.core, Some(id)) && Evolved(s.core, r.core) && r.sessions == s.sessions
            && id in r.core.calls && r.core.calls[id].bridged && r.core.calls[id].status == Bridged
            && r.core.calls[id].answered == s.core.calls[id].answered
  {
    hide BooksOf, CoreOk, Evolved, CallOk, Booked, CallEvolved;
    var call := s.core.calls[id];
    EvolvedSame(s.core);
    if w.recorder(call.extension).On? {
      var c1 := call.(named := true, recording := Running);
      var core1 := Put(s.core, id, c1);
      KeptAt(s.core, id, Some(id));
      RecordFits(call, BooksOf(s.core.trace, id));
      PutKeeps(s.core, id, c1, Some(id), Some(id));
      KeptAt(core1, id, Some(id));
      RecordFailFits(c1, BooksOf(core1.trace, id));
      SaveKeeps(core1, id, c1.(recording := RecordingFailed), RecordingRefused, Some(id), Some(id));
      EvolvedThen(s.core, core1, Save(core1, id, c1.(recording := RecordingFailed), RecordingRefused));
      RecordingTold(s.core, core1, id);
    }
  }

  lemma RecordingTold(core: Core, started: Core, id: CallId)
    requires Evolved(core, started) && CoreOk(started, Some(id)) && id in started.calls
    ensures var told := Note(started, id, RecordingStarted);
            && CoreOk(told, Some(id)) && Evolved(core, told)
            && CoreOk(Note(told, id, AnnouncementFailed), Some(id)) && Evolved(core, Note(told, id, AnnouncementFailed))
  {
    hide BooksOf, CoreOk, Evolved;
    PlainNote(started, id, RecordingStarted, Some(id));
    var told := Note(started, id, RecordingStarted);
    EvolvedThen(core, started, told);
    PlainNote(told, id, AnnouncementFailed, Some(id));
    EvolvedThen(core, told, Note(told, id, AnnouncementFailed));
  }

  lemma StartBridgeKeeps(s: State, w: World, id: CallId, open: Option<CallId>)
    requires CoreOk(s.core, open) && id in s.core.calls && Confined(open, id)
    requires !s.core.calls[id].Over() && s.core.calls[id].customer.Some?
    ensures var r := StartBridge(s, w, id);
            && CoreOk(r.core, Some(id)) && Evolved(s.core, r.core) && r.sessions == s.sessions
            && (r.core.calls[id].status == Failed || (r.core.calls[id].bridged && !r.core.calls[id].Over()))
  {
    hide BooksOf, CoreOk, Evolved, CallOk, Booked, CallEvolved, HangupCallChannels, BuildBridge, StartRecording;
    var call := s.core.calls[id];
    EvolvedSame(s.core);
    OpenUp(s.core, id, open);
    if !call.bridged {
      KeptAt(s.core, id, open);
      var books := BooksOf(s.core.trace, id);
      BridgeFailFits(call, books, w.now, open == Some(id));
      SaveKeeps(s.core, id, call.(status := Failed, endedAt := Some(w.now), bridged := false, recording := RecordingFailed), CallFailed, open, Some(id));
      BridgeFits(call, books, open == Some(id));
      var bridged := Save(s.core, id, call.(bridged := true, status := Bridged), CallBridged);
      SaveKeeps(s.core, id, call.(bridged := true, status := Bridged), CallBridged, open, Some(id));
      var built := BuildBridge(s, w, id, [CreateBridge(id), AddToBridge(id, call.employee), AddToBridge(id, call.customer.value)]);
      StartRecordingKeeps(built.state.(core := bridged), w, id);
      EvolvedThen(s.core, bridged, StartRecording(built.state.(core := bridged), w, id).core);
    }
  }

  lemma AnswerFits(c: Call, b: Books, now: nat)
    requires CallOk(c, true) && Booked(c, b, true) && c.bridged && !c.Over() && !c.answered
    ensures var d := c.(status := Answered, answered := true, answeredAt := Some(now));
            CallOk(d, false) && CallEvolved(c, d) && Booked(d, After(b, CallAnswered), false)
  {}

  /** Joining ends with the call answered or failed, whichever way the bridge went. */
  lemma JoinKeeps(s: State, w: World, id: CallId, open: Option<CallId>)
    requires CoreOk(s.core, open) && id in s.core.calls && Confined(open, id)
    requires !s.core.calls[id].Over() && s.core.calls[id].customer.Some?
    ensures var r := Join(s, w, id);
            && Keeps(s.core, r.state.core) && r.state.sessions == s.sessions && r.ok
            && id in r.state.core.calls && (r.state.core.calls[id].answered || r.state.core.calls[id].status == Failed)
  {
    hide BooksOf, CoreOk, Evolved, CallOk, Booked, CallEvolved, StartBridge;
    var joined := StartBridge(s, w, id);
    StartBridgeKeeps(s, w, id, open);
    var call := joined.core.calls[id];
    if call.status == Failed || call.answered {
      CloseUp(joined.core, id);
    } else {
      KeptAt(joined.core, id, Some(id));
      AnswerFits(call, BooksOf(joined.core.trace, id), w.now);
      SaveKeeps(joined.core, id, call.(status := Answered, answered := true, answeredAt := Some(w.now)), CallAnswered, Some(id), None);
      EvolvedThen(s.core, joined.core, MarkAnswered(joined, id, w.now).core);
    }
  }

  // ---------------------------------------------------------------- nobody answered

  lemma MissedKeeps(s: State, w: World, id: CallId)
    requires CoreOk(s.core, None) && id in s.core.calls
    ensures var r := Missed(s, w, id);
            && Keeps(s.core, r.state.core) && r.state.sessions == s.sessions
            && (r.ok ==> id in r.state.core.calls && r.state.core.calls[id].Over())
  {
    hide BooksOf, CoreOk, Evolved, Finalize;
    PlainNote(s.core, id, CallMissed, None);
    var told := Note(s.core, id, CallMissed);
    var gone := CancelEach(s.(core := told), w, CustomerOf(s.core.calls[id]));
    FinalizeKeeps(gone.state, w, id, None);
    KeepsThen(s.core, told, Finalize(gone.state, w, id, None).state.core);
  }

  lemma VoicemailKeeps(s: State, w: World, id: CallId, mailbox: string)
    requires CoreOk(s.core, None) && id in s.core.calls
    ensures var r := Voicemail(s, w, id, mailbox);
            && Keeps(s.core, r.state.core) && r.state.sessions == s.sessions
            && (r.ok ==> id in r.state.core.calls && r.state.core.calls[id].Over())
  {
    hide BooksOf, CoreOk, Evolved, Finalize;
    var call := s.core.calls[id];
    var asked := Ask(s, Continue(call.customer.GetOr(Foreign("")), mailbox));
    KeepsSame(s.core);
    PlainNote(s.core, id, CallVoicemail, None);
    var told := asked.(core := Note(s.core, id, CallVoicemail));
    FinalizeKeeps(told, w, id, call.customer);
    KeepsThen(s.core, told.core, Finalize(told, w, id, call.customer).state.core);
    var gone := CancelEach(asked, w, CustomerOf(call));
    FinalizeKeeps(gone.state, w, id, None);
  }

  /** The counts leave room for one more forward leg of this call, and for one more round if it may have one. */
  predicate Room(c: Call, b: Books) {
    && (c.status != RingingFallback && c.status != Forwarding ==> b.rounds <= b.interrupted + b.reopened)
    && (c.status != Forwarding ==> b.forwards <= b.interrupted + b.reopened)
    && (b.strayed == 0 && c.status != Forwarding ==> b.forwards == 0)
    && (b.strayed == 0 && c.status != RingingFallback && c.status != Forwarding ==> b.rounds <= b.interrupted)
  }

  lemma RoomAtRest(c: Call, b: Books)
    requires CallOk(c, false) && Booked(c, b, false) && !c.Over() && !c.answered
    ensures Room(c, b)
  {}

  lemma ReopenFits(c: Call, b: Books)
    requires CallOk(c, false) && Booked(c, b, false) && c.answered && b.menus > 0
    ensures Booked(c, After(b, Reopened), false) && Room(c, After(b, Reopened))
  {}

  /** A menu choice on an answered call is only ever made in a menu. */
  lemma ReopenKeeps(s: State, id: CallId)
    requires CoreOk(s.core, None) && id in s.core.calls && BooksOf(s.core.trace, id).menus > 0
    ensures var r := Reopen(s, id);
            && Keeps(s.core, r.core) && r == s.(core := r.core) && r.core.calls == s.core.calls
            && (!s.core.calls[id].Over() ==> Room(r.core.calls[id], BooksOf(r.core.trace, id)))
  {
    hide BooksOf, CoreOk, Evolved, CallOk, Booked, CallEvolved, After, Room;
    KeptAt(s.core, id, None);
    KeepsSame(s.core);
    OverIsEnded(s.core, id);
    var call, books := s.core.calls[id], BooksOf(s.core.trace, id);
    if call.answered && call.endedAt.None? {
      ReopenFits(call, books);
      SelfEvolved(call);
      NoteKeeps(s.core, id, Reopened, None, None);
      BooksAppend(s.core.trace, Entry(id, Reopened), id);
    } else if !call.Over() {
      RoomAtRest(call, books);
    }
  }

  lemma ForwardFits(c: Call, b: Books, employee: Channel, rung: seq<Leg>)
    requires CallOk(c, false) && Booked(c, b, false) && Room(c, b) && c.inbound && !c.Over() && c.status != Forwarding && |rung| == 1
    ensures var d := c.(status := Forwarding, employee := employee, rung := rung);
            CallOk(d, false) && CallEvolved(c, d) && Booked(d, After(b, CallForwarding), false)
  {}

  lemma ForwardKeeps(s: State, w: World, id: CallId, phone: string)
    requires CoreOk(s.core, None) && id in s.core.calls && s.core.calls[id].inbound && !s.core.calls[id].Over()
    requires s.core.calls[id].status != Forwarding && Room(s.core.calls[id], BooksOf(s.core.trace, id))
    ensures var r := Forward(s, w, id, phone);
            && Keeps(s.core, r.state.core) && r.state.sessions == s.sessions
            && (if r.ok then id in r.state.core.calls && r.state.core.calls[id].status == Forwarding else r.state.core == s.core)
  {
    hide BooksOf, CoreOk, Evolved, CallOk, Booked, CallEvolved, After, Room;
    KeepsSame(s.core);
    KeptAt(s.core, id, None);
    var call, channel := s.core.calls[id], Customer(id, 1);
    ForwardFits(call, BooksOf(s.core.trace, id), channel, [Leg(channel, call.extension)]);
    SaveKeeps(s.core, id, call.(status := Forwarding, employee := channel, rung := [Leg(channel, call.extension)]), CallForwarding, None, None);
  }

  lemma RoundFits(c: Call, b: Books, d: Call)
    requires CallOk(c, false) && Booked(c, b, false) && Room(c, b) && c.inbound && !c.Over()
    requires c.status != RingingFallback && c.status != Forwarding
    requires d == c.(status := RingingFallback, employee := d.employee, extension := d.extension, rung := d.rung)
    ensures CallOk(d, false) && CallEvolved(c, d) && Booked(d, After(b, FallbackRound), false) && Room(d, After(b, FallbackRound))
  {}

  lemma RoundKeeps(core: Core, id: CallId, d: Call)
    requires CoreOk(core, None) && id in core.calls && core.calls[id].inbound && !core.calls[id].Over()
    requires Room(core.calls[id], BooksOf(core.trace, id))
    requires core.calls[id].status != RingingFallback && core.calls[id].status != Forwarding
    requires d == core.calls[id].(status := RingingFallback, employee := d.employee, extension := d.extension, rung := d.rung)
    ensures var next := Save(core, id, d, FallbackRound);
            Keeps(core, next) && Room(d, BooksOf(next.trace, id)) && next.calls[id] == d
  {
    hide BooksOf, CoreOk, Evolved, CallOk, Booked, CallEvolved, After, Room;
    KeptAt(core, id, None);
    RoundFits(core.calls[id], BooksOf(core.trace, id), d);
    SaveKeeps(core, id, d, FallbackRound, None, None);
    BooksAppend(core.trace, Entry(id, FallbackRound), id);
  }

  /** Going through the no-answer path raises the rank of a call nobody answered. */
  predicate Raised(a: Core, b: Core, id: CallId) {
    id in a.calls && id in b.calls && Rank(b.calls[id].status) > Rank(a.calls[id].status)
  }

  lemma LowRank(core: Core, id: CallId)
    requires CoreOk(core, None) && id in core.calls && !core.calls[id].Over() && !core.calls[id].answered
    ensures Rank(core.calls[id].status) <= 2
  {
    KeptAt(core, id, None);
  }

  lemma {:induction false} NoAnswerKeeps(s: State, w: World, id: CallId, plan: Plan)
    requires CoreOk(s.core, None)
    requires id in s.core.calls ==>
               s.core.calls[id].inbound && (!s.core.calls[id].Over() ==> Room(s.core.calls[id], BooksOf(s.core.trace, id)))
    ensures var r := NoAnswer(s, w, id, plan);
            && Keeps(s.core, r.state.core) && r.state.sessions == s.sessions
            && (r.ok && id in s.core.calls && !s.core.calls[id].Over() && !s.core.calls[id].answered ==> Raised(s.core, r.state.core, id))
    decreases if MayFallBack(s, id) then 1 else 0, 1
  {
    hide BooksOf, CoreOk, Evolved, CallOk, Booked, CallEvolved, After, Room, Finalize, Missed, Voicemail, Forward, RingFallbacks;
    KeepsSame(s.core);
    if id in s.core.calls {
      OverIsEnded(s.core, id);
      var call := s.core.calls[id];
      if call.endedAt.None? {
        if !call.answered { LowRank(s.core, id); }
        if MayFallBack(s, id) && plan.fallbacks != [] {
          RingFallbacksKeeps(s, w, id, plan);
        } else if plan.mailbox != "" {
          VoicemailKeeps(s, w, id, plan.mailbox);
        } else if call.status != Forwarding && plan.forward != "" {
          ForwardKeeps(s, w, id, plan.forward);
          MissedKeeps(Forward(s, w, id, plan.forward).state, w, id);
        } else {
          MissedKeeps(s, w, id);
        }
      }
    }
  }

  /** A call nobody answered may always enter the no-answer path. */
  lemma UnansweredKeeps(s: State, w: World, id: CallId, plan: Plan)
    requires CoreOk(s.core, None) && (id in s.core.calls ==> s.core.calls[id].inbound && !s.core.calls[id].answered)
    ensures var r := NoAnswer(s, w, id, plan);
            && Keeps(s.core, r.state.core) && r.state.sessions == s.sessions
            && (r.ok && id in s.core.calls && !s.core.calls[id].Over() ==> Raised(s.core, r.state.core, id))
  {
    hide BooksOf, CoreOk, Evolved, CallOk, Booked, Room, NoAnswer;
    if id in s.core.calls && !s.core.calls[id].Over() {
      KeptAt(s.core, id, None);
      RoomAtRest(s.core.calls[id], BooksOf(s.core.trace, id));
    }
    NoAnswerKeeps(s, w, id, plan);
  }

  lemma OverIsEnded(core: Core, id: CallId)
    requires CoreOk(core, None) && id in core.calls
    ensures core.calls[id].Over() <==> core.calls[id].endedAt.Some?
  {
    KeptAt(core, id, None);
  }

  lemma {:induction false} RingFallbacksKeeps(s: State, w: World, id: CallId, plan: Plan)
    requires CoreOk(s.core, None) && MayFallBack(s, id) && plan.fallbacks != []
    requires s.core.calls[id].inbound && !s.core.calls[id].Over()
    requires Room(s.core.calls[id], BooksOf(s.core.trace, id))
    ensures var r := RingFallbacks(s, w, id, plan);
            && Keeps(s.core, r.state.core) && r.state.sessions == s.sessions
            && (r.ok && !s.core.calls[id].answered ==> id in r.state.core.calls && Rank(r.state.core.calls[id].status) >= 1)
    decreases 1, 0
  {
    hide BooksOf, CoreOk, Evolved, CallOk, Booked, CallEvolved, Room, NoAnswer, TargetsApart, RingEach, Forget;
    var call := s.core.calls[id];
    var next := w.desk(plan.(destinations := plan.fallbacks), plan.fallbacks, call.number, OfExtension(plan.fallbacks[0]));
    var round := RingEach(s, w, id, TargetsApart(w, next.destinations, call.number), ByRound, []);
    if round.legs == [] {
      var d := call.(extension := plan.fallbacks[0], status := RingingFallback);
      RoundKeeps(s.core, id, d);
      var written := round.state.(core := Save(s.core, id, d, FallbackRound));
      NoAnswerKeeps(written, w, id, next);
      KeepsThen(s.core, written.core, NoAnswer(written, w, id, next).state.core);
    } else {
      var legs := round.legs;
      var d := call.(status := RingingFallback, employee := legs[0].channel, extension := legs[0].extension, rung := call.rung + legs);
      RoundKeeps(s.core, id, d);
      var written := Save(s.core, id, d, FallbackRound);
      PlainNote(written, id, EmployeeRinging, None);
      KeepsThen(s.core, written, Note(written, id, EmployeeRinging));
    }
  }

  // ---------------------------------------------------------------- starting calls

  /** A rewrite that only changes which devices ring, and for whom. */
  predicate SameButLegs(c: Call, d: Call) { d == c.(extension := d.extension, employee := d.employee, rung := d.rung) }

  lemma LegsFit(c: Call, b: Books, d: Call, kind: Kind)
    requires CallOk(c, false) && Booked(c, b, false) && SameButLegs(c, d) && b.menus > 0
    requires kind == MenuSelected || kind == MenuFallback
    ensures CallOk(d, false) && CallEvolved(c, d) && Booked(d, After(b, kind), false)
    ensures d.rung == c.rung ==> Booked(d, b, false)
  {}

  lemma LegsKeep(core: Core, id: CallId, d: Call, kind: Kind)
    requires CoreOk(core, None) && id in core.calls && SameButLegs(core.calls[id], d)
    requires kind == MenuSelected || kind == MenuFallback
    requires BooksOf(core.trace, id).menus > 0
    ensures Keeps(core, Save(core, id, d, kind))
    ensures d.rung == core.calls[id].rung ==> Keeps(core, Put(core, id, d))
  {
    hide BooksOf, CoreOk, Evolved, CallOk, Booked, CallEvolved, After;
    KeptAt(core, id, None);
    LegsFit(core.calls[id], BooksOf(core.trace, id), d, kind);
    if d.rung == core.calls[id].rung { PutKeeps(core, id, d, None, None); }
    SaveKeeps(core, id, d, kind, None, None);
  }

  /** The first round of an incoming call that has only been noted so far. */
  lemma FirstLegsKeep(core: Core, id: CallId, d: Call)
    requires CoreOk(core, None) && id in core.calls && SameButLegs(core.calls[id], d) && core.calls[id].status != Forwarding
    ensures Keeps(core, Put(core, id, d))
  {
    hide BooksOf, CoreOk, Evolved, CallOk, CallEvolved;
    KeptAt(core, id, None);
    FirstLegsFit(core.calls[id], BooksOf(core.trace, id), d);
    PutKeeps(core, id, d, None, None);
  }

  lemma FirstLegsFit(c: Call, b: Books, d: Call)
    requires CallOk(c, false) && Booked(c, b, false) && SameButLegs(c, d) && c.status != Forwarding
    ensures CallOk(d, false) && CallEvolved(c, d) && Booked(d, b, false)
  {}

  lemma RingingFits(c: Call, b: Books, rung: seq<Leg>)
    requires CallOk(c, false) && Booked(c, b, false) && c.status == Initiated && !c.inbound
    ensures var d := c.(status := Ringing, rung := rung);
            CallOk(d, false) && CallEvolved(c, d) && Booked(d, b, false)
  {}

  lemma StartOutboundKeeps(s: State, w: World, id: CallId, extension: string, phone: string, number: string)
    requires CoreOk(s.core, None)
    ensures var r := StartOutbound(s, w, id, extension, phone, number);
            Keeps(s.core, r.state.core) && r.state.sessions == s.sessions
  {
    hide BooksOf, CoreOk, Evolved, Booked, CallEvolved, RingEach, Create;
    KeepsSame(s.core);
    if id !in s.core.calls {
      var call := Call(false, extension, phone, number, Initiated, false, None, None, Employee(id, 0), [], None, false, false, NoRecording);
      var core := Create(s.core, id, call);
      CreateKeeps(s.core, id, call);
      FailKeeps(core, id, w.now);
      KeepsThen(s.core, core, Save(core, id, call.(status := Failed, endedAt := Some(w.now)), CallFailed));
      var round := RingEach(s.(core := core), w, id, TargetsOf(extension, w.endpoints(extension, number), 0), ByPlace, []);
      KeptAt(core, id, None);
      RingingFits(call, BooksOf(core.trace, id), round.legs);
      SaveKeeps(core, id, call.(rung := round.legs, status := Ringing), CallRinging, None, None);
      EvolvedThen(s.core, core, Save(core, id, call.(rung := round.legs, status := Ringing), CallRinging));
    }
  }

  // ---------------------------------------------------------------- the menu

  /** Every open menu belongs to an incoming call that is told to have one, and its session is sound. */
  predicate SessionOk(core: Core, session: MenuSession) {
    && session.call in core.calls && core.calls[session.call].inbound
    && BooksOf(core.trace, session.call).menus > 0
    && IvrMenu.Sound(session.menu, session.state)
  }

  predicate SessionsOk(sessions: map<Channel, MenuSession>, core: Core) {
    forall channel :: channel in sessions ==> SessionOk(core, sessions[channel])
  }

  predicate Sane(s: State) { CoreOk(s.core, None) && SessionsOk(s.sessions, s.core) }

  lemma SessionFollows(a: Core, b: Core, session: MenuSession)
    requires SessionOk(a, session) && Evolved(a, b)
    ensures SessionOk(b, session)
  {
    BooksGrow(a.trace, b.trace, session.call);
  }

  /** Handlers that open no menu leave the open ones in order. */
  lemma SaneFollows(s: State, t: State)
    requires Sane(s) && Keeps(s.core, t.core)
    requires forall channel :: channel in t.sessions ==> channel in s.sessions && t.sessions[channel] == s.sessions[channel]
    ensures Sane(t)
  {
    hide Evolved, CoreOk, SessionOk;
    forall channel | channel in t.sessions ensures SessionOk(t.core, t.sessions[channel]) {
      SessionFollows(s.core, t.core, s.sessions[channel]);
    }
  }

  /** A menu's session is replaced by a sound one of the same call. */
  lemma SessionReplaced(s: State, t: State, channel: Channel, session: MenuSession)
    requires Sane(s) && SessionOk(s.core, session) && t.core == s.core && t.sessions == s.sessions[channel := session]
    ensures Sane(t)
  {}

  lemma OpenMenuKeeps(s: State, w: World, id: CallId, channel: Channel, plan: Plan)
    requires Sane(s) && id in s.core.calls && s.core.calls[id].inbound
    ensures Sane(OpenMenu(s, w, id, channel, plan)) && Evolved(s.core, OpenMenu(s, w, id, channel, plan).core)
  {
    hide CoreOk, Evolved, SessionsOk, BooksOf, CallOk, Booked, CallEvolved;
    KeptAt(s.core, id, None);
    MenuFits(s.core.calls[id], BooksOf(s.core.trace, id));
    SelfEvolved(s.core.calls[id]);
    NoteKeeps(s.core, id, MenuOpened, None, None);
    BooksAppend(s.core.trace, Entry(id, MenuOpened), id);
    var told := s.(core := Note(s.core, id, MenuOpened));
    SaneFollows(s, told);
    var after := OpenMenu(s, w, id, channel, plan);
    var session := after.sessions[channel];
    SessionReplaced(told, after, channel, session);
  }

  lemma MenuFits(c: Call, b: Books)
    requires Booked(c, b, false)
    ensures Booked(c, After(b, MenuOpened), false)
  {}

  lemma CreateInboundKeeps(s: State, id: CallId, call: Call)
    requires Sane(s) && id !in s.core.calls
    requires CallOk(call, false) && !call.answered && !call.Over() && call.status != Forwarding
    ensures Sane(s.(core := Create(s.core, id, call))) && Evolved(s.core, Create(s.core, id, call))
    ensures Create(s.core, id, call).calls == s.core.calls[id := call]
  {
    hide CoreOk, Evolved, SessionsOk, CallOk;
    CreateKeeps(s.core, id, call);
    SaneFollows(s, s.(core := Create(s.core, id, call)));
  }

  lemma SaneThen(s: State, t: State, u: State)
    requires Sane(t) && Evolved(s.core, t.core) && Keeps(t.core, u.core)
    requires forall channel :: channel in u.sessions ==> channel in t.sessions && u.sessions[channel] == t.sessions[channel]
    ensures Sane(u) && Evolved(s.core, u.core)
  {
    SaneFollows(t, u);
    EvolvedThen(s.core, t.core, u.core);
  }

  lemma RingInboundKeeps(s: State, w: World, id: CallId, plan: Plan)
    requires Sane(s) && id in s.core.calls && s.core.calls[id].inbound && !s.core.calls[id].answered && s.core.calls[id].status != Forwarding
    ensures Keeps(s.core, RingInbound(s, w, id, plan).state.core) && RingInbound(s, w, id, plan).state.sessions == s.sessions
  {
    hide CoreOk, Evolved, SessionsOk, NoAnswer, RingEach, BooksOf, TargetsThrough, Booked, CallEvolved;
    PlainNote(s.core, id, EmployeeRinging, None);
    var told := Note(s.core, id, EmployeeRinging);
    var round := RingEach(s.(core := told), w, id, TargetsThrough(w, plan.destinations, s.core.calls[id].number, 0), ByPlace, []);
    if round.legs == [] {
      UnansweredKeeps(round.state, w, id, plan);
      KeepsThen(s.core, told, NoAnswer(round.state, w, id, plan).state.core);
    } else {
      var d := s.core.calls[id].(employee := round.legs[0].channel, rung := round.legs);
      FirstLegsKeep(told, id, d);
      KeepsThen(s.core, told, Put(told, id, d));
    }
  }

  lemma StartInboundKeeps(s: State, w: World, channel: Channel, did: string, extension: string, caller: string, id: CallId)
    requires Sane(s)
    ensures var r := StartInbound(s, w, channel, did, extension, caller, id); Sane(r.state) && Evolved(s.core, r.state.core)
  {
    hide CoreOk, Evolved, Sane, OpenMenu, Create, FindByChannel, BooksOf, RingInbound, Booked, CallEvolved;
    EvolvedSame(s.core);
    if w.admit(did, extension).Some? && id !in s.core.calls {
      var line := w.admit(did, extension).value;
      var call := Call(true, line.extension, caller, line.number, Ringing, false, None, None, Employee(id, 0), [], Some(channel), false, false, NoRecording);
      var s1 := s.(core := Create(s.core, id, call));
      CreateInboundKeeps(s, id, call);
      var plan := w.journey(line.number, line.extension);
      if plan.menu {
        OpenMenuKeeps(s1, w, id, channel, plan);
        EvolvedThen(s.core, s1.core, OpenMenu(s1, w, id, channel, plan).core);
      } else {
        RingInboundKeeps(s1, w, id, plan);
        SaneThen(s, s1, RingInbound(s1, w, id, plan).state);
      }
    } else {
      SaneAlike(s, StartInbound(s, w, channel, did, extension, caller, id).state);
    }
  }

  lemma SaneParts(s: State)
    requires Sane(s)
    ensures CoreOk(s.core, None) && SessionsOk(s.sessions, s.core)
  {}

  lemma SaneAlike(s: State, t: State)
    requires Sane(s) && t.core == s.core && t.sessions == s.sessions
    ensures Sane(t)
  {}

  /** A chosen extension is rung, or the no-answer path runs; either way the call is only evolved. */
  lemma DialChosenKeeps(s: State, w: World, session: MenuSession, key: string)
    requires CoreOk(s.core, None) && SessionOk(s.core, session)
    ensures Keeps(s.core, DialChosen(s, w, session, key).state.core) && DialChosen(s, w, session, key).state.sessions == s.sessions
  {
    hide CoreOk, Evolved, BooksOf, NoAnswer, RingEach, Booked, CallEvolved, CallOk, Reopen, Room;
    var id := session.call;
    var call := s.core.calls[id].(extension := key);
    LegsKeep(s.core, id, call, MenuSelected);
    var chosen := Put(s.core, id, call);
    var plan := w.desk(session.plan.(destinations := [key]), [key], session.number, OfExtension(key));
    var targets := if plan.destinations == [] then [] else TargetsOf(key, w.endpoints(key, session.number), 0);
    var round := RingEach(s.(core := chosen), w, id, targets, ByPlace, []);
    if round.legs == [] {
      var reopened := Reopen(round.state, id);
      ReopenKeeps(round.state, id);
      NoAnswerKeeps(reopened, w, id, plan);
      KeepsThen(chosen, reopened.core, NoAnswer(reopened, w, id, plan).state.core);
      KeepsThen(s.core, chosen, NoAnswer(reopened, w, id, plan).state.core);
    } else {
      var d := call.(employee := round.legs[0].channel, rung := round.legs);
      LegsKeep(chosen, id, d, MenuSelected);
      KeepsThen(s.core, chosen, Save(chosen, id, d, MenuSelected));
    }
  }

  lemma NoChoiceKeeps(s: State, w: World, session: MenuSession)
    requires CoreOk(s.core, None) && SessionOk(s.core, session)
    ensures Keeps(s.core, NoChoice(s, w, session).state.core) && NoChoice(s, w, session).state.sessions == s.sessions
  {
    hide CoreOk, Evolved, BooksOf, NoAnswer, RingEach, Booked, CallEvolved, CallOk, TargetsThrough, DialChosen, Reopen, Room;
    var id := session.call;
    if session.plan.fallback != "" {
      DialChosenKeeps(Ask(s, StopPrompt(id, session.state.tries)), w, session, session.plan.fallback);
    } else {
      var call := s.core.calls[id];
      var rest := session.plan.fallbackDestinations;
      var plan := w.desk(session.plan.(destinations := rest), rest, session.number, OfNumber(session.number));
      var round := RingEach(s, w, id, TargetsThrough(w, plan.destinations, session.number, 0), ByPlace, []);
      if round.legs == [] {
        var reopened := Reopen(round.state, id);
        ReopenKeeps(round.state, id);
        NoAnswerKeeps(reopened, w, id, plan);
        KeepsThen(s.core, reopened.core, NoAnswer(reopened, w, id, plan).state.core);
      } else {
        var d := call.(extension := round.legs[0].extension, employee := round.legs[0].channel, rung := round.legs);
        LegsKeep(s.core, id, d, MenuFallback);
      }
    }
  }

  lemma ConcludeKeeps(s: State, w: World, channel: Channel, session: MenuSession, outcome: IvrMenu.Outcome)
    requires Sane(s) && SessionOk(s.core, session)
    requires match outcome
             case Open(next) => IvrMenu.Sound(session.menu, next)
             case Prompted(next) => IvrMenu.Sound(session.menu, next)
             case _ => true
    ensures var r := Conclude(s, w, channel, session, outcome); Sane(r.state) && Evolved(s.core, r.state.core)
  {
    hide CoreOk, Evolved, SessionsOk, BooksOf, DialChosen, NoChoice, IvrMenu.Sound;
    EvolvedSame(s.core);
    var r := Conclude(s, w, channel, session, outcome);
    match outcome
    case Open(next) => SessionReplaced(s, r.state, channel, session.(state := next));
    case Prompted(next) => SessionReplaced(s, r.state, channel, session.(state := next));
    case Dialled(key) =>
      DialChosenKeeps(Leave(s, channel, session), w, session, key);
      SaneFollows(s, r.state);
    case GaveUp(_) =>
      NoChoiceKeeps(Leave(s, channel, session), w, session);
      SaneFollows(s, r.state);
  }

  lemma PressDigitKeeps(s: State, w: World, channel: Channel, digit: string)
    requires Sane(s)
    ensures var r := PressDigit(s, w, channel, digit); Sane(r.state) && Evolved(s.core, r.state.core)
  {
    hide CoreOk, Evolved, BooksOf, Conclude, IvrMenu.Press;
    EvolvedSame(s.core);
    if channel in s.sessions {
      var session := Filled(w, s.sessions[channel]);
      assert SessionOk(s.core, s.sessions[channel]);
      MenuKeepsSound(session, IvrMenu.Pressed(digit, w.now));
      ConcludeKeeps(s, w, channel, session, IvrMenu.Press(session.menu, session.state, digit, w.now));
    }
  }

  lemma MenuKeepsSound(session: MenuSession, input: IvrMenu.Input)
    requires IvrMenu.Sound(session.menu, session.state)
    ensures match IvrMenu.Step(session.menu, session.state, input)
            case Open(next) => IvrMenu.Sound(session.menu, next)
            case Prompted(next) => IvrMenu.Sound(session.menu, next)
            case _ => true
  {
    hide IvrMenu.Press, IvrMenu.Tick;
    IvrMenu.StepKeepsSound(session.menu, session.state, input);
  }

  lemma TickOneKeeps(s: State, w: World, channel: Channel)
    requires Sane(s)
    ensures var r := TickOne(s, w, channel); Sane(r.state) && Evolved(s.core, r.state.core)
  {
    hide CoreOk, Evolved, BooksOf, Conclude, IvrMenu.Tick;
    EvolvedSame(s.core);
    if channel in s.sessions && IvrMenu.Due(s.sessions[channel].state, w.now) {
      assert SessionOk(s.core, s.sessions[channel]);
      var session := if s.sessions[channel].state.digits == "" then s.sessions[channel] else Filled(w, s.sessions[channel]);
      MenuKeepsSound(session, IvrMenu.Clock(w.now));
      ConcludeKeeps(s, w, channel, session, IvrMenu.Tick(session.menu, session.state, w.now));
    }
  }

  lemma {:induction false} TickEachKeeps(s: State, w: World, channels: seq<Channel>)
    requires Sane(s)
    ensures var r := TickEach(s, w, channels); Sane(r.state) && Evolved(s.core, r.state.core)
    decreases |channels|
  {
    hide Sane, Evolved, TickOne;
    EvolvedSame(s.core);
    if channels != [] {
      var moved := TickOne(s, w, channels[0]);
      TickOneKeeps(s, w, channels[0]);
      TickEachKeeps(moved.state, w, channels[1..]);
      EvolvedThen(s.core, moved.state.core, TickEach(moved.state, w, channels[1..]).state.core);
    }
  }

  // ---------------------------------------------------------------- picking up

  lemma DiallingFits(c: Call, b: Books, customer: Channel)
    requires CallOk(c, false) && Booked(c, b, false) && !c.Over() && !c.inbound && c.customer.None?
    ensures var d := c.(customer := Some(customer), status := DialingCustomer);
            CallOk(d, false) && CallEvolved(c, d) && Booked(d, After(b, CustomerDialing), false)
  {}

  lemma StartCustomerKeeps(s: State, w: World, id: CallId)
    requires CoreOk(s.core, None) && id in s.core.calls
    ensures Keeps(s.core, StartCustomer(s, w, id).state.core) && StartCustomer(s, w, id).state.sessions == s.sessions
  {
    hide CoreOk, Evolved, BooksOf, Booked, CallEvolved, CallOk, PlaceEach;
    KeepsSame(s.core);
    KeptAt(s.core, id, None);
    var call := s.core.calls[id];
    if call.customer.None? && !call.Over() {
      NoCustomerIsOutbound(call);
      FailKeeps(s.core, id, w.now);
      DiallingFits(call, BooksOf(s.core.trace, id), Customer(id, 0));
      var dialling := Dialling(s, id);
      SaveKeeps(s.core, id, call.(customer := Some(Customer(id, 0)), status := DialingCustomer), CustomerDialing, None, None);
      FailKeeps(dialling.core, id, w.now);
      var failed := dialling.core.calls[id].(status := Failed, endedAt := Some(w.now));
      KeepsThen(s.core, dialling.core, Save(dialling.core, id, failed, CallFailed));
    }
  }

  lemma NoCustomerIsOutbound(c: Call)
    requires CallOk(c, false) && c.customer.None?
    ensures !c.inbound
  {}

  lemma PickUpFits(c: Call, b: Books, d: Call)
    requires CallOk(c, false) && Booked(c, b, false) && !c.Over()
    requires d == c.(status := EmployeeAnswered, employee := d.employee, extension := d.extension)
    ensures CallOk(d, true) && CallEvolved(c, d) && Booked(d, After(b, EmployeePickedUp), true)
    ensures !c.inbound ==> CallOk(d, false) && Booked(d, After(b, EmployeePickedUp), false)
  {}

  lemma SameCounts(b: Books, kind: Kind)
    requires kind == EmployeePickedUp
    ensures After(b, kind) == b
  {}

  lemma InterruptFits(c: Call, b: Books)
    requires CallOk(c, true) && Booked(c, b, true) && (c.bridged ==> c.answered)
    requires b.strayed == 0 && !c.answered ==> b.forwards == 0
    requires c.status == EmployeeAnswered
    ensures CallOk(c, false) && Booked(c, After(b, PickUpInterrupted), false)
  {}

  lemma {:induction false} OnlyNone(channels: seq<Channel>, p: Channel -> bool)
    requires forall c :: c in channels ==> !p(c)
    ensures Only(channels, p) == []
  {
    if channels != [] { OnlyNone(channels[1..], p); }
  }

  /** With the forward leg the only one rung, its pick-up has no other device to stop: it is never cut short. */
  lemma ForwardLegIsAlone(s: State, w: World, c: Call, channel: Channel)
    requires |c.rung| == 1 && channel in Channels(c.Legs())
    ensures CancelEach(s, w, Without(Channels(c.Legs()), channel)).ok
  {
    var channels := Channels(c.Legs());
    assert channels == [channel];
    OnlyNone(channels, c => c != channel);
  }

  /** Before its pick-up a call whose menu did not stray has been forwarded only if it is being forwarded now. */
  lemma NotForwardedYet(c: Call, b: Books)
    requires CallOk(c, false) && Booked(c, b, false) && !c.Over() && b.strayed == 0 && !c.answered
    ensures c.status != Forwarding ==> b.forwards == 0
    ensures c.status == Forwarding ==> |c.rung| == 1
  {}

  lemma PickUpKeeps(s: State, w: World, id: CallId, channel: Channel)
    requires CoreOk(s.core, None) && id in s.core.calls && s.core.calls[id].inbound && !s.core.calls[id].Over()
    requires channel in Channels(s.core.calls[id].Legs())
    ensures var r := PickUp(s, w, id, channel);
            && Keeps(s.core, r.state.core) && r.state.sessions == s.sessions
            && (r.ok ==> id in r.state.core.calls && (r.state.core.calls[id].answered || r.state.core.calls[id].status == Failed))
  {
    hide CoreOk, Evolved, BooksOf, Booked, CallEvolved, CallOk, Join, After, Only;
    KeptAt(s.core, id, None);
    var call, books := s.core.calls[id], BooksOf(s.core.trace, id);
    var d := call.(status := EmployeeAnswered, employee := channel, extension := ExtensionOf(call.Legs(), channel, call.extension));
    PickUpFits(call, BooksOf(s.core.trace, id), d);
    InboundFacts(call);
    SaveKeeps(s.core, id, d, EmployeePickedUp, None, Some(id));
    var taken := s.(core := Save(s.core, id, d, EmployeePickedUp));
    var cancelled := CancelEach(taken, w, Without(Channels(call.Legs()), channel));
    if cancelled.ok {
      JoinKeeps(cancelled.state, w, id, Some(id));
      KeepsThen(s.core, taken.core, Join(cancelled.state, w, id).state.core);
    } else {
      KeptAt(taken.core, id, Some(id));
      BooksAppend(s.core.trace, Entry(id, EmployeePickedUp), id);
      SameCounts(books, EmployeePickedUp);
      if books.strayed == 0 && !call.answered {
        NotForwardedYet(call, books);
        if call.status == Forwarding { ForwardLegIsAlone(taken, w, call, channel); }
      }
      InterruptFits(d, BooksOf(taken.core.trace, id));
      SelfEvolved(d);
      NoteKeeps(taken.core, id, PickUpInterrupted, Some(id), None);
      KeepsThen(s.core, taken.core, Note(taken.core, id, PickUpInterrupted));
    }
  }

  lemma InboundFacts(c: Call)
    requires CallOk(c, false)
    ensures c.inbound ==> c.customer.Some?
    ensures c.bridged && !c.Over() ==> c.answered
  {}

  lemma PickUpPanelKeeps(s: State, w: World, id: CallId, channel: Channel)
    requires CoreOk(s.core, None) && id in s.core.calls && !s.core.calls[id].inbound && !s.core.calls[id].Over()
    ensures Keeps(s.core, PickUpPanel(s, w, id, channel).state.core) && PickUpPanel(s, w, id, channel).state.sessions == s.sessions
  {
    hide CoreOk, Evolved, BooksOf, Booked, CallEvolved, CallOk, StartCustomer, Only;
    KeepsSame(s.core);
    KeptAt(s.core, id, None);
    var call := s.core.calls[id];
    var cancelled := CancelEach(s, w, Without(Channels(call.Legs()), channel));
    if cancelled.ok {
      var d := call.(status := EmployeeAnswered, employee := channel);
      PickUpFits(call, BooksOf(s.core.trace, id), d);
      SaveKeeps(s.core, id, d, EmployeePickedUp, None, None);
      var taken := cancelled.state.(core := Save(s.core, id, d, EmployeePickedUp));
      StartCustomerKeeps(taken, w, id);
      KeepsThen(s.core, taken.core, StartCustomer(taken, w, id).state.core);
    }
  }

  lemma CustomerFits(c: Call, b: Books, customer: Channel)
    requires CallOk(c, false) && Booked(c, b, false)
    ensures var d := c.(customer := Some(customer)); CallOk(d, false) && CallEvolved(c, d) && Booked(d, b, false)
  {}

  lemma FarSideUpKeeps(s: State, w: World, id: CallId, channel: Channel)
    requires CoreOk(s.core, None) && id in s.core.calls && !s.core.calls[id].Over()
    ensures Keeps(s.core, FarSideUp(s, w, id, channel).state.core) && FarSideUp(s, w, id, channel).state.sessions == s.sessions
  {
    hide CoreOk, Evolved, BooksOf, Booked, CallEvolved, CallOk, Join, FarSide;
    KeepsSame(s.core);
    KeptAt(s.core, id, None);
    var call := s.core.calls[id];
    var cancelled := CancelEach(Ask(s, ListChannels), w, FarSide(s, w, id, call, Some(channel)));
    if cancelled.ok {
      var d := call.(customer := Some(channel));
      CustomerFits(call, BooksOf(s.core.trace, id), channel);
      PutKeeps(s.core, id, d, None, None);
      var met := cancelled.state.(core := Put(s.core, id, d));
      JoinKeeps(met, w, id, None);
      KeepsThen(s.core, met.core, Join(met, w, id).state.core);
    }
  }

  // ---------------------------------------------------------------- events

  lemma HandleUpKeeps(s: State, w: World, channel: Channel)
    requires CoreOk(s.core, None)
    ensures Keeps(s.core, HandleUp(s, w, channel).state.core) && HandleUp(s, w, channel).state.sessions == s.sessions
  {
    hide CoreOk, Evolved, BooksOf, CallForChannel, PickUp, PickUpPanel, FarSideUp;
    KeepsSame(s.core);
    match CallForChannel(s, channel)
    case None =>
    case Some(id) =>
      KeptAt(s.core, id, None);
      var call := s.core.calls[id];
      if !call.Over() {
        if call.inbound && channel in Channels(call.Legs()) { PickUpKeeps(s, w, id, channel); }
        if !call.inbound { PickUpPanelKeeps(s, w, id, channel); }
        FarSideUpKeeps(s, w, id, channel);
      }
  }

  lemma RungOutKeeps(s: State, w: World, id: CallId, channel: Channel, isEmployee: bool)
    requires CoreOk(s.core, None) && id in s.core.calls && !s.core.calls[id].answered
    ensures Keeps(s.core, RungOut(s, w, id, channel, isEmployee).state.core)
    ensures RungOut(s, w, id, channel, isEmployee).state.sessions == s.sessions
  {
    hide CoreOk, Evolved, BooksOf, Booked, NoAnswer, Finalize, HangupCallChannels, StillRinging, JourneyOf, Forget;
    KeepsSame(s.core);
    var call, listed := s.core.calls[id], Ask(s, ListChannels);
    if call.inbound { UnansweredKeeps(listed, w, id, JourneyOf(w, call)); }
    var quiet := listed.(legIndex := Forget(listed.legIndex, Channels(call.Legs())));
    FinalizeKeeps(HangupCallChannels(quiet, w, id, call, Some(channel)), w, id, None);
  }

  lemma HungUpKeeps(s: State, w: World, id: CallId, channel: Channel, isEmployee: bool)
    requires CoreOk(s.core, None) && id in s.core.calls
    ensures Keeps(s.core, HungUp(s, w, id, channel, isEmployee).state.core)
    ensures HungUp(s, w, id, channel, isEmployee).state.sessions == s.sessions
  {
    hide CoreOk, Evolved, Finalize, Forget;
    KeepsSame(s.core);
    var call := s.core.calls[id];
    var other := if isEmployee then call.customer else Some(call.employee);
    var quiet := s.(legIndex := Forget(s.legIndex, Channels(call.Legs())));
    var gone := CancelEach(quiet, w, if other.Some? && other != Some(channel) then [other.value] else []);
    FinalizeKeeps(gone.state, w, id, None);
  }

  lemma HandleGoneKeeps(s: State, w: World, channel: Channel)
    requires CoreOk(s.core, None)
    ensures var r := HandleGone(s, w, channel);
            Keeps(s.core, r.state.core) && (r.state.sessions == s.sessions || r.state.sessions == s.sessions - {channel})
  {
    hide CoreOk, Evolved, CallForChannel, RungOut, HungUp;
    KeepsSame(s.core);
    match CallForChannel(s, channel)
    case None =>
    case Some(id) =>
      var call := s.core.calls[id];
      var isEmployee := channel in Channels(call.Legs()) || channel == call.employee;
      var left := s.(sessions := s.sessions - {channel});
      if !call.answered { RungOutKeeps(left.(legIndex := s.legIndex - {channel}), w, id, channel, isEmployee); }
      HungUpKeeps(left, w, id, channel, isEmployee);
  }

  lemma HandleHangupKeeps(s: State, w: World, id: CallId)
    requires CoreOk(s.core, None)
    ensures var r := HandleHangup(s, w, id);
            && Keeps(s.core, r.state.core) && r.state.sessions == s.sessions
            && (r.ok && id in s.core.calls ==> id in r.state.core.calls && r.state.core.calls[id].Over())
  {
    hide CoreOk, Evolved, Finalize;
    KeepsSame(s.core);
    if id in s.core.calls {
      var call := s.core.calls[id];
      var gone := CancelEach(s, w, Channels(call.Legs()) + [call.employee] + CustomerOf(call));
      FinalizeKeeps(gone.state, w, id, None);
    }
  }

  lemma RecordingFits(c: Call, b: Books, r: Recording)
    requires CallOk(c, false) && Booked(c, b, false) && c.named && Closed(r)
    ensures var d := c.(recording := r); CallOk(d, false) && CallEvolved(c, d) && Booked(d, b, false)
  {}

  /** Writing that a recording has ended, one way or another. */
  lemma RecordingKeeps(core: Core, id: CallId, r: Recording, kind: Kind)
    requires CoreOk(core, None) && id in core.calls && core.calls[id].named && Closed(r)
    requires kind == RecordingRefused || kind == RecordingStopped || kind == RecordingDeleted
    ensures Keeps(core, Save(core, id, core.calls[id].(recording := r), kind))
  {
    hide CoreOk, Evolved, BooksOf, CallOk, Booked, CallEvolved;
    KeptAt(core, id, None);
    RecordingFits(core.calls[id], BooksOf(core.trace, id), r);
    SaveKeeps(core, id, core.calls[id].(recording := r), kind, None, None);
  }

  lemma HandleRecordingKeeps(s: State, w: World, id: CallId, failed: bool)
    requires CoreOk(s.core, None)
    ensures Keeps(s.core, HandleRecording(s, w, id, failed).state.core) && HandleRecording(s, w, id, failed).state.sessions == s.sessions
  {
    hide CoreOk, Evolved;
    KeepsSame(s.core);
    if id in s.core.calls && s.core.calls[id].named {
      RecordingKeeps(s.core, id, RecordingFailed, RecordingRefused);
      RecordingKeeps(s.core, id, Finalized, RecordingStopped);
    }
  }

  lemma ArrivalFits(c: Call, b: Books)
    requires CallOk(c, false) && Booked(c, b, false) && c.status == Initiated
    ensures var d := c.(status := Ringing); CallOk(d, false) && CallEvolved(c, d) && Booked(d, b, false)
  {}

  lemma HandleArrivalKeeps(s: State, w: World, channel: Channel, inbound: bool, did: string, extension: string, caller: string, id: CallId)
    requires Sane(s)
    ensures var r := HandleArrival(s, w, channel, inbound, did, extension, caller, id); Sane(r.state) && Evolved(s.core, r.state.core)
  {
    hide CoreOk, Evolved, BooksOf, CallOk, Booked, CallEvolved, CallForChannel, StartInbound, SessionsOk;
    EvolvedSame(s.core);
    match CallForChannel(s, channel)
    case None => StartInboundKeeps(s, w, channel, did, extension, caller, id);
    case Some(found) =>
      var call := s.core.calls[found];
      if call.status == Initiated {
        KeptAt(s.core, found, None);
        ArrivalFits(call, BooksOf(s.core.trace, found));
        var next := Save(s.core, found, call.(status := Ringing), EmployeeRinging);
        SaveKeeps(s.core, found, call.(status := Ringing), EmployeeRinging, None, None);
        SaneFollows(s, s.(core := next));
      }
  }

  // ---------------------------------------------------------------- sweeps

  lemma {:induction false} ReconcileKeeps(s: State, w: World, ids: seq<CallId>)
    requires CoreOk(s.core, None)
    ensures Keeps(s.core, ReconcileEach(s, w, ids).core) && ReconcileEach(s, w, ids).sessions == s.sessions
    decreases |ids|
  {
    hide CoreOk, Evolved;
    KeepsSame(s.core);
    if ids != [] {
      var id := ids[|ids| - 1];
      if id in s.core.calls && s.core.calls[id].named { RecordingKeeps(s.core, id, Finalized, RecordingStopped); }
      var next := ReconcileOne(s, w, id);
      ReconcileKeeps(next, w, ids[..|ids| - 1]);
      KeepsThen(s.core, next.core, ReconcileEach(next, w, ids[..|ids| - 1]).core);
    }
  }

  lemma {:induction false} RetainKeeps(s: State, w: World, ids: seq<CallId>)
    requires CoreOk(s.core, None)
    ensures Keeps(s.core, RetainEach(s, w, ids).state.core) && RetainEach(s, w, ids).state.sessions == s.sessions
    decreases |ids|
  {
    hide CoreOk, Evolved;
    KeepsSame(s.core);
    if ids != [] {
      var id := ids[|ids| - 1];
      if id in s.core.calls && s.core.calls[id].named { RecordingKeeps(s.core, id, Deleted, RecordingDeleted); }
      var next := RetainOne(s, w, id);
      RetainKeeps(next.state, w, ids[..|ids| - 1]);
      KeepsThen(s.core, next.state.core, RetainEach(next.state, w, ids[..|ids| - 1]).state.core);
    }
  }

  lemma RecoverOneKeeps(s: State, w: World, live: seq<Live>, id: CallId)
    requires CoreOk(s.core, None)
    ensures Keeps(s.core, RecoverOne(s, w, live, id).state.core) && RecoverOne(s, w, live, id).state.sessions == s.sessions
  {
    hide CoreOk, Evolved, StartCustomer, Join, Register, StateIn;
    KeepsSame(s.core);
    if id in s.core.calls && !s.core.calls[id].Over() {
      var call := s.core.calls[id];
      var known := s.(legIndex := Register(s.legIndex, Channels(call.Legs()), id));
      FailKeeps(s.core, id, w.now);
      StartCustomerKeeps(known, w, id);
      if call.customer.Some? { JoinKeeps(known, w, id, None); }
    }
  }

  lemma {:induction false} RecoverEachKeeps(s: State, w: World, live: seq<Live>, ids: seq<CallId>)
    requires CoreOk(s.core, None)
    ensures Keeps(s.core, RecoverEach(s, w, live, ids).state.core) && RecoverEach(s, w, live, ids).state.sessions == s.sessions
    decreases |ids|
  {
    hide CoreOk, Evolved, RecoverOne;
    KeepsSame(s.core);
    if ids != [] {
      var next := RecoverOne(s, w, live, ids[|ids| - 1]);
      RecoverOneKeeps(s, w, live, ids[|ids| - 1]);
      RecoverEachKeeps(next.state, w, live, ids[..|ids| - 1]);
      KeepsThen(s.core, next.state.core, RecoverEach(next.state, w, live, ids[..|ids| - 1]).state.core);
    }
  }

  lemma RecoverKeeps(s: State, w: World)
    requires CoreOk(s.core, None)
    ensures Keeps(s.core, Recover(s, w).state.core) && Recover(s, w).state.sessions == map[]
  {
    hide CoreOk, Evolved, ReconcileEach, RecoverEach;
    var bare := s.(legIndex := map[], sessions := map[]);
    ReconcileKeeps(bare, w, s.core.order);
    var rebuilt := ReconcileEach(bare, w, s.core.order);
    var asked := Ask(rebuilt, ListChannels);
    match ReplyTo(rebuilt, w, ListChannels)
    case Done(live) =>
      RecoverEachKeeps(asked, w, live, asked.core.order);
      KeepsThen(s.core, rebuilt.core, RecoverEach(asked, w, live, asked.core.order).state.core);
    case _ =>
  }

  // ---------------------------------------------------------------- runs

  /** Any event, whatever Asterisk answers and wherever it stops answering. */
  lemma HandleKeeps(s: State, w: World, event: Event)
    requires Sane(s)
    ensures Sane(Handle(s, w, event).state) && Evolved(s.core, Handle(s, w, event).state.core)
  {
    hide CoreOk, Evolved, SessionsOk, StartOutbound, HandleArrival, HandleUp, HandleGone, PressDigit, HandleRecording, TickEach, HandleHangup, ReconcileEach, RetainEach, Recover;
    match event
    case StartCall(id, extension, phone, number) =>
      StartOutboundKeeps(s, w, id, extension, phone, number);
      SaneFollows(s, Handle(s, w, event).state);
    case Arrived(channel, inbound, did, extension, caller, id) => HandleArrivalKeeps(s, w, channel, inbound, did, extension, caller, id);
    case WentUp(channel) => HandleUpKeeps(s, w, channel); SaneFollows(s, Handle(s, w, event).state);
    case Gone(channel) => HandleGoneKeeps(s, w, channel); SaneFollows(s, Handle(s, w, event).state);
    case Dtmf(channel, digit) => PressDigitKeeps(s, w, channel, digit);
    case RecordingEnded(id, failed) => HandleRecordingKeeps(s, w, id, failed); SaneFollows(s, Handle(s, w, event).state);
    case MenuClock => TickEachKeeps(s, w, w.waiting);
    case HangupCall(id) => HandleHangupKeeps(s, w, id); SaneFollows(s, Handle(s, w, event).state);
    case Reconcile => ReconcileKeeps(s, w, s.core.order); SaneFollows(s, Handle(s, w, event).state);
    case Retention => RetainKeeps(s, w, s.core.order); SaneFollows(s, Handle(s, w, event).state);
    case Restart => RecoverKeeps(s, w); SaneFollows(s, Handle(s, w, event).state);
  }

  lemma {:induction false} RunKeeps(s: State, steps: seq<Step>)
    requires Sane(s)
    ensures Sane(Run(s, steps)) && Evolved(s.core, Run(s, steps).core)
    decreases |steps|
  {
    hide Sane, Evolved, Handle;
    EvolvedSame(s.core);
    if steps != [] {
      var next := Handle(s, steps[0].world, steps[0].event).state;
      HandleKeeps(s, steps[0].world, steps[0].event);
      RunKeeps(next, steps[1..]);
      EvolvedThen(s.core, next.core, Run(next, steps[1..]).core);
    }
  }
}
