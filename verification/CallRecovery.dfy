/** A restarted worker: every unfinished call it keeps has a live channel, and no call is touched for another's sake. */
module CallRecovery {
  import opened Wrappers
  import opened CallRecords
  import opened CallSteps
  import opened CallInvariants
  import opened CallLaws

  /** Only one call's record differs, and the call table lists the same calls. */
  predicate Touches(a: Core, b: Core, id: CallId) {
    && a.order == b.order && a.calls.Keys == b.calls.Keys
    && forall other :: other in a.calls && other != id ==> b.calls[other] == a.calls[other]
  }

  /** Some side of the call is among the live channels. */
  predicate HasLiveSide(call: Call, live: seq<Live>) {
    StateIn(live, call.employee).Some? || (call.customer.Some? && StateIn(live, call.customer.value).Some?)
  }

  /** What recovery leaves: the call is over, or one of its sides was alive. */
  predicate Accounted(before: Call, after: Call, live: seq<Live>) { after.Over() || HasLiveSide(before, live) }

  lemma TouchesThen(a: Core, b: Core, c: Core, id: CallId)
    requires Touches(a, b, id) && Touches(b, c, id)
    ensures Touches(a, c, id)
  {}

  lemma SaveTouches(core: Core, id: CallId, call: Call, kind: Kind)
    requires id in core.calls
    ensures Touches(core, Put(core, id, call), id) && Touches(core, Note(core, id, kind), id) && Touches(core, Save(core, id, call, kind), id)
  {}

  lemma StartRecordingTouches(s: State, w: World, id: CallId)
    requires id in s.core.calls
    ensures Touches(s.core, StartRecording(s, w, id).core, id)
  {
    hide Touches;
    var call := s.core.calls[id];
    var started := call.(named := true, recording := Running);
    var a := Put(s.core, id, started);
    var failed := started.(recording := RecordingFailed);
    SaveTouches(s.core, id, started, RecordingStarted);
    SaveTouches(a, id, failed, RecordingRefused);
    TouchesThen(s.core, a, Save(a, id, failed, RecordingRefused), id);
    SaveTouches(a, id, started, RecordingStarted);
    var told := Note(a, id, RecordingStarted);
    TouchesThen(s.core, a, told, id);
    SaveTouches(told, id, started, AnnouncementFailed);
    TouchesThen(s.core, told, Note(told, id, AnnouncementFailed), id);
    KeepsNothing(s.core, id);
  }

  lemma StartBridgeTouches(s: State, w: World, id: CallId)
    requires id in s.core.calls
    ensures Touches(s.core, StartBridge(s, w, id).core, id)
  {
    hide HangupCallChannels, BuildBridge, StartRecording, Touches;
    var call := s.core.calls[id];
    SaveTouches(s.core, id, call, CallFailed);
    assert Put(s.core, id, call) == s.core by { assert s.core.calls[id := call] == s.core.calls; }
    var bridged := call.(bridged := true, status := Bridged);
    SaveTouches(s.core, id, bridged, CallBridged);
    SaveTouches(s.core, id, call.(status := Failed, endedAt := Some(w.now), bridged := false, recording := RecordingFailed), CallFailed);
    if !call.bridged && call.customer.Some? {
      var built := BuildBridge(s, w, id, [CreateBridge(id), AddToBridge(id, call.employee), AddToBridge(id, call.customer.value)]).state;
      var joined := built.(core := Save(s.core, id, bridged, CallBridged));
      StartRecordingTouches(joined, w, id);
      TouchesThen(s.core, joined.core, StartRecording(joined, w, id).core, id);
    }
  }

  lemma StartCustomerTouches(s: State, w: World, id: CallId)
    requires id in s.core.calls
    ensures Touches(s.core, StartCustomer(s, w, id).state.core, id)
  {
    hide PlaceEach, CancelEach, Touches;
    var call := s.core.calls[id];
    SaveTouches(s.core, id, call, CallFailed);
    assert Put(s.core, id, call) == s.core by { assert s.core.calls[id := call] == s.core.calls; }
    SaveTouches(s.core, id, call.(status := Failed, endedAt := Some(w.now)), CallFailed);
    var dialling := Dialling(s, id).core;
    SaveTouches(s.core, id, call.(customer := Some(Customer(id, 0)), status := DialingCustomer), CustomerDialing);
    var failed := dialling.calls[id].(status := Failed, endedAt := Some(w.now));
    SaveTouches(dialling, id, failed, CallFailed);
    TouchesThen(s.core, dialling, Save(dialling, id, failed, CallFailed), id);
  }

  lemma FailedIsOver(core: Core, id: CallId, now: nat)
    requires id in core.calls
    ensures var next := Save(core, id, core.calls[id].(status := Failed, endedAt := Some(now)), CallFailed);
            id in next.calls && next.calls[id].Over()
  {}

  lemma JoinTouches(s: State, w: World, id: CallId)
    requires id in s.core.calls
    ensures Touches(s.core, Join(s, w, id).state.core, id)
  {
    hide StartBridge, Touches;
    var joined := StartBridge(s, w, id);
    StartBridgeTouches(s, w, id);
    SaveTouches(joined.core, id, joined.core.calls[id].(status := Answered, answered := true, answeredAt := Some(w.now)), CallAnswered);
    TouchesThen(s.core, joined.core, MarkAnswered(joined, id, w.now).core, id) by {
      assert Put(joined.core, id, joined.core.calls[id]) == joined.core by { assert joined.core.calls[id := joined.core.calls[id]] == joined.core.calls; }
      SaveTouches(joined.core, id, joined.core.calls[id], CallAnswered);
    }
  }

  lemma RecoverOneKeepsLive(s: State, w: World, live: seq<Live>, id: CallId)
    requires CoreOk(s.core, None)
    ensures var r := RecoverOne(s, w, live, id);
            && Touches(s.core, r.state.core, id)
            && (id in s.core.calls ==> Accounted(s.core.calls[id], r.state.core.calls[id], live))
  {
    hide CoreOk, Join, StartCustomer, StateIn, Register, Save, Touches;
    KeepsNothing(s.core, id);
    if id in s.core.calls {
      SaveTouches(s.core, id, s.core.calls[id].(status := Failed, endedAt := Some(w.now)), CallFailed);
      FailedIsOver(s.core, id, w.now);
      OverIsEnded(s.core, id);
      var known := s.(legIndex := Register(s.legIndex, Channels(s.core.calls[id].Legs()), id));
      StartCustomerTouches(known, w, id);
      JoinTouches(known, w, id);
    }
  }

  lemma KeepsNothing(core: Core, id: CallId)
    ensures Touches(core, core, id)
  {}

  lemma {:induction false} RecoverEachKeepsLive(s: State, w: World, live: seq<Live>, ids: seq<CallId>)
    requires CoreOk(s.core, None) && forall i, j :: 0 <= i < j < |ids| ==> ids[i] != ids[j]
    ensures var r := RecoverEach(s, w, live, ids);
            && s.core.calls.Keys == r.state.core.calls.Keys
            && (forall id :: id in s.core.calls && id !in ids ==> r.state.core.calls[id] == s.core.calls[id])
            && (r.ok ==> forall id :: id in s.core.calls && id in ids ==> Accounted(s.core.calls[id], r.state.core.calls[id], live))
    decreases |ids|
  {
    hide CoreOk, RecoverOne, Accounted;
    if ids != [] {
      var last, rest := ids[|ids| - 1], ids[..|ids| - 1];
      var next := RecoverOne(s, w, live, last);
      assert ids == rest + [last];
      RecoverOneKeepsLive(s, w, live, last);
      RecoverOneKeeps(s, w, live, last);
      if next.ok { RecoverEachKeepsLive(next.state, w, live, rest); }
    }
  }

  /** Reconciling recordings rewrites nothing but recordings. */
  predicate SameSides(a: Core, b: Core) {
    && b.order == a.order && b.calls.Keys == a.calls.Keys
    && forall id :: id in a.calls ==> b.calls[id] == a.calls[id].(recording := b.calls[id].recording)
  }

  lemma ReconcileOneKeepsSides(s: State, w: World, id: CallId)
    ensures SameSides(s.core, ReconcileOne(s, w, id).core)
  {
    hide SameSides, Save;
    RecordingSides(s.core, id, Finalized, RecordingStopped);
  }

  lemma RecordingSides(core: Core, id: CallId, r: Recording, kind: Kind)
    ensures SameSides(core, core)
    ensures id in core.calls ==> SameSides(core, Save(core, id, core.calls[id].(recording := r), kind))
  {}

  lemma {:induction false} ReconcileKeepsSides(s: State, w: World, ids: seq<CallId>)
    ensures SameSides(s.core, ReconcileEach(s, w, ids).core)
    decreases |ids|
  {
    hide ReconcileOne;
    if ids != [] {
      ReconcileOneKeepsSides(s, w, ids[|ids| - 1]);
      ReconcileKeepsSides(ReconcileOne(s, w, ids[|ids| - 1]), w, ids[..|ids| - 1]);
    }
  }

  /** The listing of live channels that a recovery works from. */
  function Listing(s: State, w: World): Reply {
    ReplyTo(ReconcileEach(s.(legIndex := map[], sessions := map[]), w, s.core.order), w, ListChannels)
  }

  /**
   * After a restart that reads the live channels and is not cut short, every call is over or has a side that
   * is alive: none waits for a channel that died with the old worker.
   */
  lemma RecoveredCallsAreAlive(s: State, w: World, id: CallId)
    requires Sane(s) && id in s.core.calls && Listing(s, w).Done? && Recover(s, w).ok
    ensures id in Recover(s, w).state.core.calls
    ensures Recover(s, w).state.core.calls[id].Over() || HasLiveSide(s.core.calls[id], Listing(s, w).live)
  {
    hide CoreOk, ReconcileEach, RecoverEach, StateIn, SessionsOk;
    var bare := s.(legIndex := map[], sessions := map[]);
    ReconcileKeepsSides(bare, w, s.core.order);
    ReconcileKeeps(bare, w, s.core.order);
    var rebuilt := ReconcileEach(bare, w, s.core.order);
    var asked := Ask(rebuilt, ListChannels);
    EveryCallIsListed(asked.core);
    RecoverEachKeepsLive(asked, w, Listing(s, w).live, asked.core.order);
  }

  lemma EveryCallIsListed(core: Core)
    requires CoreOk(core, None)
    ensures OrderOk(core)
  {}
}
