/** Recordings from the other side: what is due is asked for, and what Asterisk answers is written. */
module CallSweeps {
  import opened Wrappers
  import opened CallRecords
  import opened CallSteps
  import opened CallInvariants
  import CallLaws

  // ---------------------------------------------------------------- starting and ending one recording

  /**
   * A call that is to be recorded is named and asks for its recording; it runs exactly when Asterisk started it,
   * and then the console hears of it and the announcement, if there is one, is asked for; a refusal is written down.
   */
  lemma StartRecordingOutcome(s: State, w: World, id: CallId)
    requires id in s.core.calls
    ensures var c, t, n := s.core.calls[id], StartRecording(s, w, id), |s.log|;
            match w.recorder(c.extension)
            case Off => t == s
            case On(announcement) =>
              var started, announced := w.reply(n, Record(id)).Done?, w.reply(n + 1, Announce(id)).Done?;
              && t.core.calls == s.core.calls[id := c.(named := true, recording := if started then Running else RecordingFailed)]
              && t.log == s.log + [Record(id)] + (if started && announcement then [Announce(id)] else [])
              && t.core.trace == s.core.trace + [Entry(id, if started then RecordingStarted else RecordingRefused)] +
                   (if started && announcement && !announced then [Entry(id, AnnouncementFailed)] else [])
  {
    var c := s.core.calls[id];
    var named := c.(named := true, recording := Running);
    assert s.core.calls[id := named][id := named.(recording := RecordingFailed)] == s.core.calls[id := named.(recording := RecordingFailed)];
  }

  /**
   * News of a recording's end is written for a named call alone: as failed when it failed, and as finished when
   * Asterisk could be reached, whether or not it has the file.
   */
  lemma RecordingEndedOutcome(s: State, w: World, id: CallId, failed: bool)
    ensures var t := Handle(s, w, RecordingEnded(id, failed)).state;
            var known := id in s.core.calls && s.core.calls[id].named;
            && (!known ==> t == s)
            && (known ==> t.core.calls == if failed then s.core.calls[id := s.core.calls[id].(recording := RecordingFailed)]
                                          else if w.reply(|s.log|, FindRecording(id)).Unreachable? then s.core.calls
                                          else s.core.calls[id := s.core.calls[id].(recording := Finalized)])
  {}

  // ---------------------------------------------------------------- the sweeps

  /** This was asked, and Asterisk did it or not. */
  predicate Answers(w: World, log: seq<Request>, from: nat, request: Request, done: bool) {
    exists n: nat :: from <= n < |log| && log[n] == request && w.reply(n, request).Done? == done
  }

  lemma AnsweredStill(w: World, log: seq<Request>, longer: seq<Request>, from: nat, request: Request, done: bool)
    requires log <= longer && Answers(w, log, from, request, done)
    ensures Answers(w, longer, from, request, done)
  {
    var n: nat :| from <= n < |log| && log[n] == request && w.reply(n, request).Done? == done;
    assert longer[n] == request;
  }

  /** An ended call whose recording was never finished. */
  predicate Unfinished(c: Call) { c.named && (c.recording == Running || c.recording == Finalizing) && c.endedAt.Some? }

  /** An ended call whose recording is past its retention. */
  predicate Expired(c: Call, cutoff: nat) { c.named && c.recording != Deleted && c.endedAt.Some? && c.endedAt.value < cutoff }

  predicate Distinct(ids: seq<CallId>) { forall i, j :: 0 <= i < j < |ids| ==> ids[i] != ids[j] }

  /** What a sweep made of one call: due ones were asked for and carry the answer, others are as they were. */
  predicate Reconciled(w: World, log: seq<Request>, from: nat, id: CallId, c: Call, d: Call) {
    if Unfinished(c) then
      || (d == c.(recording := Finalized) && Answers(w, log, from, FindRecording(id), true))
      || (d == c && Answers(w, log, from, FindRecording(id), false))
    else d == c
  }

  lemma ReconciledStill(w: World, log: seq<Request>, longer: seq<Request>, from: nat, id: CallId, c: Call, d: Call)
    requires log <= longer && Reconciled(w, log, from, id, c, d)
    ensures Reconciled(w, longer, from, id, c, d)
  {
    hide Answers;
    if Answers(w, log, from, FindRecording(id), true) { AnsweredStill(w, log, longer, from, FindRecording(id), true); }
    if Answers(w, log, from, FindRecording(id), false) { AnsweredStill(w, log, longer, from, FindRecording(id), false); }
  }

  lemma ReconcilesThis(s: State, w: World, id: CallId)
    ensures var t := ReconcileOne(s, w, id);
            && s.log <= t.log && t.core.calls.Keys == s.core.calls.Keys
            && (forall other :: other in s.core.calls && other != id ==> t.core.calls[other] == s.core.calls[other])
            && (id in s.core.calls ==> Reconciled(w, t.log, |s.log|, id, s.core.calls[id], t.core.calls[id]))
  {
    var t := ReconcileOne(s, w, id);
    if |t.log| > |s.log| { assert t.log[|s.log|] == FindRecording(id); }
  }

  lemma EarlierStart(w: World, log: seq<Request>, from: nat, later: nat, id: CallId, c: Call, d: Call)
    requires from <= later && Reconciled(w, log, later, id, c, d)
    ensures Reconciled(w, log, from, id, c, d)
  {}

  /** Every recording that was left unfinished is looked for, and finished exactly when Asterisk has it; nothing else changes. */
  lemma {:induction false} ReconcileFinishesTheFound(s: State, w: World, ids: seq<CallId>)
    requires Distinct(ids)
    ensures var t := ReconcileEach(s, w, ids);
            && s.log <= t.log && t.core.calls.Keys == s.core.calls.Keys
            && (forall id :: id in s.core.calls && id in ids ==> Reconciled(w, t.log, |s.log|, id, s.core.calls[id], t.core.calls[id]))
            && (forall id :: id in s.core.calls && id !in ids ==> t.core.calls[id] == s.core.calls[id])
    decreases |ids|
  {
    if ids != [] {
      hide ReconcileOne, Reconciled;
      var last, rest := ids[|ids| - 1], ids[..|ids| - 1];
      var next := ReconcileOne(s, w, last);
      ReconcilesThis(s, w, last);
      ReconcileFinishesTheFound(next, w, rest);
      var t := ReconcileEach(s, w, ids);
      assert ids == rest + [last] && last !in rest;
      forall id | id in s.core.calls && id in ids ensures Reconciled(w, t.log, |s.log|, id, s.core.calls[id], t.core.calls[id]) {
        if id == last { ReconciledStill(w, next.log, t.log, |s.log|, id, s.core.calls[id], next.core.calls[id]); }
        else { EarlierStart(w, t.log, |s.log|, |next.log|, id, next.core.calls[id], t.core.calls[id]); }
      }
    }
  }

  predicate Retained(w: World, log: seq<Request>, from: nat, id: CallId, c: Call, d: Call) {
    if Expired(c, w.cutoff) then
      || (d == c.(recording := Deleted) && Answers(w, log, from, DeleteRecording(id), true))
      || (d == c && Answers(w, log, from, DeleteRecording(id), false))
    else d == c
  }

  /** Asterisk was there for every request from one on. */
  predicate NoneUnreached(w: World, log: seq<Request>, from: nat) {
    forall n: nat :: from <= n < |log| ==> !w.reply(n, log[n]).Unreachable?
  }

  /** It was gone for the last one, and only then. */
  predicate LastUnreached(w: World, log: seq<Request>, from: nat) {
    from < |log| && w.reply(|log| - 1, log[|log| - 1]).Unreachable? && forall n: nat :: from <= n < |log| - 1 ==> !w.reply(n, log[n]).Unreachable?
  }

  lemma ReachedOn(w: World, log: seq<Request>, longer: seq<Request>, from: nat)
    requires from <= |log| && log <= longer && NoneUnreached(w, log, from)
    ensures NoneUnreached(w, longer, |log|) ==> NoneUnreached(w, longer, from)
    ensures LastUnreached(w, longer, |log|) ==> LastUnreached(w, longer, from)
  {
    assert forall n: nat :: n < |log| ==> longer[n] == log[n];
  }

  lemma RetainedStill(w: World, log: seq<Request>, longer: seq<Request>, from: nat, id: CallId, c: Call, d: Call)
    requires log <= longer && Retained(w, log, from, id, c, d)
    ensures Retained(w, longer, from, id, c, d)
  {
    hide Answers;
    if Answers(w, log, from, DeleteRecording(id), true) { AnsweredStill(w, log, longer, from, DeleteRecording(id), true); }
    if Answers(w, log, from, DeleteRecording(id), false) { AnsweredStill(w, log, longer, from, DeleteRecording(id), false); }
  }

  lemma RetainsThis(s: State, w: World, id: CallId)
    ensures var r := RetainOne(s, w, id);
            && s.log <= r.state.log && r.state.core.calls.Keys == s.core.calls.Keys
            && (r.ok ==> NoneUnreached(w, r.state.log, |s.log|)) && (!r.ok ==> LastUnreached(w, r.state.log, |s.log|))
            && (forall other :: other in s.core.calls && other != id ==> r.state.core.calls[other] == s.core.calls[other])
            && (id in s.core.calls ==> Retained(w, r.state.log, |s.log|, id, s.core.calls[id], r.state.core.calls[id]))
  {
    var t := RetainOne(s, w, id).state;
    if |t.log| > |s.log| { assert t.log[|s.log|] == DeleteRecording(id); }
  }

  lemma EarlierDeletion(w: World, log: seq<Request>, from: nat, later: nat, id: CallId, c: Call, d: Call)
    requires from <= later && Retained(w, log, later, id, c, d)
    ensures Retained(w, log, from, id, c, d)
  {}

  /**
   * A retention sweep has every expired recording deleted, each exactly when Asterisk did it, and is cut short by the
   * first request for which Asterisk is gone.
   */
  lemma {:induction false} RetentionDeletesTheExpired(s: State, w: World, ids: seq<CallId>)
    requires Distinct(ids)
    ensures var r := RetainEach(s, w, ids);
            && s.log <= r.state.log && r.state.core.calls.Keys == s.core.calls.Keys
            && (r.ok ==> NoneUnreached(w, r.state.log, |s.log|)) && (!r.ok ==> LastUnreached(w, r.state.log, |s.log|))
            && (r.ok ==> forall id :: id in s.core.calls && id in ids ==> Retained(w, r.state.log, |s.log|, id, s.core.calls[id], r.state.core.calls[id]))
            && (forall id :: id in s.core.calls && id !in ids ==> r.state.core.calls[id] == s.core.calls[id])
    decreases |ids|
  {
    if ids != [] {
      hide RetainOne, Retained, NoneUnreached, LastUnreached;
      var last, rest := ids[|ids| - 1], ids[..|ids| - 1];
      var next := RetainOne(s, w, last);
      RetainsThis(s, w, last);
      assert ids == rest + [last] && last !in rest;
      if next.ok {
        RetentionDeletesTheExpired(next.state, w, rest);
        var r := RetainEach(s, w, ids);
        ReachedOn(w, next.state.log, r.state.log, |s.log|);
        if r.ok {
          forall id | id in s.core.calls && id in ids ensures Retained(w, r.state.log, |s.log|, id, s.core.calls[id], r.state.core.calls[id]) {
            if id == last { RetainedStill(w, next.state.log, r.state.log, |s.log|, id, s.core.calls[id], next.state.core.calls[id]); }
            else { EarlierDeletion(w, r.state.log, |s.log|, |next.state.log|, id, next.state.core.calls[id], r.state.core.calls[id]); }
          }
        }
      }
    }
  }

  /** The sweep for missed endings goes over every call. */
  lemma ReconcileMeetsEveryCall(s: State, w: World, id: CallId)
    requires CoreOk(s.core, None) && id in s.core.calls
    ensures var t := Handle(s, w, Reconcile).state;
            id in t.core.calls && Reconciled(w, t.log, |s.log|, id, s.core.calls[id], t.core.calls[id])
  {
    hide ReconcileEach, RetainEach, Reconciled, CoreOk, Recover;
    EveryCallOnce(s.core);
    ReconcileFinishesTheFound(s, w, s.core.order);
  }

  /** So does retention, when it is not cut short. */
  lemma RetentionMeetsEveryCall(s: State, w: World, id: CallId)
    requires CoreOk(s.core, None) && id in s.core.calls && Handle(s, w, Retention).ok
    ensures var t := Handle(s, w, Retention).state;
            id in t.core.calls && Retained(w, t.log, |s.log|, id, s.core.calls[id], t.core.calls[id])
  {
    hide ReconcileEach, RetainEach, Retained, CoreOk, Recover;
    EveryCallOnce(s.core);
    RetentionDeletesTheExpired(s, w, s.core.order);
  }

  lemma EveryCallOnce(core: Core)
    requires CoreOk(core, None)
    ensures Distinct(core.order) && forall id :: id in core.calls <==> id in core.order
  {}
}
