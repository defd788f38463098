/** Exactly when the no-answer path moves an unanswered call on, and when it leaves the caller where they were. */
module CallLadder {
  import opened Wrappers
  import opened CallRecords
  import opened CallSteps
  import opened CallInvariants
  import opened CallLaws

  /** Asterisk can be reached when asked, as the n-th request, to hang up the caller. */
  predicate CallerReachedAt(w: World, n: nat, call: Call)
    requires call.customer.Some?
  {
    !w.reply(n, Hangup(call.customer.value)).Unreachable?
  }

  predicate CallerReached(s: State, w: World, call: Call)
    requires call.customer.Some?
  {
    CallerReachedAt(w, |s.log|, call)
  }

  /**
   * What decides it, read from the record, the plan and Asterisk's replies from the n-th request on: a fallback
   * round is due; or the mailbox takes the caller, or the forward leg is placed; or at least the caller can be
   * hung up.
   */
  predicate MovesOnAt(w: World, n: nat, id: CallId, call: Call, plan: Plan)
    requires call.customer.Some?
  {
    var handover, leg := Continue(call.customer.value, plan.mailbox), Originate(Customer(id, 1), plan.forward);
    if call.status != RingingFallback && call.status != Forwarding && plan.fallbacks != [] then true
    else if plan.mailbox != "" then w.reply(n, handover).Done? || CallerReachedAt(w, n + 1, call)
    else if call.status != Forwarding && plan.forward != "" then w.reply(n, leg).Done? || CallerReachedAt(w, n + 1, call)
    else CallerReachedAt(w, n, call)
  }

  predicate MovesOn(s: State, w: World, id: CallId, plan: Plan)
    requires id in s.core.calls && s.core.calls[id].customer.Some?
  {
    MovesOnAt(w, |s.log|, id, s.core.calls[id], plan)
  }

  /** An incoming call that is still running and that nobody has answered. */
  predicate Unanswered(core: Core, id: CallId) {
    id in core.calls && core.calls[id].inbound && !core.calls[id].Over() && !core.calls[id].answered
  }

  lemma UnansweredFacts(core: Core, id: CallId)
    requires CoreOk(core, None) && Unanswered(core, id)
    ensures var c := core.calls[id];
            c.customer.Some? && !c.bridged && !c.named && c.endedAt.None? && Rank(c.status) <= 2
  {
    KeptAt(core, id, None);
  }

  /** The end of a call that was never bridged cannot be cut short. */
  lemma UnbridgedEndsAlways(s: State, w: World, id: CallId, keep: Option<Channel>)
    requires id in s.core.calls && !s.core.calls[id].bridged && !s.core.calls[id].named && s.core.calls[id].status != Completed
    ensures var r := Finalize(s, w, id, keep); r.ok && id in r.state.core.calls && Rank(r.state.core.calls[id].status) == 4
  {
    hide HangupCallChannels;
  }

  /** Either the caller is hung up and the call is over, or its record is as it was. */
  predicate EndsOrStays(a: Core, b: Core, id: CallId, ends: bool) {
    if ends then id in b.calls && Rank(b.calls[id].status) == 4 else b.calls == a.calls
  }

  lemma CancelCaller(s: State, w: World, call: Call)
    requires call.customer.Some?
    ensures CancelEach(s, w, CustomerOf(call)).ok <==> CallerReached(s, w, call)
  {
    assert CustomerOf(call)[1..] == [];
  }

  lemma MissedEndsOrStays(s: State, w: World, id: CallId)
    requires id in s.core.calls && s.core.calls[id].customer.Some?
    requires !s.core.calls[id].bridged && !s.core.calls[id].named && s.core.calls[id].status != Completed
    ensures EndsOrStays(s.core, Missed(s, w, id).state.core, id, CallerReached(s, w, s.core.calls[id]))
  {
    hide Finalize, CancelEach;
    var call := s.core.calls[id];
    var told := s.(core := Note(s.core, id, CallMissed));
    CancelCaller(told, w, call);
    UnbridgedEndsAlways(CancelEach(told, w, CustomerOf(call)).state, w, id, None);
  }

  lemma VoicemailEndsOrStays(s: State, w: World, id: CallId, mailbox: string)
    requires id in s.core.calls && s.core.calls[id].customer.Some?
    requires !s.core.calls[id].bridged && !s.core.calls[id].named && s.core.calls[id].status != Completed
    ensures var call := s.core.calls[id];
            var handover := Continue(call.customer.value, mailbox);
            EndsOrStays(s.core, Voicemail(s, w, id, mailbox).state.core, id,
                        ReplyTo(s, w, handover).Done? || CallerReached(Ask(s, handover), w, call))
  {
    hide Finalize, CancelEach;
    var call := s.core.calls[id];
    var asked := Ask(s, Continue(call.customer.value, mailbox));
    UnbridgedEndsAlways(asked.(core := Note(s.core, id, CallVoicemail)), w, id, call.customer);
    CancelCaller(asked, w, call);
    UnbridgedEndsAlways(CancelEach(asked, w, CustomerOf(call)).state, w, id, None);
  }

  /**
   * On an unanswered call the no-answer path strictly raises the rank ringing, fallback, forwarding, ended
   * exactly when it moves on; otherwise the record is left as it was, whatever else was tried.
   */
  lemma {:induction false} RankRisesIff(s: State, w: World, id: CallId, plan: Plan)
    requires CoreOk(s.core, None) && Unanswered(s.core, id)
    ensures id in s.core.calls && s.core.calls[id].customer.Some?
    ensures Raised(s.core, NoAnswer(s, w, id, plan).state.core, id) <==> MovesOn(s, w, id, plan)
    ensures !MovesOn(s, w, id, plan) ==> NoAnswer(s, w, id, plan).state.core.calls == s.core.calls
    decreases if MayFallBack(s, id) then 1 else 0
  {
    hide CoreOk, Missed, Voicemail, RingFallbacks, CallerReachedAt;
    UnansweredFacts(s.core, id);
    var call := s.core.calls[id];
    if MayFallBack(s, id) && plan.fallbacks != [] {
      RoundRaises(s, w, id, plan);
    } else if plan.mailbox != "" {
      VoicemailEndsOrStays(s, w, id, plan.mailbox);
    } else if call.status != Forwarding && plan.forward != "" {
      MissedEndsOrStays(Ask(s, Originate(Customer(id, 1), plan.forward)), w, id);
    } else {
      MissedEndsOrStays(s, w, id);
    }
  }

  /** A fallback round raises the rank even when nothing can be rung and the rest of the path is cut short. */
  lemma {:induction false} RoundRaises(s: State, w: World, id: CallId, plan: Plan)
    requires CoreOk(s.core, None) && Unanswered(s.core, id) && MayFallBack(s, id) && plan.fallbacks != []
    ensures Raised(s.core, RingFallbacks(s, w, id, plan).state.core, id)
    decreases if MayFallBack(s, id) then 1 else 0, 0
  {
    hide CoreOk, Evolved, NoAnswer, TargetsApart, RingEach, Forget, MovesOn, Room;
    UnansweredFacts(s.core, id);
    KeptAt(s.core, id, None);
    RoomAtRest(s.core.calls[id], BooksOf(s.core.trace, id));
    var call := s.core.calls[id];
    var next := w.desk(plan.(destinations := plan.fallbacks), plan.fallbacks, call.number, OfExtension(plan.fallbacks[0]));
    var round := RingEach(s, w, id, TargetsApart(w, next.destinations, call.number), ByRound, []);
    if round.legs == [] {
      var d := call.(extension := plan.fallbacks[0], status := RingingFallback);
      RoundKeeps(s.core, id, d);
      var written := round.state.(core := Save(s.core, id, d, FallbackRound));
      RankRisesIff(written, w, id, next);
    }
  }

  /** A caller with nowhere to go, whom an unreachable Asterisk cannot hang up, is left waiting: nothing of the call changes. */
  lemma NowhereToGo(s: State, w: World, id: CallId, plan: Plan)
    requires CoreOk(s.core, None) && Unanswered(s.core, id) && s.core.calls[id].customer.Some?
    requires plan.fallbacks == [] && plan.mailbox == "" && plan.forward == "" && !CallerReached(s, w, s.core.calls[id])
    ensures NoAnswer(s, w, id, plan).state.core.calls == s.core.calls && !NoAnswer(s, w, id, plan).ok
  {
    hide CoreOk, Finalize;
    UnansweredFacts(s.core, id);
    RankRisesIff(s, w, id, plan);
    CancelCaller(s.(core := Note(s.core, id, CallMissed)), w, s.core.calls[id]);
  }
}
