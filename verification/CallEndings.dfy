/** Whose end ends a running call. */
module CallEndings {
  import opened Wrappers
  import opened CallRecords
  import opened CallSteps
  import opened CallInvariants
  import opened CallLaws
  import opened CallRequests

  // ---------------------------------------------------------------- ending a call

  /** The hang-ups of an ending depend only on how many requests came before. */
  lemma {:induction false} SameHangupEach(s: State, t: State, channels: seq<Channel>, keep: Option<Channel>)
    requires s.log == t.log
    ensures HangupEach(s, channels, keep).log == HangupEach(t, channels, keep).log
    decreases |channels|
  {
    if channels != [] {
      var skip := Some(channels[0]) == keep;
      SameHangupEach(if skip then s else Ask(s, Hangup(channels[0])), if skip then t else Ask(t, Hangup(channels[0])), channels[1..], keep);
    }
  }

  lemma SameHangups(s: State, t: State, w: World, id: CallId, call: Call, keep: Option<Channel>)
    requires s.log == t.log
    ensures HangupCallChannels(s, w, id, call, keep).log == HangupCallChannels(t, w, id, call, keep).log
  {
    hide HangupEach, Only;
    var channels := Channels(call.Legs()) + if call.customer.Some? then [call.customer.value] else [];
    SameHangupEach(s, t, channels, keep);
    var s1, t1 := HangupEach(s, channels, keep), HangupEach(t, channels, keep);
    SameHangupEach(Ask(s1, ListChannels), Ask(t1, ListChannels), FarSide(s1, w, id, call, keep), keep);
  }

  /** Asterisk can be reached to stop the recording, if one is running, and then to take the bridge down, if there is one. */
  predicate TearsDown(w: World, n: nat, id: CallId, c: Call) {
    var stops := c.named && c.recording == Running;
    (stops ==> !w.reply(n, StopRecording(id)).Unreachable?) && (c.bridged ==> !w.reply(n + One(stops), DestroyBridge(id)).Unreachable?)
  }

  /** The requests that come before the bridge is taken down. */
  function Before(s: State, w: World, id: CallId, keep: Option<Channel>): nat
    requires id in s.core.calls
  {
    |HangupCallChannels(s, w, id, s.core.calls[id], keep).log|
  }

  lemma TearDownIff(s: State, w: World, id: CallId, call: Call)
    ensures TearDown(s, w, id, call).ok <==> TearsDown(w, |s.log|, id, call)
  {}

  lemma CloseEnds(core: Core, id: CallId, now: nat)
    requires id in core.calls
    ensures var next := Close(core, id, now);
            && id in next.calls && next.calls[id].Over() && next.calls[id].endedAt == Some(now)
            && (next.calls[id].status == Completed <==> core.calls[id].answered && core.calls[id].status != Failed)
  {}

  /**
   * An ending goes through exactly when recording and bridge can be stopped; otherwise the call runs on. It is
   * written with the time of the day, and as completed exactly when the call was answered.
   */
  lemma FinalizeEndsIff(s: State, w: World, id: CallId, keep: Option<Channel>)
    requires id in s.core.calls && !s.core.calls[id].Over()
    ensures var c, r := s.core.calls[id], Finalize(s, w, id, keep);
            && id in r.state.core.calls && (r.ok <==> TearsDown(w, Before(s, w, id, keep), id, c))
            && (r.state.core.calls[id].Over() <==> r.ok)
            && (r.ok ==> r.state.core.calls[id].endedAt == Some(w.now) && (r.state.core.calls[id].status == Completed <==> c.answered))
  {
    hide HangupCallChannels, TearDown, TearsDown, Close;
    var call := s.core.calls[id];
    var s1 := if call.named && call.recording == Running
              then s.(core := Put(s.core, id, call.(recording := Finalizing))) else s;
    SameHangups(s, s1, w, id, call, keep);
    var s2 := HangupCallChannels(s1, w, id, call, keep);
    TearDownIff(s2, w, id, call);
    CloseEnds(s1.core, id, w.now);
  }

  /** The recording as an ending leaves it: one that runs is being finished. */
  function Stopped(c: Call): Recording { if c.named && c.recording == Running then Finalizing else c.recording }

  /**
   * An ending writes the ending, the time and the recording of this one call and nothing else, tells the console
   * which ending it was, and has the recording stopped and the bridge taken down, each exactly if there is one;
   * one that is cut short writes the recording alone.
   */
  lemma FinalizeWrites(s: State, w: World, id: CallId, keep: Option<Channel>)
    requires id in s.core.calls && !s.core.calls[id].Over()
    ensures var c, r := s.core.calls[id], Finalize(s, w, id, keep);
            var n := Before(s, w, id, keep);
            && r.state == s.(core := r.state.core, log := r.state.log) && r.state.core.order == s.core.order
            && (r.ok ==>
                  && r.state.core.calls == s.core.calls[id := c.(status := if c.answered then Completed else Failed, endedAt := Some(w.now), recording := Stopped(c))]
                  && r.state.core.trace == s.core.trace + [Entry(id, if c.answered then CallCompleted else CallFailed)]
                  && n <= |r.state.log|
                  && r.state.log[n..] == (if c.named && c.recording == Running then [StopRecording(id)] else []) + (if c.bridged then [DestroyBridge(id)] else []))
            && (!r.ok ==> r.state.core == s.core.(calls := s.core.calls[id := c.(recording := Stopped(c))]))
  {
    hide HangupCallChannels, Close, TearDown;
    var c := s.core.calls[id];
    var s1 := if c.named && c.recording == Running then s.(core := Put(s.core, id, c.(recording := Finalizing))) else s;
    SameHangups(s, s1, w, id, c, keep);
    assert s1.core == s.core.(calls := s.core.calls[id := c.(recording := Stopped(c))]) by { assert s.core.calls[id := c] == s.core.calls; }
    TearDownAsks(HangupCallChannels(s1, w, id, c, keep), w, id, c);
    CloseWrites(s.core, s1.core, id, w.now);
  }

  lemma TearDownAsks(s: State, w: World, id: CallId, c: Call)
    ensures var r := TearDown(s, w, id, c);
            && |s.log| <= |r.state.log|
            && (r.ok ==> r.state.log[|s.log|..] == (if c.named && c.recording == Running then [StopRecording(id)] else []) + (if c.bridged then [DestroyBridge(id)] else []))
  {}

  lemma CloseWrites(core: Core, stopped: Core, id: CallId, now: nat)
    requires id in core.calls && !core.calls[id].Over()
    requires stopped == core.(calls := core.calls[id := core.calls[id].(recording := Stopped(core.calls[id]))])
    ensures var c, next := core.calls[id], Close(stopped, id, now);
            && next.order == core.order
            && next.calls == core.calls[id := c.(status := if c.answered then Completed else Failed, endedAt := Some(now), recording := Stopped(c))]
            && next.trace == core.trace + [Entry(id, if c.answered then CallCompleted else CallFailed)]
  {
    hide Stopped;
  }

  /** A leg that goes up after the call is over is hung up, and nothing else happens. */
  lemma StragglerIsHungUp(s: State, w: World, id: CallId, channel: Channel)
    requires CallForChannel(s, channel) == Some(id) && s.core.calls[id].Over()
    ensures Handle(s, w, WentUp(channel)) == Outcome(Ask(s, Hangup(channel)), true)
  {}

  /** A channel of an ended call that goes away is forgotten; news of a channel that is no call's changes nothing. */
  lemma LateNewsChangesNothing(s: State, w: World, channel: Channel)
    ensures match CallForChannel(s, channel)
            case None => Handle(s, w, Gone(channel)) == Handle(s, w, WentUp(channel)) == Outcome(s, true)
            case Some(id) => s.core.calls[id].endedAt.Some? ==> Handle(s, w, Gone(channel)) == Outcome(s.(legIndex := s.legIndex - {channel}), true)
  {
    hide CallForChannel;
  }

  // ---------------------------------------------------------------- one side hangs up

  /** A channel that the record no longer names: it was rung once, and others have taken its place. */
  predicate Stale(c: Call, id: CallId, channel: Channel) {
    channel !in Channels(c.Legs()) && channel != c.employee && Some(channel) != c.customer && !FarLeg(channel, id)
  }

  /** The side that is to be hung up when this channel ends. */
  function OtherSide(c: Call, channel: Channel): Option<Channel> {
    var other := if channel in Channels(c.Legs()) || channel == c.employee then c.customer else Some(c.employee);
    if other == Some(channel) then None else other
  }

  /** Asterisk can be reached for everything that this channel's end asks for. */
  predicate EndsThrough(s: State, w: World, id: CallId, channel: Channel)
    requires id in s.core.calls
  {
    match OtherSide(s.core.calls[id], channel)
    case None => TearsDown(w, Before(s, w, id, None), id, s.core.calls[id])
    case Some(other) =>
      && !ReplyTo(s, w, Hangup(other)).Unreachable?
      && TearsDown(w, Before(Ask(s, Hangup(other)), w, id, None), id, s.core.calls[id])
  }

  lemma HungUpEndsIff(s: State, w: World, id: CallId, channel: Channel)
    requires id in s.core.calls && !s.core.calls[id].Over()
    ensures var isEmployee := channel in Channels(s.core.calls[id].Legs()) || channel == s.core.calls[id].employee;
            var r := HungUp(s, w, id, channel, isEmployee).state;
            && id in r.core.calls && (r.core.calls[id].Over() <==> EndsThrough(s, w, id, channel))
            && (!s.core.calls[id].answered && r.core.calls[id].Over() ==> r.core.calls[id].status == Failed)
  {
    hide Finalize, HangupCallChannels, TearsDown, Forget;
    var c := s.core.calls[id];
    var quiet := s.(legIndex := Forget(s.legIndex, Channels(c.Legs())));
    match OtherSide(c, channel)
    case None =>
      FinalizeEndsIff(quiet, w, id, None);
      SameHangups(s, quiet, w, id, c, None);
    case Some(other) =>
      assert [other][1..] == [];
      var asked := Ask(quiet, Hangup(other));
      CancelOneAsks(quiet, w, other);
      FinalizeEndsIff(asked, w, id, None);
      SameHangups(Ask(s, Hangup(other)), asked, w, id, c, None);
  }

  /** What a channel's end asks for does not depend on the menus and the leg index. */
  lemma SameWay(s: State, t: State, w: World, id: CallId, channel: Channel)
    requires id in s.core.calls && s.core == t.core && s.log == t.log
    ensures EndsThrough(s, w, id, channel) <==> EndsThrough(t, w, id, channel)
  {
    hide HangupCallChannels, TearsDown;
    var c := s.core.calls[id];
    SameHangups(s, t, w, id, c, None);
    if OtherSide(c, channel).Some? {
      SameHangups(Ask(s, Hangup(OtherSide(c, channel).value)), Ask(t, Hangup(OtherSide(c, channel).value)), w, id, c, None);
    }
  }

  /** The sides an answered call runs on, and the channels its record does not name at all. */
  predicate CarriesTheCall(c: Call, id: CallId, channel: Channel) {
    channel == c.employee || (channel !in Channels(c.Legs()) && (Some(channel) == c.customer || !FarLeg(channel, id)))
  }

  /**
   * The end of a channel ends an answered call exactly when the call runs on that channel, or the record does
   * not name it, and Asterisk can be reached; the end of any other device that rang changes no record.
   */
  lemma AnsweredEndsIff(s: State, w: World, id: CallId, channel: Channel)
    requires CoreOk(s.core, None) && CallForChannel(s, channel) == Some(id)
    requires s.core.calls[id].answered && !s.core.calls[id].Over()
    ensures var c, r := s.core.calls[id], HandleGone(s, w, channel).state;
            && id in r.core.calls
            && (r.core.calls[id].Over() <==> CarriesTheCall(c, id, channel) && EndsThrough(s, w, id, channel))
            && (!CarriesTheCall(c, id, channel) ==> r.core.calls == s.core.calls)
  {
    hide CoreOk, HungUp, CallForChannel, EndsThrough;
    OverIsEnded(s.core, id);
    var left := s.(sessions := s.sessions - {channel});
    HungUpEndsIff(left, w, id, channel);
    SameWay(s, left, w, id, channel);
  }

  /**
   * A channel the record no longer names fails a call that nobody has answered, exactly when Asterisk can be
   * reached to hang up the device the call is ringing now; otherwise no record changes.
   */
  lemma StaleEndsIff(s: State, w: World, id: CallId, channel: Channel)
    requires CoreOk(s.core, None) && CallForChannel(s, channel) == Some(id)
    requires !s.core.calls[id].answered && !s.core.calls[id].Over() && Stale(s.core.calls[id], id, channel)
    ensures var c, r := s.core.calls[id], HandleGone(s, w, channel).state;
            var reached := !ReplyTo(s, w, Hangup(c.employee)).Unreachable?;
            && id in r.core.calls && (r.core.calls[id].Over() <==> reached) && (reached ==> r.core.calls[id].status == Failed)
            && (!reached ==> r.core.calls == s.core.calls) && |s.log| < |r.log| && r.log[|s.log|] == Hangup(c.employee)
  {
    hide CoreOk, CallForChannel, HangupCallChannels, Finalize, Forget;
    OverIsEnded(s.core, id);
    KeptAt(s.core, id, None);
    var c := s.core.calls[id];
    var left := s.(sessions := s.sessions - {channel});
    HungUpEndsIff(left, w, id, channel);
    var quiet := left.(legIndex := Forget(left.legIndex, Channels(c.Legs())));
    assert [c.employee][1..] == [];
    CancelOneAsks(quiet, w, c.employee);
    FinalizeFollows(Ask(quiet, Hangup(c.employee)), w, id);
    assert Ask(quiet, Hangup(c.employee)).log[|s.log|] == Hangup(c.employee);
  }

  /** When the far side of a call that nobody has answered ends, the call ends exactly when no other far leg is alive. */
  lemma FarSideEndsIff(s: State, w: World, id: CallId, channel: Channel)
    requires CoreOk(s.core, None) && CallForChannel(s, channel) == Some(id)
    requires !s.core.calls[id].answered && !s.core.calls[id].Over()
    requires channel !in Channels(s.core.calls[id].Legs()) && channel != s.core.calls[id].employee
    requires Some(channel) == s.core.calls[id].customer || FarLeg(channel, id)
    ensures var c, r := s.core.calls[id], HandleGone(s, w, channel).state;
            && id in r.core.calls && (r.core.calls[id].Over() <==> FarSide(s, w, id, c, Some(channel)) == [])
  {
    hide CoreOk, CallForChannel, HangupCallChannels, Finalize, Forget, Only;
    OverIsEnded(s.core, id);
    KeptAt(s.core, id, None);
    var c := s.core.calls[id];
    var left := s.(sessions := s.sessions - {channel}, legIndex := s.legIndex - {channel});
    var listed := Ask(left, ListChannels);
    var quiet := listed.(legIndex := Forget(listed.legIndex, Channels(c.Legs())));
    var hung := HangupCallChannels(quiet, w, id, c, Some(channel));
    FinalizeEndsIff(hung, w, id, None);
  }
}
