/** What the call engine asks Asterisk to hang up, and what it leaves alone. */
module CallRequests {
  import opened Wrappers
  import opened CallRecords
  import opened CallSteps
  import CallInvariants
  import CallLaws

  /** The requests made between two states. */
  function New(s: State, t: State): seq<Request>
    requires |s.log| <= |t.log|
  {
    t.log[|s.log|..]
  }

  predicate Follows(s: State, t: State) { s.log <= t.log }

  /** Every listed channel but one is asked to hang up, and nothing else is asked. */
  predicate HungUpAll(asked: seq<Request>, channels: seq<Channel>, keep: Option<Channel>) {
    && (forall c :: c in channels && Some(c) != keep ==> Hangup(c) in asked)
    && (forall r :: r in asked ==> r.Hangup? && r.channel in channels && Some(r.channel) != keep)
  }

  lemma {:induction false} HangupEachAsks(s: State, channels: seq<Channel>, keep: Option<Channel>)
    ensures var t := HangupEach(s, channels, keep); Follows(s, t) && HungUpAll(New(s, t), channels, keep)
    decreases |channels|
  {
    if channels != [] {
      hide HungUpAll, Follows, New;
      var next := if Some(channels[0]) == keep then s else Ask(s, Hangup(channels[0]));
      var t := HangupEach(s, channels, keep);
      HangupEachAsks(next, channels[1..], keep);
      OneMoreHungUp(New(next, t), channels, keep);
      AskNew(s, Hangup(channels[0]));
      if Some(channels[0]) != keep { NewThen(s, next, t); } else { NothingFirst(New(s, t)); }
    }
  }

  lemma NothingFirst(asked: seq<Request>)
    ensures [] + asked == asked
  {}

  lemma OneMoreHungUp(asked: seq<Request>, channels: seq<Channel>, keep: Option<Channel>)
    requires channels != [] && HungUpAll(asked, channels[1..], keep)
    ensures HungUpAll((if Some(channels[0]) == keep then [] else [Hangup(channels[0])]) + asked, channels, keep)
  {
    assert channels == [channels[0]] + channels[1..];
  }

  lemma {:induction false} CancelEachAsks(s: State, w: World, channels: seq<Channel>)
    ensures var t := CancelEach(s, w, channels);
            && Follows(s, t.state)
            && (forall r :: r in New(s, t.state) ==> r.Hangup? && r.channel in channels)
            && (t.ok ==> HungUpAll(New(s, t.state), channels, None))
    decreases |channels|
  {
    if channels != [] {
      var next := Ask(s, Hangup(channels[0]));
      var t := CancelEach(s, w, channels).state;
      CancelEachAsks(next, w, channels[1..]);
      assert New(s, next) == [Hangup(channels[0])];
      assert New(s, t) == New(s, next) + New(next, t);
      assert channels == [channels[0]] + channels[1..];
    }
  }

  lemma NewThen(s: State, t: State, u: State)
    requires Follows(s, t) && Follows(t, u)
    ensures Follows(s, u) && New(s, u) == New(s, t) + New(t, u)
  {}

  lemma AskNew(s: State, request: Request)
    ensures Follows(s, Ask(s, request)) && New(s, Ask(s, request)) == [request]
  {}

  /** The channels a call owns by its record: every rung leg and its far-side head. */
  function Owned(call: Call): seq<Channel> { Channels(call.Legs()) + CustomerOf(call) }

  predicate NeverHangsUp(asked: seq<Request>, channel: Option<Channel>) {
    channel.Some? ==> Hangup(channel.value) !in asked
  }

  predicate HangsUpOwned(asked: seq<Request>, call: Call, keep: Option<Channel>) {
    forall c :: c in Owned(call) && Some(c) != keep ==> Hangup(c) in asked
  }

  lemma HangupCallChannelsAsks(s: State, w: World, id: CallId, call: Call, keep: Option<Channel>)
    ensures var t := HangupCallChannels(s, w, id, call, keep);
            Follows(s, t) && HangsUpOwned(New(s, t), call, keep) && NeverHangsUp(New(s, t), keep)
  {
    hide HangupEach, FarSide;
    var owned := Owned(call);
    var s1 := HangupEach(s, owned, keep);
    HangupEachAsks(s, owned, keep);
    var s2 := Ask(s1, ListChannels);
    AskNew(s1, ListChannels);
    var far := FarSide(s1, w, id, call, keep);
    HangupEachAsks(s2, far, keep);
    NewThen(s, s1, s2);
    NewThen(s, s2, HangupEach(s2, far, keep));
  }

  /**
   * Ending a call hangs up every leg it rang and its far side, except a channel deliberately kept; that one
   * is left alone whether or not Asterisk can be reached to the end.
   */
  lemma FinalizeHangsUpAllButKept(s: State, w: World, id: CallId, keep: Option<Channel>)
    requires id in s.core.calls && s.core.calls[id].status != Completed
    ensures var r := Finalize(s, w, id, keep).state;
            && Follows(s, r)
            && HangsUpOwned(New(s, r), s.core.calls[id], keep)
            && NeverHangsUp(New(s, r), keep)
  {
    hide HangupCallChannels, Close, Sweeps, Follows, New, HangsUpOwned, NeverHangsUp;
    var call := s.core.calls[id];
    var s1 := if call.named && call.recording == Running then s.(core := Put(s.core, id, call.(recording := Finalizing))) else s;
    var s2 := HangupCallChannels(s1, w, id, call, keep);
    Swept(s1, w, id, call, keep);
    SweepsLog(s1, s, s2, s2, call, keep);
    SweepsOn(s, s2, StopRecording(id), call, keep);
    var s3 := if call.named && call.recording == Running then Ask(s2, StopRecording(id)) else s2;
    SweepsOn(s, s3, DestroyBridge(id), call, keep);
    var r := Finalize(s, w, id, keep).state;
    var t := if r.log == s2.log then s2 else if r.log == s3.log then s3 else Ask(s3, DestroyBridge(id));
    SweepsLog(s, s, t, r, call, keep);
    SweepsMeans(s, r, call, keep);
  }

  /** The requests between two states hang up everything a call owns but the kept channel, and never that one. */
  predicate Sweeps(s: State, t: State, call: Call, keep: Option<Channel>) {
    Follows(s, t) && HangsUpOwned(New(s, t), call, keep) && NeverHangsUp(New(s, t), keep)
  }

  lemma Swept(s: State, w: World, id: CallId, call: Call, keep: Option<Channel>)
    ensures Sweeps(s, HangupCallChannels(s, w, id, call, keep), call, keep)
  {
    HangupCallChannelsAsks(s, w, id, call, keep);
  }

  lemma SweepsOn(s: State, t: State, request: Request, call: Call, keep: Option<Channel>)
    requires Sweeps(s, t, call, keep) && !request.Hangup?
    ensures Sweeps(s, Ask(t, request), call, keep)
  {
    AskNew(t, request);
    NewThen(s, t, Ask(t, request));
  }

  /** Only the requests matter. */
  lemma SweepsLog(s: State, s': State, t: State, t': State, call: Call, keep: Option<Channel>)
    requires Sweeps(s, t, call, keep) && s'.log == s.log && t'.log == t.log
    ensures Sweeps(s', t', call, keep)
  {}

  lemma SweepsMeans(s: State, t: State, call: Call, keep: Option<Channel>)
    requires Sweeps(s, t, call, keep)
    ensures Follows(s, t) && HangsUpOwned(New(s, t), call, keep) && NeverHangsUp(New(s, t), keep)
  {}

  lemma MoreIsStillAll(asked: seq<Request>, more: seq<Request>, call: Call, keep: Option<Channel>)
    ensures HangsUpOwned(asked, call, keep) ==> HangsUpOwned(asked + more, call, keep)
  {}

  /** A caller the mailbox took over is never hung up, while every device that rang for them is. */
  lemma HandedCallerStays(s: State, w: World, id: CallId, mailbox: string)
    requires id in s.core.calls && s.core.calls[id].status != Completed
    requires ReplyTo(s, w, Continue(s.core.calls[id].customer.GetOr(Foreign("")), mailbox)).Done?
    ensures var call, r := s.core.calls[id], Voicemail(s, w, id, mailbox).state;
            && Follows(s, r)
            && NeverHangsUp(New(s, r), call.customer)
            && HangsUpOwned(New(s, r), call, call.customer)
  {
    hide Finalize, HangsUpOwned;
    var call := s.core.calls[id];
    var request := Handover(s, id, mailbox);
    var offered := Ask(s, request);
    AskNew(s, request);
    var told := offered.(core := Note(offered.core, id, CallVoicemail));
    FinalizeHangsUpAllButKept(told, w, id, call.customer);
    var r := Finalize(told, w, id, call.customer).state;
    NewThen(s, told, r);
    LateIsStillAll([request], New(told, r), call, call.customer);
  }

  /** The request that hands the caller to the mailbox. */
  function Handover(s: State, id: CallId, mailbox: string): Request
    requires id in s.core.calls
  {
    Continue(s.core.calls[id].customer.GetOr(Foreign("")), mailbox)
  }

  lemma LateIsStillAll(before: seq<Request>, asked: seq<Request>, call: Call, keep: Option<Channel>)
    ensures HangsUpOwned(asked, call, keep) ==> HangsUpOwned(before + asked, call, keep)
  {}

  /** Every one of these channels is hung up in turn without Asterisk becoming unreachable. */
  predicate AllReached(s: State, w: World, channels: seq<Channel>)
    decreases |channels|
  {
    channels == [] || (!ReplyTo(s, w, Hangup(channels[0])).Unreachable? && AllReached(Ask(s, Hangup(channels[0])), w, channels[1..]))
  }

  lemma {:induction false} CancelledIffReached(s: State, w: World, channels: seq<Channel>)
    ensures CancelEach(s, w, channels).ok <==> AllReached(s, w, channels)
    decreases |channels|
  {
    if channels != [] { CancelledIffReached(Ask(s, Hangup(channels[0])), w, channels[1..]); }
  }

  /** A pick-up is cut short exactly when Asterisk becomes unreachable while the other devices are being stopped. */
  lemma PickUpIsCutShortIff(s: State, w: World, id: CallId, channel: Channel)
    requires id in s.core.calls
    ensures PickUp(s, w, id, channel).ok <==> AllReached(s, w, Without(Channels(s.core.calls[id].Legs()), channel))
  {
    hide Only, ExtensionOf, StartBridge, MarkAnswered, AllReached;
    var call := s.core.calls[id];
    var others := Without(Channels(call.Legs()), channel);
    var taken := s.(core := Save(s.core, id,
      call.(status := EmployeeAnswered, employee := channel, extension := ExtensionOf(call.Legs(), channel, call.extension)), EmployeePickedUp));
    CancelledIffReached(taken, w, others);
    OnlyRequestsMatter(s, taken, w, others);
  }

  lemma {:induction false} OnlyRequestsMatter(s: State, t: State, w: World, channels: seq<Channel>)
    requires s.log == t.log
    ensures AllReached(s, w, channels) <==> AllReached(t, w, channels)
    decreases |channels|
  {
    if channels != [] { OnlyRequestsMatter(Ask(s, Hangup(channels[0])), Ask(t, Hangup(channels[0])), w, channels[1..]); }
  }

  /**
   * Whoever picks up first takes the call: while Asterisk can be reached for it, every other device that rang
   * is hung up; and in any case no device but those others is hung up before the two sides are joined.
   */
  lemma PickUpStopsTheOthers(s: State, w: World, id: CallId, channel: Channel)
    requires id in s.core.calls
    ensures var call, r := s.core.calls[id], PickUp(s, w, id, channel).state;
            var others := Without(Channels(call.Legs()), channel);
            && Follows(s, r)
            && (AllReached(s, w, others) ==> forall c :: c in Channels(call.Legs()) && c != channel ==> Hangup(c) in New(s, r))
            && (!AllReached(s, w, others) ==> forall q :: q in New(s, r) ==> q.Hangup? && q.channel in others && q.channel != channel)
  {
    hide Only, Join, StartBridge, ExtensionOf, AllReached;
    var call := s.core.calls[id];
    var channels := Channels(call.Legs());
    var others := Without(channels, channel);
    OnlyKeeps(channels, c => c != channel);
    PickUpIsCutShortIff(s, w, id, channel);
    var d := call.(status := EmployeeAnswered, employee := channel, extension := ExtensionOf(call.Legs(), channel, call.extension));
    var taken := s.(core := Save(s.core, id, d, EmployeePickedUp));
    var cancelled := CancelEach(taken, w, others);
    CancelEachAsks(taken, w, others);
    JoinFollows(cancelled.state, w, id);
    CancelledIffReached(taken, w, others);
    OnlyRequestsMatter(s, taken, w, others);
    NewThen(s, cancelled.state, Join(cancelled.state, w, id).state);
    assert New(taken, cancelled.state) == New(s, cancelled.state);
    if cancelled.ok {
      forall c | c in channels && c != channel ensures Hangup(c) in New(s, cancelled.state) {
        assert c in others;
      }
    }
  }

  lemma JoinFollows(s: State, w: World, id: CallId)
    requires id in s.core.calls
    ensures Follows(s, Join(s, w, id).state)
  {
    hide HangupCallChannels, BuildBridge, StartRecording, HangsUpOwned, NeverHangsUp;
    var call := s.core.calls[id];
    if !call.bridged && call.customer.Some? {
      var requests := [CreateBridge(id), AddToBridge(id, call.employee), AddToBridge(id, call.customer.value)];
      var built := BuildBridge(s, w, id, requests);
      BuildFollows(s, w, id, requests);
      RecordingFollows(built.state.(core := Save(built.state.core, id, call.(bridged := true, status := Bridged), CallBridged)), w, id);
      HangupCallChannelsAsks(Ask(built.state, DestroyBridge(id)), w, id, call, None);
    }
  }

  lemma RecordingFollows(s: State, w: World, id: CallId)
    requires id in s.core.calls
    ensures Follows(s, StartRecording(s, w, id))
  {
    hide Put, Save, Note;
  }

  lemma {:induction false} BuildFollows(s: State, w: World, id: CallId, requests: seq<Request>)
    ensures Follows(s, BuildBridge(s, w, id, requests).state)
    decreases |requests|
  {
    if requests != [] { BuildFollows(Ask(s, requests[0]), w, id, requests[1..]); }
  }

  lemma {:induction false} OnlyKeeps(channels: seq<Channel>, p: Channel -> bool)
    ensures forall c :: c in Only(channels, p) <==> c in channels && p(c)
  {
    if channels != [] {
      OnlyKeeps(channels[1..], p);
      assert channels == [channels[0]] + channels[1..];
    }
  }

  /** A hang-up request that is not cut short ends the call and hangs up everything its record owns. */
  lemma HangupEndsEverything(s: State, w: World, id: CallId)
    requires CallInvariants.CoreOk(s.core, None) && id in s.core.calls && HandleHangup(s, w, id).ok
    ensures var r := HandleHangup(s, w, id).state;
            && id in r.core.calls && r.core.calls[id].Over()
            && Follows(s, r) && HangsUpOwned(New(s, r), s.core.calls[id], None)
  {
    hide Finalize, CancelEach, CallInvariants.CoreOk, CallInvariants.Evolved;
    CallLaws.HandleHangupKeeps(s, w, id);
    var call := s.core.calls[id];
    var channels := Channels(call.Legs()) + [call.employee] + CustomerOf(call);
    var gone := CancelEach(s, w, channels).state;
    CancelEachAsks(s, w, channels);
    FinalizeFollows(gone, w, id);
    NewThen(s, gone, Finalize(gone, w, id, None).state);
    OwnedAreHungUp(New(s, gone), channels, call);
    MoreIsStillAll(New(s, gone), New(gone, Finalize(gone, w, id, None).state), call, None);
  }

  lemma OwnedAreHungUp(asked: seq<Request>, channels: seq<Channel>, call: Call)
    requires HungUpAll(asked, channels, None) && forall c :: c in Owned(call) ==> c in channels
    ensures HangsUpOwned(asked, call, None)
  {}

  lemma FinalizeFollows(s: State, w: World, id: CallId)
    ensures Follows(s, Finalize(s, w, id, None).state)
  {
    hide Finalize, HangsUpOwned, NeverHangsUp;
    if id in s.core.calls && s.core.calls[id].status != Completed {
      FinalizeHangsUpAllButKept(s, w, id, None);
    } else {
      NothingToEnd(s, w, id);
    }
  }

  lemma NothingToEnd(s: State, w: World, id: CallId)
    requires id !in s.core.calls || s.core.calls[id].status == Completed
    ensures Finalize(s, w, id, None).state == s
  {}

  /** Cancelling one channel is one request, however it is answered. */
  lemma CancelOneAsks(s: State, w: World, channel: Channel)
    ensures CancelEach(s, w, [channel]).state == Ask(s, Hangup(channel))
  {
    assert [channel][1..] == [];
  }

  /** A caller nobody answered is hung up, whatever becomes of the rest. */
  lemma MissedCallerIsHungUp(s: State, w: World, id: CallId)
    requires id in s.core.calls && s.core.calls[id].customer.Some?
    ensures var r := Missed(s, w, id).state;
            Follows(s, r) && Hangup(s.core.calls[id].customer.value) in New(s, r)
  {
    hide Finalize;
    var call := s.core.calls[id];
    var told := s.(core := Note(s.core, id, CallMissed));
    var gone := CancelEach(told, w, CustomerOf(call)).state;
    CancelOneAsks(told, w, call.customer.value);
    AskNew(told, Hangup(call.customer.value));
    FinalizeFollows(gone, w, id);
    NewThen(told, gone, Finalize(gone, w, id, None).state);
  }

  /** When one side of an answered call hangs up, the other side is hung up. */
  lemma OtherSideIsHungUp(s: State, w: World, id: CallId, channel: Channel, isEmployee: bool)
    requires id in s.core.calls
    ensures var call, r := s.core.calls[id], HungUp(s, w, id, channel, isEmployee).state;
            var other := if isEmployee then call.customer else Some(call.employee);
            other.Some? && other != Some(channel) ==> Follows(s, r) && Hangup(other.value) in New(s, r)
  {
    hide Finalize, Forget;
    var call := s.core.calls[id];
    var other := if isEmployee then call.customer else Some(call.employee);
    if other.Some? && other != Some(channel) {
      var quiet := s.(legIndex := Forget(s.legIndex, Channels(call.Legs())));
      var gone := CancelEach(quiet, w, [other.value]).state;
      CancelOneAsks(quiet, w, other.value);
      AskNew(quiet, Hangup(other.value));
      FinalizeFollows(gone, w, id);
      NewThen(quiet, gone, Finalize(gone, w, id, None).state);
    }
  }
}
