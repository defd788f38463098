/** What one handler leaves alone: every other call, and what is written of recordings that were deleted. */
module CallFrames {
  import opened Wrappers
  import opened CallRecords
  import opened CallSteps
  import opened CallInvariants
  import opened ExtensionKeys
  import IvrMenu

  // ---------------------------------------------------------------- what is looked at

  /** The call that the engine's own name of a leg carries. */
  function CallOf(channel: Channel): Option<CallId> {
    match channel
    case Employee(id, _) => Some(id)
    case Customer(id, _) => Some(id)
    case Foreign(_) => None
  }

  /** A leg of this name was asked for. */
  predicate Originated(log: seq<Request>, channel: Channel) {
    log != [] && (Originated(log[..|log| - 1], channel) || (log[|log| - 1].Originate? && log[|log| - 1].channel == channel))
  }

  /** Some leg of this call was asked for. */
  predicate Dialled(log: seq<Request>, k: CallId) {
    log != [] && (Dialled(log[..|log| - 1], k) || (log[|log| - 1].Originate? && CallOf(log[|log| - 1].channel) == Some(k)))
  }

  lemma {:induction false} OriginatedIsDialled(log: seq<Request>, channel: Channel, k: CallId)
    requires Originated(log, channel) && CallOf(channel) == Some(k)
    ensures Dialled(log, k)
  {
    if !(log[|log| - 1].Originate? && log[|log| - 1].channel == channel) { OriginatedIsDialled(log[..|log| - 1], channel, k); }
  }

  /** Some channel is indexed to this call. */
  predicate Indexed(legIndex: map<Channel, CallId>, k: CallId) { exists ch :: ch in legIndex && legIndex[ch] == k }

  /** The two sides of the call, and how far its no-answer path has come. */
  predicate SameSides(c: Call, d: Call) {
    d.inbound == c.inbound && d.rung == c.rung && d.employee == c.employee && d.customer == c.customer
  }

  predicate SameLadder(a: Books, b: Books) { b.rounds == a.rounds && b.forwards == a.forwards && b.reopened == a.reopened }

  /** Call `k` is not rung, joined to anybody new, or sent along the no-answer path. */
  predicate Rests(s: State, t: State, k: CallId) {
    && (k in t.core.calls <==> k in s.core.calls)
    && (k in s.core.calls ==> SameSides(s.core.calls[k], t.core.calls[k]))
    && SameLadder(BooksOf(s.core.trace, k), BooksOf(t.core.trace, k))
    && (Dialled(t.log, k) ==> Dialled(s.log, k))
    && (Indexed(t.legIndex, k) ==> Indexed(s.legIndex, k))
  }

  predicate Steady(s: State, t: State, k: CallId) { BooksOf(t.core.trace, k).strayed == BooksOf(s.core.trace, k).strayed }

  predicate Erased(core: Core, k: CallId) { k in core.calls && core.calls[k].recording == Deleted && core.calls[k].bridged }

  predicate Finished(core: Core, k: CallId) { k in core.calls && core.calls[k].recording == Finalized }

  /** A deleted recording stays deleted, and no recording is newly finished. */
  predicate Recorded(s: State, t: State, k: CallId) {
    && (Erased(s.core, k) ==> Erased(t.core, k))
    && (Finished(t.core, k) ==> Finished(s.core, k))
  }

  predicate Calm(s: State, t: State, k: CallId) { Rests(s, t, k) && Steady(s, t, k) && Recorded(s, t, k) }

  /** A handler of call `id` leaves every other call alone. */
  predicate Apart(s: State, t: State, id: CallId, k: CallId) { Steady(s, t, k) && Recorded(s, t, k) && (k != id ==> Rests(s, t, k)) }

  // ---------------------------------------------------------------- single writes

  lemma AskOne(s: State, request: Request, k: CallId)
    ensures Dialled(Ask(s, request).log, k) <==> Dialled(s.log, k) || (request.Originate? && CallOf(request.channel) == Some(k))
  {
    assert Ask(s, request).log[..|s.log|] == s.log;
  }

  /** A request other than for a leg of this call does not dial it. */
  lemma Asks(k: CallId)
    ensures forall s: State, r: Request {:trigger Ask(s, r)} ::
              Dialled(Ask(s, r).log, k) ==> Dialled(s.log, k) || (r.Originate? && CallOf(r.channel) == Some(k))
  {
    hide Dialled;
    forall s: State, r: Request
      ensures Dialled(Ask(s, r).log, k) ==> Dialled(s.log, k) || (r.Originate? && CallOf(r.channel) == Some(k))
    {
      AskOne(s, r, k);
    }
  }

  lemma Tells(k: CallId)
    ensures forall core: Core, id: CallId, kind: Kind {:trigger Note(core, id, kind)} ::
              BooksOf(Note(core, id, kind).trace, k) == if id == k then After(BooksOf(core.trace, k), kind) else BooksOf(core.trace, k)
  {
    hide BooksOf, After;
    forall core: Core, id: CallId, kind: Kind
      ensures BooksOf(Note(core, id, kind).trace, k) == if id == k then After(BooksOf(core.trace, k), kind) else BooksOf(core.trace, k)
    {
      BooksAppend(core.trace, Entry(id, kind), k);
    }
  }

  lemma Indexing(legIndex: map<Channel, CallId>, k: CallId)
    ensures forall ch: Channel :: Indexed(legIndex - {ch}, k) ==> Indexed(legIndex, k)
    ensures forall channels: seq<Channel> :: Indexed(Forget(legIndex, channels), k) ==> Indexed(legIndex, k)
    ensures forall channels: seq<Channel>, id: CallId :: id != k && Indexed(Register(legIndex, channels, id), k) ==> Indexed(legIndex, k)
  {}

  lemma IndexOne(legIndex: map<Channel, CallId>, ch: Channel, id: CallId, k: CallId)
    requires id != k && Indexed(legIndex[ch := id], k)
    ensures Indexed(legIndex, k)
  {
    var c :| c in legIndex[ch := id] && legIndex[ch := id][c] == k;
  }

  lemma CalmThen(s: State, t: State, u: State, k: CallId)
    requires Calm(s, t, k) && Calm(t, u, k)
    ensures Calm(s, u, k)
  {
    hide Dialled, BooksOf, Indexed;
  }

  lemma ApartThen(s: State, t: State, u: State, id: CallId, k: CallId)
    requires Apart(s, t, id, k) && Apart(t, u, id, k)
    ensures Apart(s, u, id, k)
  {
    hide Dialled, BooksOf, Indexed;
  }

  lemma CalmIsApart(s: State, t: State, id: CallId, k: CallId)
    ensures Calm(s, t, k) ==> Apart(s, t, id, k)
  {
    hide Dialled, BooksOf, Indexed, SameSides;
  }

  /** Marks that neither the ladder nor a menu leaves. */
  predicate Plain(kind: Kind) {
    kind != FallbackRound && kind != CallForwarding && kind != Reopened && kind != MenuSelected && kind != MenuFallback
  }

  /** A write that changes neither side of the call nor anything of a recording that is deleted or finished. */
  predicate Harmless(c: Call, d: Call) {
    && SameSides(c, d) && (c.recording == Deleted && c.bridged ==> d.recording == Deleted && d.bridged)
    && (d.recording == Finalized ==> c.recording == Finalized)
  }

  lemma NoteCalm(s: State, id: CallId, kind: Kind, k: CallId)
    requires Plain(kind)
    ensures Calm(s, s.(core := Note(s.core, id, kind)), k)
  {
    hide Dialled, BooksOf, Indexed;
    Tells(k);
  }

  lemma PutCalm(s: State, id: CallId, call: Call, k: CallId)
    requires id in s.core.calls && (k == id ==> Harmless(s.core.calls[id], call))
    ensures Calm(s, s.(core := Put(s.core, id, call)), k)
  {
    hide Dialled, BooksOf, Indexed;
  }

  lemma SaveCalm(s: State, id: CallId, call: Call, kind: Kind, k: CallId)
    requires id in s.core.calls && (k == id ==> Harmless(s.core.calls[id], call)) && Plain(kind)
    ensures Calm(s, s.(core := Save(s.core, id, call, kind)), k)
  {
    hide Calm;
    var put := s.(core := Put(s.core, id, call));
    PutCalm(s, id, call, k);
    NoteCalm(put, id, kind, k);
    CalmThen(s, put, s.(core := Save(s.core, id, call, kind)), k);
  }

  lemma AskCalm(s: State, request: Request, k: CallId)
    requires request.Originate? ==> CallOf(request.channel) != Some(k)
    ensures Calm(s, Ask(s, request), k)
  {
    hide BooksOf, Indexed;
    AskOne(s, request, k);
  }

  // ---------------------------------------------------------------- hanging up and ending

  lemma {:induction false} HangupEachCalm(s: State, channels: seq<Channel>, keep: Option<Channel>, k: CallId)
    ensures Calm(s, HangupEach(s, channels, keep), k)
    decreases |channels|
  {
    hide Dialled, BooksOf, Indexed;
    Asks(k);
    if channels != [] {
      HangupEachCalm(if Some(channels[0]) == keep then s else Ask(s, Hangup(channels[0])), channels[1..], keep, k);
    }
  }

  lemma {:induction false} CancelEachCalm(s: State, w: World, channels: seq<Channel>, k: CallId)
    ensures Calm(s, CancelEach(s, w, channels).state, k)
    decreases |channels|
  {
    hide Dialled, BooksOf, Indexed;
    Asks(k);
    if channels != [] { CancelEachCalm(Ask(s, Hangup(channels[0])), w, channels[1..], k); }
  }

  lemma HangupCallChannelsCalm(s: State, w: World, id: CallId, call: Call, keep: Option<Channel>, k: CallId)
    ensures Calm(s, HangupCallChannels(s, w, id, call, keep), k)
  {
    hide Dialled, BooksOf, Indexed, HangupEach;
    Asks(k);
    var head := if call.customer.Some? then [call.customer.value] else [];
    var s1 := HangupEach(s, Channels(call.Legs()) + head, keep);
    HangupEachCalm(s, Channels(call.Legs()) + head, keep, k);
    HangupEachCalm(Ask(s1, ListChannels), FarSide(s1, w, id, call, keep), keep, k);
  }

  lemma TearDownCalm(s: State, w: World, id: CallId, call: Call, k: CallId)
    ensures Calm(s, TearDown(s, w, id, call).state, k)
  {
    hide Dialled, BooksOf, Indexed;
    Asks(k);
  }

  lemma CloseCalm(s: State, id: CallId, now: nat, k: CallId)
    requires id in s.core.calls
    ensures Calm(s, s.(core := Close(s.core, id, now)), k)
  {
    hide Dialled, BooksOf, Indexed;
    Tells(k);
  }

  lemma FinalizeCalm(s: State, w: World, id: CallId, keep: Option<Channel>, k: CallId)
    ensures Calm(s, Finalize(s, w, id, keep).state, k)
  {
    hide Calm, HangupCallChannels, TearDown, Close;
    SameCalm(s, k);
    if id in s.core.calls && s.core.calls[id].status != Completed {
      var call := s.core.calls[id];
      var s1 := if call.named && call.recording == Running
                then s.(core := Put(s.core, id, call.(recording := Finalizing))) else s;
      if call.named && call.recording == Running { PutCalm(s, id, call.(recording := Finalizing), k); }
      var s2 := HangupCallChannels(s1, w, id, call, keep);
      HangupCallChannelsCalm(s1, w, id, call, keep, k);
      var torn := TearDown(s2, w, id, call);
      TearDownCalm(s2, w, id, call, k);
      CalmThen(s, s1, s2, k);
      CalmThen(s, s2, torn.state, k);
      if torn.ok {
        CloseCalm(torn.state, id, w.now, k);
        CalmThen(s, torn.state, Finalize(s, w, id, keep).state, k);
      }
    }
  }

  lemma SameCalm(s: State, k: CallId)
    ensures Calm(s, s, k)
  {
    hide Dialled, BooksOf, Indexed;
  }

  // ---------------------------------------------------------------- joining

  lemma {:induction false} BuildBridgeCalm(s: State, w: World, id: CallId, requests: seq<Request>, k: CallId)
    requires forall i :: 0 <= i < |requests| ==> !requests[i].Originate?
    ensures Calm(s, BuildBridge(s, w, id, requests).state, k)
    decreases |requests|
  {
    hide Dialled, BooksOf, Indexed;
    Asks(k);
    if requests != [] { BuildBridgeCalm(Ask(s, requests[0]), w, id, requests[1..], k); }
  }

  lemma StartRecordingCalm(s: State, w: World, id: CallId, k: CallId)
    requires id in s.core.calls
    requires s.core.calls[id].recording != Deleted || k != id
    ensures Calm(s, StartRecording(s, w, id), k)
  {
    hide Calm;
    SameCalm(s, k);
    var call := s.core.calls[id];
    if w.recorder(call.extension).On? {
      var c1 := call.(named := true, recording := Running);
      var s1 := s.(core := Put(s.core, id, c1));
      var s2 := Ask(s1, Record(id));
      PutCalm(s, id, c1, k);
      AskCalm(s1, Record(id), k);
      CalmThen(s, s1, s2, k);
      if !ReplyTo(s1, w, Record(id)).Done? {
        var c2 := c1.(recording := RecordingFailed);
        SaveCalm(s2, id, c2, RecordingRefused, k);
        CalmThen(s, s2, s2.(core := Save(s2.core, id, c2, RecordingRefused)), k);
      } else {
        AnnouncementCalm(s2, w, id, k);
        CalmThen(s, s2, StartRecording(s, w, id), k);
      }
    }
  }

  /** What follows once the recording has been started. */
  lemma AnnouncementCalm(s: State, w: World, id: CallId, k: CallId)
    ensures var s3 := s.(core := Note(s.core, id, RecordingStarted));
            var s4 := Ask(s3, Announce(id));
            Calm(s, s3, k) && Calm(s, s4, k) && Calm(s, s4.(core := Note(s4.core, id, AnnouncementFailed)), k)
  {
    hide Calm;
    var s3 := s.(core := Note(s.core, id, RecordingStarted));
    var s4 := Ask(s3, Announce(id));
    NoteCalm(s, id, RecordingStarted, k);
    AskCalm(s3, Announce(id), k);
    CalmThen(s, s3, s4, k);
    NoteCalm(s4, id, AnnouncementFailed, k);
    CalmThen(s, s4, s4.(core := Note(s4.core, id, AnnouncementFailed)), k);
  }

  lemma StartBridgeCalm(s: State, w: World, id: CallId, k: CallId)
    requires id in s.core.calls
    ensures Calm(s, StartBridge(s, w, id), k)
  {
    hide Calm, BuildBridge, HangupCallChannels, StartRecording;
    SameCalm(s, k);
    var call := s.core.calls[id];
    if !call.bridged && call.customer.Some? {
      var requests := [CreateBridge(id), AddToBridge(id, call.employee), AddToBridge(id, call.customer.value)];
      var built := BuildBridge(s, w, id, requests);
      BuildBridgeCalm(s, w, id, requests, k);
      if built.ok { BridgedCalm(built.state, w, id, k); }
      else { UnbridgedCalm(built.state, w, id, call, k); }
      CalmThen(s, built.state, StartBridge(s, w, id), k);
    }
  }

  lemma BridgedCalm(s: State, w: World, id: CallId, k: CallId)
    requires id in s.core.calls && !s.core.calls[id].bridged
    ensures Calm(s, StartRecording(s.(core := Save(s.core, id, s.core.calls[id].(bridged := true, status := Bridged), CallBridged)), w, id), k)
  {
    hide Dialled, BooksOf, Indexed, StartRecording;
    var call := s.core.calls[id];
    var bridged := s.(core := Save(s.core, id, call.(bridged := true, status := Bridged), CallBridged));
    SaveCalm(s, id, call.(bridged := true, status := Bridged), CallBridged, k);
    if call.recording != Deleted || k != id { StartRecordingCalm(bridged, w, id, k); }
    else { StartRecordingRests(bridged, w, id, k); }
  }

  /** A deleted recording of a call that has just been bridged is not looked at. */
  lemma StartRecordingRests(s: State, w: World, id: CallId, k: CallId)
    requires id in s.core.calls
    ensures var t := StartRecording(s, w, id); Rests(s, t, k) && Steady(s, t, k) && (Finished(t.core, k) ==> Finished(s.core, k))
  {
    hide Dialled, BooksOf, Indexed;
    var call := s.core.calls[id];
    var clean := s.(core := Put(s.core, id, call.(recording := NoRecording)));
    StartRecordingCalm(clean, w, id, k);
    StartRecordingForgets(s, w, id);
  }

  /** Starting a recording does not depend on the one before. */
  lemma StartRecordingForgets(s: State, w: World, id: CallId)
    requires id in s.core.calls
    ensures var clean := s.(core := Put(s.core, id, s.core.calls[id].(recording := NoRecording)));
            w.recorder(s.core.calls[id].extension).On? ==> StartRecording(clean, w, id) == StartRecording(s, w, id)
    ensures w.recorder(s.core.calls[id].extension).Off? ==> StartRecording(s, w, id) == s
  {
    var call := s.core.calls[id];
    var c1 := call.(named := true, recording := Running);
    assert Put(Put(s.core, id, call.(recording := NoRecording)), id, c1) == Put(s.core, id, c1);
  }

  lemma UnbridgedCalm(s: State, w: World, id: CallId, call: Call, k: CallId)
    requires id in s.core.calls && call == s.core.calls[id] && !call.bridged
    ensures var s1 := HangupCallChannels(Ask(s, DestroyBridge(id)), w, id, call, None);
            var d := call.(status := Failed, endedAt := Some(w.now), bridged := false, recording := RecordingFailed);
            Calm(s, s1.(core := Save(s1.core, id, d, CallFailed)), k)
  {
    hide Calm, HangupCallChannels;
    var asked := Ask(s, DestroyBridge(id));
    var s1 := HangupCallChannels(asked, w, id, call, None);
    var d := call.(status := Failed, endedAt := Some(w.now), bridged := false, recording := RecordingFailed);
    AskCalm(s, DestroyBridge(id), k);
    HangupCallChannelsCalm(asked, w, id, call, None, k);
    CalmThen(s, asked, s1, k);
    SaveCalm(s1, id, d, CallFailed, k);
    CalmThen(s, s1, s1.(core := Save(s1.core, id, d, CallFailed)), k);
  }

  lemma JoinCalm(s: State, w: World, id: CallId, k: CallId)
    requires id in s.core.calls
    ensures Calm(s, Join(s, w, id).state, k)
  {
    hide Dialled, BooksOf, Indexed, StartBridge;
    Tells(k);
    StartBridgeCalm(s, w, id, k);
  }

  // ---------------------------------------------------------------- ringing

  lemma {:induction false} RingEachApart(s: State, w: World, id: CallId, targets: seq<Target>, numbering: Numbering, legs: seq<Leg>, k: CallId)
    ensures Apart(s, RingEach(s, w, id, targets, numbering, legs).state, id, k)
    decreases |targets|
  {
    hide Dialled, BooksOf, Indexed;
    Asks(k);
    if targets != [] {
      var t := targets[0];
      var channel := Employee(id, LegNumber(numbering, |legs|, t.index));
      var asked := Ask(s, Originate(channel, t.endpoint));
      if id != k && Indexed(s.legIndex[channel := id], k) { IndexOne(s.legIndex, channel, id, k); }
      RingEachApart(asked.(legIndex := asked.legIndex[channel := id]), w, id, targets[1..], numbering, legs + [Leg(channel, t.extension)], k);
      RingEachApart(asked, w, id, targets[1..], numbering, legs, k);
    }
  }

  lemma VoicemailCalm(s: State, w: World, id: CallId, mailbox: string, k: CallId)
    requires id in s.core.calls
    ensures Calm(s, Voicemail(s, w, id, mailbox).state, k)
  {
    hide Dialled, BooksOf, Indexed, Finalize, CancelEach;
    Asks(k);
    Tells(k);
    var call := s.core.calls[id];
    var asked := Ask(s, Continue(call.customer.GetOr(Foreign("")), mailbox));
    FinalizeCalm(asked.(core := Note(asked.core, id, CallVoicemail)), w, id, call.customer, k);
    CancelEachCalm(asked, w, CustomerOf(call), k);
    FinalizeCalm(CancelEach(asked, w, CustomerOf(call)).state, w, id, None, k);
  }

  lemma MissedCalm(s: State, w: World, id: CallId, k: CallId)
    requires id in s.core.calls
    ensures Calm(s, Missed(s, w, id).state, k)
  {
    hide Dialled, BooksOf, Indexed, Finalize, CancelEach;
    Tells(k);
    var noted := s.(core := Note(s.core, id, CallMissed));
    CancelEachCalm(noted, w, CustomerOf(s.core.calls[id]), k);
    FinalizeCalm(CancelEach(noted, w, CustomerOf(s.core.calls[id])).state, w, id, None, k);
  }

  lemma ForwardApart(s: State, w: World, id: CallId, phone: string, k: CallId)
    requires id in s.core.calls
    ensures Apart(s, Forward(s, w, id, phone).state, id, k) && id in Forward(s, w, id, phone).state.core.calls
  {
    hide Dialled, BooksOf, Indexed;
    Asks(k);
    Tells(k);
    if id != k && Indexed(s.legIndex[Customer(id, 1) := id], k) { IndexOne(s.legIndex, Customer(id, 1), id, k); }
  }

  lemma {:induction false} NoAnswerApart(s: State, w: World, id: CallId, plan: Plan, k: CallId)
    ensures Apart(s, NoAnswer(s, w, id, plan).state, id, k)
    decreases if MayFallBack(s, id) then 1 else 0, 1
  {
    hide Dialled, BooksOf, Indexed, RingFallbacks, Voicemail, Forward, Missed;
    if id in s.core.calls && s.core.calls[id].endedAt.None? {
      if MayFallBack(s, id) && plan.fallbacks != [] {
        RingFallbacksApart(s, w, id, plan, k);
      } else {
        VoicemailCalm(s, w, id, plan.mailbox, k);
        ForwardApart(s, w, id, plan.forward, k);
        MissedCalm(Forward(s, w, id, plan.forward).state, w, id, k);
        MissedCalm(s, w, id, k);
      }
    }
  }

  lemma {:induction false} RingFallbacksApart(s: State, w: World, id: CallId, plan: Plan, k: CallId)
    requires MayFallBack(s, id) && plan.fallbacks != []
    ensures Apart(s, RingFallbacks(s, w, id, plan).state, id, k)
    decreases 1, 0
  {
    hide Dialled, BooksOf, Indexed, NoAnswer, RingEach, TargetsApart, Forget;
    Tells(k);
    var call := s.core.calls[id];
    var next := w.desk(plan.(destinations := plan.fallbacks), plan.fallbacks, call.number, OfExtension(plan.fallbacks[0]));
    var targets := TargetsApart(w, next.destinations, call.number);
    var round := RingEach(s, w, id, targets, ByRound, []);
    RingEachApart(s, w, id, targets, ByRound, [], k);
    Indexing(round.state.legIndex, k);
    if round.legs == [] {
      var written := round.state.(core :=
        Save(round.state.core, id, call.(extension := plan.fallbacks[0], status := RingingFallback), FallbackRound));
      NoAnswerApart(written, w, id, next, k);
    }
  }

  lemma StartOutboundApart(s: State, w: World, id: CallId, extension: string, phone: string, number: string, k: CallId)
    ensures Apart(s, StartOutbound(s, w, id, extension, phone, number).state, id, k)
  {
    hide Dialled, BooksOf, Indexed, RingEach;
    Tells(k);
    var call := Call(false, extension, phone, number, Initiated, false, None, None, Employee(id, 0), [], None, false, false, NoRecording);
    RingEachApart(s.(core := Create(s.core, id, call)), w, id, TargetsOf(extension, w.endpoints(extension, number), 0), ByPlace, [], k);
  }

  lemma RingInboundApart(s: State, w: World, id: CallId, plan: Plan, k: CallId)
    requires id in s.core.calls
    ensures Apart(s, RingInbound(s, w, id, plan).state, id, k)
  {
    hide Dialled, BooksOf, Indexed, RingEach, TargetsThrough, NoAnswer;
    Tells(k);
    var told := s.(core := Note(s.core, id, EmployeeRinging));
    var targets := TargetsThrough(w, plan.destinations, s.core.calls[id].number, 0);
    RingEachApart(told, w, id, targets, ByPlace, [], k);
    NoAnswerApart(RingEach(told, w, id, targets, ByPlace, []).state, w, id, plan, k);
  }

  // ---------------------------------------------------------------- a menu's choice

  /** The call's no-answer path has not been entered yet. */
  predicate NotUnderWay(core: Core, k: CallId) {
    BooksOf(core.trace, k).rounds == 0 && BooksOf(core.trace, k).forwards == 0
  }

  /** A choice leaves the other calls alone, and strays only if its call's no-answer path was under way. */
  predicate Chosen(s: State, t: State, id: CallId, k: CallId) {
    && Recorded(s, t, k) && (k != id ==> Rests(s, t, k))
    && (k != id || NotUnderWay(s.core, k) ==> Steady(s, t, k))
  }

  lemma ReopenChosen(s: State, id: CallId, k: CallId)
    requires id in s.core.calls
    ensures Chosen(s, Reopen(s, id), id, k)
  {
    hide Dialled, BooksOf, Indexed;
    Tells(k);
  }

  lemma ApartThenChosen(s: State, t: State, u: State, id: CallId, k: CallId)
    requires Apart(s, t, id, k) && Chosen(t, u, id, k) && t.core.trace == s.core.trace
    ensures Chosen(s, u, id, k)
  {
    hide Dialled, BooksOf, Indexed;
  }

  lemma ChosenThen(s: State, t: State, u: State, id: CallId, k: CallId)
    requires Chosen(s, t, id, k) && Apart(t, u, id, k)
    ensures Chosen(s, u, id, k)
  {
    hide Dialled, BooksOf, Indexed;
  }

  /** The chosen devices are written down. */
  lemma SaveChosen(s: State, id: CallId, d: Call, kind: Kind, k: CallId)
    requires id in s.core.calls && (kind == MenuSelected || kind == MenuFallback)
    requires d.recording == s.core.calls[id].recording && d.bridged == s.core.calls[id].bridged
    ensures Chosen(s, s.(core := Save(s.core, id, d, kind)), id, k)
  {
    hide Dialled, BooksOf, Indexed;
    Tells(k);
  }

  /** With nothing rung, the no-answer path follows. */
  lemma GoesOn(s: State, w: World, id: CallId, plan: Plan, k: CallId)
    requires id in s.core.calls
    ensures Chosen(s, NoAnswer(Reopen(s, id), w, id, plan).state, id, k)
  {
    hide Chosen, Apart, Reopen, NoAnswer;
    ReopenChosen(s, id, k);
    NoAnswerApart(Reopen(s, id), w, id, plan, k);
    ChosenThen(s, Reopen(s, id), NoAnswer(Reopen(s, id), w, id, plan).state, id, k);
  }

  lemma DialChosenChosen(s: State, w: World, session: MenuSession, key: string, k: CallId)
    ensures Chosen(s, DialChosen(s, w, session, key).state, session.call, k)
  {
    hide Chosen, Apart, Calm, RingEach, NoAnswer, Reopen;
    SameChosen(s, session.call, k);
    if session.call in s.core.calls {
      var id, call := session.call, s.core.calls[session.call].(extension := key);
      var plan := w.desk(session.plan.(destinations := [key]), [key], session.number, OfExtension(key));
      var s1 := s.(core := Put(s.core, id, call));
      var targets := if plan.destinations == [] then [] else TargetsOf(key, w.endpoints(key, session.number), 0);
      var round := RingEach(s1, w, id, targets, ByPlace, []);
      PutCalm(s, id, call, k);
      CalmIsApart(s, s1, id, k);
      RingEachApart(s1, w, id, targets, ByPlace, [], k);
      ApartThen(s, s1, round.state, id, k);
      var t := DialChosen(s, w, session, key).state;
      if round.legs == [] {
        GoesOn(round.state, w, id, plan, k);
      } else {
        SaveChosen(round.state, id, call.(employee := round.legs[0].channel, rung := round.legs), MenuSelected, k);
      }
      ApartThenChosen(s, round.state, t, id, k);
    }
  }

  lemma SameChosen(s: State, id: CallId, k: CallId)
    ensures Chosen(s, s, id, k) && Apart(s, s, id, k)
  {
    hide Dialled, BooksOf, Indexed;
  }

  lemma NoChoiceChosen(s: State, w: World, session: MenuSession, k: CallId)
    ensures Chosen(s, NoChoice(s, w, session).state, session.call, k)
  {
    hide Chosen, Apart, Calm, RingEach, NoAnswer, DialChosen, TargetsThrough, Reopen;
    SameChosen(s, session.call, k);
    var id := session.call;
    if session.plan.fallback != "" {
      var asked := Ask(s, StopPrompt(id, session.state.tries));
      AskCalm(s, StopPrompt(id, session.state.tries), k);
      CalmIsApart(s, asked, id, k);
      DialChosenChosen(asked, w, session, session.plan.fallback, k);
      ApartThenChosen(s, asked, NoChoice(s, w, session).state, id, k);
    } else if id in s.core.calls {
      var call, rest := s.core.calls[id], session.plan.fallbackDestinations;
      var plan := w.desk(session.plan.(destinations := rest), rest, session.number, OfNumber(session.number));
      var targets := TargetsThrough(w, plan.destinations, session.number, 0);
      var round := RingEach(s, w, id, targets, ByPlace, []);
      RingEachApart(s, w, id, targets, ByPlace, [], k);
      var t := NoChoice(s, w, session).state;
      if round.legs == [] { GoesOn(round.state, w, id, plan, k); }
      else {
        SaveChosen(round.state, id, call.(extension := round.legs[0].extension, employee := round.legs[0].channel, rung := round.legs), MenuFallback, k);
      }
      ApartThenChosen(s, round.state, t, id, k);
    }
  }

  lemma PlayToCalm(s: State, w: World, channel: Channel, attempt: nat, k: CallId)
    ensures Calm(s, PlayTo(s, w, channel, attempt), k)
  {
    hide Dialled, BooksOf, Indexed;
    Asks(k);
  }

  lemma OpenMenuCalm(s: State, w: World, id: CallId, channel: Channel, plan: Plan, k: CallId)
    requires id in s.core.calls
    ensures Calm(s, OpenMenu(s, w, id, channel, plan), k)
  {
    hide Dialled, BooksOf, Indexed, PlayTo;
    Tells(k);
    var t := OpenMenu(s, w, id, channel, plan);
    PlayToCalm(s.(core := Note(s.core, id, MenuOpened), sessions := t.sessions), w, channel, 0, k);
  }

  // ---------------------------------------------------------------- the far side

  lemma {:induction false} PlaceEachApart(s: State, w: World, id: CallId, targets: seq<string>, index: nat, placed: bool, k: CallId)
    ensures Apart(s, PlaceEach(s, w, id, targets, index, placed).state, id, k)
    decreases |targets|
  {
    hide Dialled, BooksOf, Indexed;
    Asks(k);
    if targets != [] {
      var request := Originate(Customer(id, index), targets[0]);
      PlaceEachApart(Ask(s, request), w, id, targets[1..], index + 1, placed || ReplyTo(s, w, request).Done?, k);
    }
  }

  lemma PlacedApart(tried: Outcome, w: World, id: CallId, k: CallId)
    requires id in tried.state.core.calls
    ensures Apart(tried.state, Placed(tried, w, id).state, id, k)
  {
    hide Dialled, BooksOf, Indexed, CancelEach;
    Tells(k);
    CancelEachCalm(tried.state, w, [tried.state.core.calls[id].employee], k);
  }

  lemma StartCustomerApart(s: State, w: World, id: CallId, k: CallId)
    requires id in s.core.calls
    ensures Apart(s, StartCustomer(s, w, id).state, id, k)
  {
    hide Dialled, BooksOf, Indexed, PlaceEach, CancelEach, Placed;
    Tells(k);
    var call := s.core.calls[id];
    if call.customer.None? && !call.Over() {
      match w.route(call.phone)
      case OutOfService =>
        CancelEachCalm(s.(core := Save(s.core, id, call.(status := Failed, endedAt := Some(w.now)), CallFailed)), w, [call.employee], k);
      case Local(extension) => DialsApart(s, w, id, w.endpoints(extension, call.phone), k);
      case Carrier => DialsApart(s, w, id, [call.phone], k);
    }
  }

  lemma DialsApart(s: State, w: World, id: CallId, targets: seq<string>, k: CallId)
    requires id in s.core.calls
    ensures Apart(s, Placed(PlaceEach(Dialling(s, id), w, id, targets, 0, false), w, id).state, id, k)
  {
    hide Dialled, BooksOf, Indexed, PlaceEach, Placed;
    Tells(k);
    PlaceEachApart(Dialling(s, id), w, id, targets, 0, false, k);
    PlacedApart(PlaceEach(Dialling(s, id), w, id, targets, 0, false), w, id, k);
  }

  // ---------------------------------------------------------------- events

  lemma PickUpApart(s: State, w: World, id: CallId, channel: Channel, k: CallId)
    requires id in s.core.calls
    ensures Apart(s, PickUp(s, w, id, channel).state, id, k)
  {
    hide Dialled, BooksOf, Indexed, CancelEach, Join, Only, ExtensionOf;
    Tells(k);
    var call := s.core.calls[id];
    var taken := s.(core := Save(s.core, id,
      call.(status := EmployeeAnswered, employee := channel, extension := ExtensionOf(call.Legs(), channel, call.extension)), EmployeePickedUp));
    CancelEachCalm(taken, w, Without(Channels(call.Legs()), channel), k);
    JoinCalm(CancelEach(taken, w, Without(Channels(call.Legs()), channel)).state, w, id, k);
  }

  lemma PickUpPanelApart(s: State, w: World, id: CallId, channel: Channel, k: CallId)
    requires id in s.core.calls
    ensures Apart(s, PickUpPanel(s, w, id, channel).state, id, k)
  {
    hide Dialled, BooksOf, Indexed, CancelEach, StartCustomer, Only;
    Tells(k);
    var call := s.core.calls[id];
    var cancelled := CancelEach(s, w, Without(Channels(call.Legs()), channel));
    CancelEachCalm(s, w, Without(Channels(call.Legs()), channel), k);
    StartCustomerApart(
      cancelled.state.(core := Save(cancelled.state.core, id, call.(status := EmployeeAnswered, employee := channel), EmployeePickedUp)),
      w, id, k);
  }

  /** A far side that picks up disturbs its own call only if it is not the one already recorded. */
  lemma FarSideUpApart(s: State, w: World, id: CallId, channel: Channel, k: CallId)
    requires id in s.core.calls
    ensures Apart(s, FarSideUp(s, w, id, channel).state, id, k)
    ensures s.core.calls[id].customer == Some(channel) ==> Calm(s, FarSideUp(s, w, id, channel).state, k)
  {
    hide Dialled, BooksOf, Indexed, CancelEach, Join, FarSide;
    Asks(k);
    var call := s.core.calls[id];
    var others := FarSide(s, w, id, call, Some(channel));
    var cancelled := CancelEach(Ask(s, ListChannels), w, others);
    CancelEachCalm(Ask(s, ListChannels), w, others, k);
    JoinCalm(cancelled.state.(core := Put(cancelled.state.core, id, call.(customer := Some(channel)))), w, id, k);
  }

  lemma RungOutApart(s: State, w: World, id: CallId, channel: Channel, isEmployee: bool, k: CallId)
    requires id in s.core.calls
    ensures Apart(s, RungOut(s, w, id, channel, isEmployee).state, id, k)
  {
    hide Dialled, BooksOf, Indexed, NoAnswer, Finalize, HangupCallChannels, StillRinging, JourneyOf, Forget;
    Asks(k);
    Indexing(s.legIndex, k);
    var call := s.core.calls[id];
    var listed := Ask(s, ListChannels);
    var quiet := listed.(legIndex := Forget(listed.legIndex, Channels(call.Legs())));
    NoAnswerApart(listed, w, id, JourneyOf(w, call), k);
    HangupCallChannelsCalm(quiet, w, id, call, Some(channel), k);
    FinalizeCalm(HangupCallChannels(quiet, w, id, call, Some(channel)), w, id, None, k);
  }

  lemma HungUpApart(s: State, w: World, id: CallId, channel: Channel, isEmployee: bool, k: CallId)
    requires id in s.core.calls
    ensures Apart(s, HungUp(s, w, id, channel, isEmployee).state, id, k)
  {
    hide Dialled, BooksOf, Indexed, Finalize, CancelEach, Forget;
    Indexing(s.legIndex, k);
    var call := s.core.calls[id];
    var other := if isEmployee then call.customer else Some(call.employee);
    var quiet := s.(legIndex := Forget(s.legIndex, Channels(call.Legs())));
    var gone := if other.Some? && other != Some(channel) then [other.value] else [];
    CancelEachCalm(quiet, w, gone, k);
    FinalizeCalm(CancelEach(quiet, w, gone).state, w, id, None, k);
  }

  lemma HandleHangupCalm(s: State, w: World, id: CallId, k: CallId)
    ensures Calm(s, HandleHangup(s, w, id).state, k)
  {
    hide Dialled, BooksOf, Indexed, Finalize, CancelEach;
    if id in s.core.calls {
      var call := s.core.calls[id];
      var channels := Channels(call.Legs()) + [call.employee] + CustomerOf(call);
      CancelEachCalm(s, w, channels, k);
      FinalizeCalm(CancelEach(s, w, channels).state, w, id, None, k);
    }
  }

  lemma HandleRecordingApart(s: State, w: World, id: CallId, failed: bool, k: CallId)
    ensures var t := HandleRecording(s, w, id, failed).state; Rests(s, t, k) && Steady(s, t, k) && (k != id ==> Recorded(s, t, k))
  {
    hide Dialled, BooksOf, Indexed;
    Asks(k);
    Tells(k);
  }

  /** Reconciling may finish recordings, but brings none back. */
  lemma {:induction false} ReconcileCalm(s: State, w: World, ids: seq<CallId>, k: CallId)
    ensures var t := ReconcileEach(s, w, ids); Rests(s, t, k) && Steady(s, t, k) && (Erased(s.core, k) ==> Erased(t.core, k))
    decreases |ids|
  {
    hide Dialled, BooksOf, Indexed;
    Asks(k);
    Tells(k);
    if ids != [] { ReconcileCalm(ReconcileOne(s, w, ids[|ids| - 1]), w, ids[..|ids| - 1], k); }
  }

  lemma RetainOneCalm(s: State, w: World, id: CallId, k: CallId)
    ensures Calm(s, RetainOne(s, w, id).state, k)
  {
    hide Dialled, BooksOf, Indexed;
    Asks(k);
    Tells(k);
  }

  lemma {:induction false} RetainCalm(s: State, w: World, ids: seq<CallId>, k: CallId)
    ensures Calm(s, RetainEach(s, w, ids).state, k)
    decreases |ids|
  {
    hide Dialled, BooksOf, Indexed, RetainOne;
    if ids != [] {
      RetainOneCalm(s, w, ids[|ids| - 1], k);
      RetainCalm(RetainOne(s, w, ids[|ids| - 1]).state, w, ids[..|ids| - 1], k);
    }
  }

  lemma RecoverOneApart(s: State, w: World, live: seq<Live>, id: CallId, k: CallId)
    ensures Apart(s, RecoverOne(s, w, live, id).state, id, k) && (id !in s.core.calls ==> Calm(s, RecoverOne(s, w, live, id).state, k))
  {
    hide Dialled, BooksOf, Indexed, StartCustomer, Join, Register, StateIn;
    Tells(k);
    if id in s.core.calls {
      Indexing(s.legIndex, k);
      var known := s.(legIndex := Register(s.legIndex, Channels(s.core.calls[id].Legs()), id));
      StartCustomerApart(known, w, id, k);
      JoinCalm(known, w, id, k);
    }
  }

  lemma {:induction false} RecoverEachApart(s: State, w: World, live: seq<Live>, ids: seq<CallId>, k: CallId)
    ensures var t := RecoverEach(s, w, live, ids).state; Steady(s, t, k) && Recorded(s, t, k) && (k !in s.core.calls ==> Rests(s, t, k))
    decreases |ids|
  {
    hide Dialled, BooksOf, Indexed, RecoverOne;
    if ids != [] {
      RecoverOneApart(s, w, live, ids[|ids| - 1], k);
      RecoverEachApart(RecoverOne(s, w, live, ids[|ids| - 1]).state, w, live, ids[..|ids| - 1], k);
    }
  }

  lemma RecoverApart(s: State, w: World, k: CallId)
    ensures var t := Recover(s, w).state;
            Steady(s, t, k) && (Erased(s.core, k) ==> Erased(t.core, k)) && (k !in s.core.calls ==> Rests(s, t, k))
  {
    hide Dialled, BooksOf, Indexed, ReconcileEach, RecoverEach;
    Asks(k);
    Emptied(k);
    var bare := s.(legIndex := map[], sessions := map[]);
    var rebuilt := ReconcileEach(bare, w, s.core.order);
    ReconcileCalm(bare, w, s.core.order, k);
    var asked := Ask(rebuilt, ListChannels);
    if ReplyTo(rebuilt, w, ListChannels).Done? { RecoverEachApart(asked, w, ReplyTo(rebuilt, w, ListChannels).live, asked.core.order, k); }
  }

  lemma Emptied(k: CallId)
    ensures !Indexed(map[], k)
  {}
}
