/** Who is joined to whom when a channel goes up. */
module CallPickUps {
  import opened Wrappers
  import opened CallRecords
  import opened CallSteps
  import opened CallInvariants
  import opened CallLaws
  import opened CallRequests
  import opened CallOutcomes

  // ---------------------------------------------------------------- joining two channels

  /** From the n-th request on Asterisk makes the bridge and admits both channels to it. */
  predicate Built(w: World, n: nat, id: CallId, a: Channel, b: Channel) {
    w.reply(n, CreateBridge(id)).Done? && w.reply(n + 1, AddToBridge(id, a)).Done? && w.reply(n + 2, AddToBridge(id, b)).Done?
  }

  /** Nobody but these two is put into a bridge, and only into this call's. */
  predicate JoinsOnly(asked: seq<Request>, id: CallId, a: Channel, b: Channel) {
    forall q :: q in asked && q.AddToBridge? ==> q.call == id && (q.channel == a || q.channel == b)
  }

  predicate JoinsNobody(asked: seq<Request>) { forall q :: q in asked ==> !q.AddToBridge? }

  /** Between two states: who was put into the bridge, and who was hung up. */
  predicate Joins(s: State, t: State, id: CallId, a: Channel, b: Channel) { Follows(s, t) && JoinsOnly(New(s, t), id, a, b) }

  predicate Quiet(s: State, t: State) { Follows(s, t) && JoinsNobody(New(s, t)) }

  predicate Stops(s: State, t: State, channels: seq<Channel>) {
    Follows(s, t) && forall c :: c in channels ==> Hangup(c) in New(s, t)
  }

  lemma LogsDecide(s: State, s': State, t: State, t': State, id: CallId, a: Channel, b: Channel, channels: seq<Channel>)
    requires s.log == s'.log && t.log == t'.log
    ensures Joins(s, t, id, a, b) <==> Joins(s', t', id, a, b)
    ensures Quiet(s, t) <==> Quiet(s', t')
    ensures Stops(s, t, channels) <==> Stops(s', t', channels)
  {}

  lemma QuietThen(s: State, t: State, u: State)
    requires Quiet(s, t) && Quiet(t, u)
    ensures Quiet(s, u)
  {
    NewThen(s, t, u);
  }

  lemma AsksQuietly(s: State, request: Request)
    requires !request.AddToBridge?
    ensures Quiet(s, Ask(s, request))
  {
    AskNew(s, request);
  }

  lemma JoinsThen(s: State, t: State, u: State, id: CallId, a: Channel, b: Channel)
    requires (Joins(s, t, id, a, b) && Quiet(t, u)) || (Quiet(s, t) && Joins(t, u, id, a, b))
    ensures Joins(s, u, id, a, b)
  {
    NewThen(s, t, u);
  }

  lemma StopsThen(s: State, t: State, u: State, channels: seq<Channel>)
    requires Follows(s, t) && Follows(t, u) && (Stops(s, t, channels) || Stops(t, u, channels))
    ensures Stops(s, u, channels)
  {
    NewThen(s, t, u);
  }

  lemma BuildsThree(s: State, w: World, id: CallId, a: Request, b: Request, c: Request)
    ensures var r, n := BuildBridge(s, w, id, [a, b, c]), |s.log|;
            && (r.ok <==> w.reply(n, a).Done? && w.reply(n + 1, b).Done? && w.reply(n + 2, c).Done?)
            && r.state.log == s.log + (if !w.reply(n, a).Done? then [a] else if !w.reply(n + 1, b).Done? then [a, b] else [a, b, c])
  {
    assert [a, b, c][1..] == [b, c] && [b, c][1..] == [c] && [c][1..] == [];
    assert BuildBridge(Ask(Ask(s, a), b), w, id, [c]).state.log == s.log + [a, b, c];
    assert BuildBridge(Ask(s, a), w, id, [b, c]).state.log == s.log + (if !w.reply(|s.log| + 1, b).Done? then [a, b] else [a, b, c]);
  }

  lemma {:induction false} HangupEachQuiet(s: State, channels: seq<Channel>, keep: Option<Channel>)
    ensures Quiet(s, HangupEach(s, channels, keep))
  {
    HangupEachAsks(s, channels, keep);
  }

  lemma HangupsQuiet(s: State, w: World, id: CallId, call: Call, keep: Option<Channel>)
    ensures Quiet(s, HangupCallChannels(s, w, id, call, keep))
  {
    hide HangupEach, Quiet;
    var head := if call.customer.Some? then [call.customer.value] else [];
    var s1 := HangupEach(s, Channels(call.Legs()) + head, keep);
    HangupEachQuiet(s, Channels(call.Legs()) + head, keep);
    AsksQuietly(s1, ListChannels);
    HangupEachQuiet(Ask(s1, ListChannels), FarSide(s1, w, id, call, keep), keep);
    QuietThen(s, s1, Ask(s1, ListChannels));
    QuietThen(s, Ask(s1, ListChannels), HangupCallChannels(s, w, id, call, keep));
  }

  /** Setting up the recording touches only what is written of the recording. */
  predicate SameButRecording(c: Call, d: Call) { d == c.(named := d.named, recording := d.recording) }

  lemma RecordingOnly(s: State, w: World, id: CallId)
    requires id in s.core.calls
    ensures var t := StartRecording(s, w, id); id in t.core.calls && SameButRecording(s.core.calls[id], t.core.calls[id])
  {}

  lemma RecordingQuiet(s: State, w: World, id: CallId)
    requires id in s.core.calls
    ensures Quiet(s, StartRecording(s, w, id))
  {
    hide Put, Save, Note;
  }

  lemma BuildQuietly(s: State, w: World, id: CallId, a: Channel, b: Channel)
    ensures Joins(s, BuildBridge(s, w, id, [CreateBridge(id), AddToBridge(id, a), AddToBridge(id, b)]).state, id, a, b)
  {
    hide BuildBridge;
    BuildsThree(s, w, id, CreateBridge(id), AddToBridge(id, a), AddToBridge(id, b));
    var u := BuildBridge(s, w, id, [CreateBridge(id), AddToBridge(id, a), AddToBridge(id, b)]).state;
    assert New(s, u) <= [CreateBridge(id), AddToBridge(id, a), AddToBridge(id, b)];
  }

  /** What bridging the two recorded sides comes to. */
  lemma BridgeOutcome(s: State, w: World, id: CallId)
    requires id in s.core.calls && !s.core.calls[id].bridged && s.core.calls[id].customer.Some?
    ensures var c, t, n := s.core.calls[id], StartBridge(s, w, id), |s.log|;
            var d := t.core.calls[id];
            if Built(w, n, id, c.employee, c.customer.value)
            then SameButRecording(c.(bridged := true, status := Bridged), d)
            else d == c.(status := Failed, endedAt := Some(w.now), bridged := false, recording := RecordingFailed)
  {
    hide BuildBridge, HangupCallChannels, StartRecording, SameButRecording;
    var c := s.core.calls[id];
    var built := BuildBridge(s, w, id, [CreateBridge(id), AddToBridge(id, c.employee), AddToBridge(id, c.customer.value)]);
    BuildsThree(s, w, id, CreateBridge(id), AddToBridge(id, c.employee), AddToBridge(id, c.customer.value));
    if built.ok {
      RecordingOnly(built.state.(core := Save(built.state.core, id, c.(bridged := true, status := Bridged), CallBridged)), w, id);
    }
  }

  /** And what it asks for. */
  lemma BridgeJoins(s: State, w: World, id: CallId)
    requires id in s.core.calls && !s.core.calls[id].bridged && s.core.calls[id].customer.Some?
    ensures var c := s.core.calls[id]; Joins(s, StartBridge(s, w, id), id, c.employee, c.customer.value)
  {
    hide BuildBridge, HangupCallChannels, StartRecording, Joins, Quiet;
    var c := s.core.calls[id];
    var built := BuildBridge(s, w, id, [CreateBridge(id), AddToBridge(id, c.employee), AddToBridge(id, c.customer.value)]);
    BuildQuietly(s, w, id, c.employee, c.customer.value);
    var t := StartBridge(s, w, id);
    if built.ok {
      var bridged := built.state.(core := Save(built.state.core, id, c.(bridged := true, status := Bridged), CallBridged));
      RecordingQuiet(bridged, w, id);
      LogsDecide(bridged, built.state, t, t, id, c.employee, c.customer.value, []);
    } else {
      var asked := Ask(built.state, DestroyBridge(id));
      AsksQuietly(built.state, DestroyBridge(id));
      HangupsQuiet(asked, w, id, c, None);
      LogsDecide(asked, asked, HangupCallChannels(asked, w, id, c, None), t, id, c.employee, c.customer.value, []);
      QuietThen(built.state, asked, t);
    }
    JoinsThen(s, built.state, t, id, c.employee, c.customer.value);
  }

  /** A running, unbridged call ends up answered now, on exactly its two recorded sides, or failed now. */
  predicate JoinedNow(w: World, n: nat, id: CallId, employee: Channel, customer: Channel, d: Call) {
    && d.employee == employee && d.customer == Some(customer)
    && (d.status == Answered <==> Built(w, n, id, employee, customer))
    && (d.status == Answered ==> d.answered && d.answeredAt == Some(w.now) && d.bridged && d.endedAt.None?)
    && (d.status != Answered ==> d.status == Failed && d.endedAt == Some(w.now) && !d.answered && !d.bridged)
  }

  lemma JoinOutcome(s: State, w: World, id: CallId)
    requires id in s.core.calls && s.core.calls[id].customer.Some?
    ensures var c, t := s.core.calls[id], Join(s, w, id).state;
            && id in t.core.calls && Joins(s, t, id, c.employee, c.customer.value)
            && t.core.calls[id].employee == c.employee && t.core.calls[id].customer == c.customer
            && t.core.calls[id].extension == c.extension
            && (!c.bridged && !c.answered && c.endedAt.None? ==> JoinedNow(w, |s.log|, id, c.employee, c.customer.value, t.core.calls[id]))
  {
    hide StartBridge, Built, Joins;
    var c := s.core.calls[id];
    if c.bridged {
      BridgedAlready(s, w, id);
      NobodyJoins(s, id, c.employee, c.customer.value);
      LogsDecide(s, s, s, Join(s, w, id).state, id, c.employee, c.customer.value, []);
    } else {
      BridgeOutcome(s, w, id);
      BridgeJoins(s, w, id);
      LogsDecide(s, s, StartBridge(s, w, id), Join(s, w, id).state, id, c.employee, c.customer.value, []);
    }
  }

  lemma NobodyJoins(s: State, id: CallId, a: Channel, b: Channel)
    ensures Joins(s, s, id, a, b)
  {}

  lemma BridgedAlready(s: State, w: World, id: CallId)
    requires id in s.core.calls && s.core.calls[id].bridged
    ensures StartBridge(s, w, id) == s
  {}

  // ---------------------------------------------------------------- stopping the others

  lemma {:induction false} CancelledAll(s: State, w: World, channels: seq<Channel>)
    ensures var t := CancelEach(s, w, channels); Quiet(s, t.state) && (t.ok ==> |t.state.log| == |s.log| + |channels|)
    ensures CancelEach(s, w, channels).ok ==> Stops(s, CancelEach(s, w, channels).state, channels)
    decreases |channels|
  {
    CancelEachAsks(s, w, channels);
    if channels != [] {
      hide HungUpAll, Quiet, Stops, New, Follows;
      CancelledAll(Ask(s, Hangup(channels[0])), w, channels[1..]);
    }
  }

  /** Hang up these, then join the two recorded sides. */
  lemma StopsThenJoins(s: State, w: World, id: CallId, channels: seq<Channel>, stopped: State, call: Call)
    requires stopped == CancelEach(s, w, channels).state && CancelEach(s, w, channels).ok
    requires id in s.core.calls && s.core.calls[id] == call && call.customer.Some?
    ensures var t := Join(stopped, w, id).state;
            && id in t.core.calls && Joins(s, t, id, call.employee, call.customer.value) && Stops(s, t, channels)
            && t.core.calls[id].employee == call.employee && t.core.calls[id].customer == call.customer
            && t.core.calls[id].extension == call.extension
            && (!call.bridged && !call.answered && call.endedAt.None? ==>
                  JoinedNow(w, |s.log| + |channels|, id, call.employee, call.customer.value, t.core.calls[id]))
  {
    hide CancelEach, Join, JoinedNow, Joins, Stops, Quiet;
    CancelledAll(s, w, channels);
    JoinOutcome(stopped, w, id);
    var t := Join(stopped, w, id).state;
    JoinsThen(s, stopped, t, id, call.employee, call.customer.value);
    Following(s, stopped, t, id, call.employee, call.customer.value);
    StopsThen(s, stopped, t, channels);
  }

  lemma Following(s: State, t: State, u: State, id: CallId, a: Channel, b: Channel)
    requires Quiet(s, t) && Joins(t, u, id, a, b)
    ensures Follows(s, t) && Follows(t, u)
  {}

  // ---------------------------------------------------------------- the three pick-ups

  lemma {:induction false} ExtensionIsOfTheLeg(legs: seq<Leg>, channel: Channel, default: string)
    requires channel in Channels(legs)
    ensures Leg(channel, ExtensionOf(legs, channel, default)) in legs
  {
    if legs[0].channel != channel {
      var i :| 0 <= i < |legs| && Channels(legs)[i] == channel;
      assert legs[1..][i - 1] == legs[i] && Channels(legs[1..])[i - 1] == channel;
      ExtensionIsOfTheLeg(legs[1..], channel, default);
    } else {
      assert legs[0] == Leg(channel, legs[0].extension);
    }
  }

  /** The other devices that ring with this one. */
  function Others(c: Call, channel: Channel): seq<Channel> { Without(Channels(c.Legs()), channel) }

  lemma OthersAre(c: Call, channel: Channel)
    ensures forall other :: other in Others(c, channel) <==> other in Channels(c.Legs()) && other != channel
  {
    OnlyKeeps(Channels(c.Legs()), other => other != channel);
  }

  /**
   * A device of an incoming call goes up, and Asterisk can be reached to stop the others: each of them is hung
   * up, and that device and no other is joined to the caller, under the extension it was rung for.
   */
  lemma DevicePickUpOutcome(s: State, w: World, id: CallId, channel: Channel)
    requires CoreOk(s.core, None) && CallForChannel(s, channel) == Some(id)
    requires s.core.calls[id].inbound && !s.core.calls[id].Over() && channel in Channels(s.core.calls[id].Legs())
    requires AllReached(s, w, Others(s.core.calls[id], channel))
    ensures var c, t := s.core.calls[id], Handle(s, w, WentUp(channel)).state;
            && id in t.core.calls && c.customer.Some?
            && t.core.calls[id].employee == channel && Leg(channel, t.core.calls[id].extension) in c.Legs()
            && Joins(s, t, id, channel, c.customer.value) && Stops(s, t, Others(c, channel))
            && (!c.bridged ==> JoinedNow(w, |s.log| + |Others(c, channel)|, id, channel, c.customer.value, t.core.calls[id]))
  {
    hide CoreOk, CallForChannel, CancelEach, Join, JoinedNow, Only, AllReached, ExtensionOf, Joins, Stops;
    KeptAt(s.core, id, None);
    var c := s.core.calls[id];
    var others := Others(c, channel);
    var d := c.(status := EmployeeAnswered, employee := channel, extension := ExtensionOf(c.Legs(), channel, c.extension));
    var taken := s.(core := Save(s.core, id, d, EmployeePickedUp));
    ExtensionIsOfTheLeg(c.Legs(), channel, c.extension);
    PickUpIsCutShortIff(s, w, id, channel);
    CancelledIffReached(taken, w, others);
    OnlyRequestsMatter(s, taken, w, others);
    StopsThenJoins(taken, w, id, others, CancelEach(taken, w, others).state, d);
    assert Handle(s, w, WentUp(channel)) == PickUp(s, w, id, channel);
    LogsDecide(taken, s, PickUp(s, w, id, channel).state, PickUp(s, w, id, channel).state, id, channel, c.customer.value, others);
  }

  /** Whether or not it is cut short, the device that picked up is the call's from then on, under the extension it was rung for. */
  lemma PickedUpBy(s: State, w: World, id: CallId, channel: Channel)
    requires CoreOk(s.core, None) && id in s.core.calls && s.core.calls[id].inbound
    requires channel in Channels(s.core.calls[id].Legs())
    ensures var t := PickUp(s, w, id, channel).state;
            && id in t.core.calls && t.core.calls[id].employee == channel && Leg(channel, t.core.calls[id].extension) in s.core.calls[id].Legs()
  {
    hide CoreOk, CancelEach, Join, JoinedNow, Only, AllReached, ExtensionOf, Joins, Stops;
    KeptAt(s.core, id, None);
    InboundFacts(s.core.calls[id]);
    var c := s.core.calls[id];
    ExtensionIsOfTheLeg(c.Legs(), channel, c.extension);
    var d := c.(status := EmployeeAnswered, employee := channel, extension := ExtensionOf(c.Legs(), channel, c.extension));
    var taken := s.(core := Save(s.core, id, d, EmployeePickedUp));
    if CancelEach(taken, w, Others(c, channel)).ok { StopsThenJoins(taken, w, id, Others(c, channel), CancelEach(taken, w, Others(c, channel)).state, d); }
  }

  /**
   * A device of the panel's employee goes up, and Asterisk can be reached to stop the others: each of them is hung
   * up, that device is the employee from now on, nobody is joined yet, and the far side is dialled once; when it
   * cannot be, that device is hung up.
   */
  lemma PanelPickUpOutcome(s: State, w: World, id: CallId, channel: Channel)
    requires CallForChannel(s, channel) == Some(id) && !s.core.calls[id].inbound && !s.core.calls[id].Over()
    requires channel in Channels(s.core.calls[id].Legs()) || channel == s.core.calls[id].employee
    requires s.core.calls[id].customer.None? && AllReached(s, w, Others(s.core.calls[id], channel))
    ensures var c, t := s.core.calls[id], Handle(s, w, WentUp(channel)).state;
            var n, targets := |s.log| + |Others(c, channel)|, FarTargets(w, c);
            && id in t.core.calls && t.core.calls[id].employee == channel
            && var d := t.core.calls[id];
               if w.route(c.phone).OutOfService?
               then d.status == Failed && d.endedAt == Some(w.now) && d.customer.None? && |t.log| == n + 1 && t.log[n] == Hangup(channel)
               else
                 && d.customer == Some(Customer(id, 0))
                 && (d.status == Failed <==> !AnyPlaced(w, n, id, targets, 0) && !w.reply(n + |targets|, Hangup(channel)).Unreachable?)
                 && (d.status != Failed ==> d.status == DialingCustomer)
  {
    hide CallForChannel, CancelEach, StartCustomer, Only, AllReached, AnyPlaced;
    var c := s.core.calls[id];
    var others := Others(c, channel);
    CancelledIffReached(s, w, others);
    CancelledAll(s, w, others);
    var cancelled := CancelEach(s, w, others).state;
    var taken := cancelled.(core := Save(cancelled.core, id, c.(status := EmployeeAnswered, employee := channel), EmployeePickedUp));
    CustomerOutcome(taken, w, id);
    CustomerKeepsEmployee(taken, w, id);
    assert Handle(s, w, WentUp(channel)) == PickUpPanel(s, w, id, channel);
  }

  lemma PlacedKeepsEmployee(tried: Outcome, w: World, id: CallId)
    requires id in tried.state.core.calls
    ensures var t := Placed(tried, w, id).state; id in t.core.calls && t.core.calls[id].employee == tried.state.core.calls[id].employee
  {
    hide CancelEach;
  }

  lemma CustomerKeepsEmployee(s: State, w: World, id: CallId)
    requires id in s.core.calls
    ensures var t := StartCustomer(s, w, id).state; id in t.core.calls && t.core.calls[id].employee == s.core.calls[id].employee
  {
    hide PlaceEach, CancelEach, Placed;
    var dialling := Dialling(s, id);
    match w.route(s.core.calls[id].phone)
    case OutOfService =>
    case Local(extension) => PlacedKeepsEmployee(PlaceEach(dialling, w, id, w.endpoints(extension, s.core.calls[id].phone), 0, false), w, id);
    case Carrier => PlacedKeepsEmployee(PlaceEach(dialling, w, id, [s.core.calls[id].phone], 0, false), w, id);
  }

  /**
   * A far side goes up, and Asterisk can be reached to stop the other live ones: each of them is hung up, and this
   * one and no other is joined to the employee.
   */
  lemma FarSideUpOutcome(s: State, w: World, id: CallId, channel: Channel)
    requires CoreOk(s.core, None) && CallForChannel(s, channel) == Some(id) && !s.core.calls[id].Over()
    requires channel !in Channels(s.core.calls[id].Legs()) && s.core.calls[id].customer.Some?
    requires s.core.calls[id].customer == Some(channel) || FarLeg(channel, id)
    requires AllReached(Ask(s, ListChannels), w, FarSide(s, w, id, s.core.calls[id], Some(channel)))
    ensures var c, t := s.core.calls[id], Handle(s, w, WentUp(channel)).state;
            && id in t.core.calls && t.core.calls[id].employee == c.employee && t.core.calls[id].customer == Some(channel)
            && Joins(s, t, id, c.employee, channel) && Stops(s, t, FarSide(s, w, id, c, Some(channel)))
            && (!c.bridged ==>
                  JoinedNow(w, |s.log| + 1 + |FarSide(s, w, id, c, Some(channel))|, id, c.employee, channel, t.core.calls[id]))
  {
    hide CoreOk, CallForChannel, FarSideUp, JoinedNow, AllReached, FarSide, Joins, Stops, Quiet;
    KeptAt(s.core, id, None);
    InboundFacts(s.core.calls[id]);
    assert Handle(s, w, WentUp(channel)) == FarSideUp(s, w, id, channel);
    FarSideJoins(s, w, id, channel);
  }

  lemma FarSideJoins(s: State, w: World, id: CallId, channel: Channel)
    requires id in s.core.calls && s.core.calls[id].customer.Some?
    requires AllReached(Ask(s, ListChannels), w, FarSide(s, w, id, s.core.calls[id], Some(channel)))
    ensures var c, t := s.core.calls[id], FarSideUp(s, w, id, channel).state;
            && id in t.core.calls && t.core.calls[id].employee == c.employee && t.core.calls[id].customer == Some(channel)
            && Joins(s, t, id, c.employee, channel) && Stops(s, t, FarSide(s, w, id, c, Some(channel)))
            && (!c.bridged && !c.answered && c.endedAt.None? ==>
                  JoinedNow(w, |s.log| + 1 + |FarSide(s, w, id, c, Some(channel))|, id, c.employee, channel, t.core.calls[id]))
  {
    hide CancelEach, Join, JoinedNow, AllReached, FarSide, Joins, Stops, Quiet;
    var c := s.core.calls[id];
    var others := FarSide(s, w, id, c, Some(channel));
    var asked := Ask(s, ListChannels);
    CancelledIffReached(asked, w, others);
    var met := asked.(core := Put(asked.core, id, c.(customer := Some(channel))));
    SameCancel(asked, met, w, others);
    StopsThenJoins(met, w, id, others, CancelEach(met, w, others).state, c.(customer := Some(channel)));
    var t := Join(CancelEach(met, w, others).state, w, id).state;
    assert FarSideUp(s, w, id, channel).state == t;
    AsksQuietly(s, ListChannels);
    LogsDecide(met, asked, t, t, id, c.employee, channel, others);
    JoinsThen(s, asked, t, id, c.employee, channel);
    Following(s, asked, t, id, c.employee, channel);
    StopsThen(s, asked, t, others);
  }

  /** The other far legs are those that Asterisk lists as alive; none when it cannot say. */
  lemma FarSideIs(s: State, w: World, id: CallId, c: Call, channel: Channel)
    ensures forall other :: other in FarSide(s, w, id, c, Some(channel)) <==>
              && other != channel && (Some(other) == c.customer || FarLeg(other, id))
              && ReplyTo(s, w, ListChannels).Done? && exists l :: l in ReplyTo(s, w, ListChannels).live && l.channel == other
  {
    if !ReplyTo(s, w, ListChannels).Done? { return; }
    var live, alive := ReplyTo(s, w, ListChannels).live, Alive(s, w);
    OnlyKeeps(alive, x => Some(x) != Some(channel) && (Some(x) == c.customer || FarLeg(x, id)));
    forall l | l in live ensures l.channel in alive {
      var i :| 0 <= i < |live| && live[i] == l;
      assert alive[i] == l.channel;
    }
    forall x | x in alive ensures exists l :: l in live && l.channel == x {
      var i :| 0 <= i < |alive| && alive[i] == x;
      assert live[i] in live;
    }
  }

  /** Cancelling depends only on the requests made before. */
  lemma {:induction false} SameCancel(s: State, t: State, w: World, channels: seq<Channel>)
    requires t.log == s.log
    ensures CancelEach(t, w, channels).ok == CancelEach(s, w, channels).ok
    ensures CancelEach(t, w, channels).state == t.(log := CancelEach(s, w, channels).state.log)
    decreases |channels|
  {
    if channels != [] { SameCancel(Ask(s, Hangup(channels[0])), Ask(t, Hangup(channels[0])), w, channels[1..]); }
  }
}
