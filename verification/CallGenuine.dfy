/** Runs whose events name only channels that exist: what the call ladder allows in them. */
module CallGenuine {
  import opened Wrappers
  import opened CallRecords
  import opened CallSteps
  import opened CallInvariants
  import opened CallLaws
  import opened CallRuns
  import opened CallFrames
  import opened ExtensionKeys
  import IvrMenu

  /** A channel Asterisk named itself, or a leg that was asked for. */
  predicate Exists(log: seq<Request>, channel: Channel) { channel.Foreign? || Originated(log, channel) }

  /** An event about a channel is about one that exists. */
  predicate Genuine(log: seq<Request>, event: Event) {
    match event
    case Arrived(channel, _, _, _, _, _) => Exists(log, channel)
    case WentUp(channel) => Exists(log, channel)
    case Gone(channel) => Exists(log, channel)
    case _ => true
  }

  predicate GenuineRun(s: State, steps: seq<Step>)
    decreases |steps|
  {
    steps != [] ==> Genuine(s.log, steps[0].event) && GenuineRun(Handle(s, steps[0].world, steps[0].event).state, steps[1..])
  }

  // ---------------------------------------------------------------- the invariant

  /** A call of which no leg was ever asked for, and to which no channel is indexed. */
  predicate Unrung(s: State, k: CallId) { !Dialled(s.log, k) && !Indexed(s.legIndex, k) }

  /** A caller waiting in a menu: nobody was rung for them, and their no-answer path has not been entered. */
  predicate Waiting(s: State, channel: Channel, k: CallId) {
    && k in s.core.calls && Unrung(s, k) && NotUnderWay(s.core, k)
    && s.core.calls[k].inbound && s.core.calls[k].rung == [] && s.core.calls[k].employee == Employee(k, 0)
    && s.core.calls[k].customer == Some(channel)
  }

  ghost predicate Known(s: State) { forall k: CallId :: k !in s.core.calls ==> Unrung(s, k) }

  predicate AllWait(s: State) { forall channel :: channel in s.sessions ==> Waiting(s, channel, s.sessions[channel].call) }

  ghost predicate Straight(s: State) { forall k: CallId :: BooksOf(s.core.trace, k).strayed == 0 }

  ghost predicate Orderly(s: State) { Known(s) && AllWait(s) && Straight(s) }

  // ---------------------------------------------------------------- calm steps

  lemma WaitsOn(s: State, t: State, channel: Channel, k: CallId)
    requires Waiting(s, channel, k) && Rests(s, t, k)
    ensures Waiting(t, channel, k)
  {
    hide Dialled, BooksOf, Indexed;
  }

  lemma UnrungStill(s: State, t: State, k: CallId)
    requires Unrung(s, k) && Rests(s, t, k)
    ensures Unrung(t, k)
  {
    hide Dialled, BooksOf, Indexed;
  }

  /** Every call that could be waiting rests, no menu strays, and no session is opened: the order is kept. */
  lemma OrderStays(s: State, t: State)
    requires Orderly(s)
    requires forall k: CallId :: k !in s.core.calls ==> Rests(s, t, k)
    requires forall channel :: channel in t.sessions ==>
               channel in s.sessions && t.sessions[channel].call == s.sessions[channel].call && Rests(s, t, s.sessions[channel].call)
    requires forall k: CallId :: Steady(s, t, k)
    requires forall k: CallId :: k in s.core.calls ==> k in t.core.calls
    ensures Orderly(t)
  {
    hide Rests, Waiting, Unrung, BooksOf;
    forall k: CallId | k !in t.core.calls ensures Unrung(t, k) { UnrungStill(s, t, k); }
    forall channel | channel in t.sessions ensures Waiting(t, channel, t.sessions[channel].call) {
      WaitsOn(s, t, channel, s.sessions[channel].call);
    }
    forall k: CallId ensures BooksOf(t.core.trace, k).strayed == 0 { assert Steady(s, t, k); }
  }

  /** What a handler that disturbs no call may do. */
  predicate CalmFor(s: State, t: State, k: CallId) { Rests(s, t, k) && Steady(s, t, k) }

  lemma CalmOrder(s: State, t: State)
    requires Orderly(s) && Evolved(s.core, t.core)
    requires forall k: CallId :: CalmFor(s, t, k)
    requires forall channel :: channel in t.sessions ==> channel in s.sessions && t.sessions[channel].call == s.sessions[channel].call
    ensures Orderly(t)
  {
    hide Rests, Steady, Orderly, CallEvolved;
    assert forall k: CallId :: CalmFor(s, t, k) ==> Rests(s, t, k) && Steady(s, t, k);
    OrderStays(s, t);
  }

  /** A handler of one call that is nobody's waiting one. */
  lemma ApartOrder(s: State, t: State, id: CallId)
    requires Orderly(s) && Evolved(s.core, t.core) && id in s.core.calls
    requires forall k: CallId :: Apart(s, t, id, k)
    requires forall channel :: channel in t.sessions ==>
               channel in s.sessions && t.sessions[channel] == s.sessions[channel] && s.sessions[channel].call != id
    ensures Orderly(t)
  {
    hide Rests, Steady, Recorded, Orderly, CallEvolved;
    assert forall k: CallId :: Apart(s, t, id, k) ==> Steady(s, t, k) && (k != id ==> Rests(s, t, k));
    OrderStays(s, t);
  }

  // ---------------------------------------------------------------- whose channel it is

  lemma {:induction false} FoundIsASide(core: Core, order: seq<CallId>, channel: Channel)
    ensures var r := FindByChannel(core, order, channel);
            r.Some? ==> core.calls[r.value].employee == channel || core.calls[r.value].customer == Some(channel)
  {
    if order != [] { FoundIsASide(core, order[..|order| - 1], channel); }
  }

  /** The only channel that exists and belongs to a waiting caller's call is the caller's own. */
  lemma WaitingIsFoundByCaller(s: State, channel: Channel, own: Channel, k: CallId)
    requires Waiting(s, own, k) && Exists(s.log, channel)
    requires CallForChannel(s, channel) == Some(k) || channel in Channels(s.core.calls[k].Legs()) || FarLeg(channel, k)
    ensures channel == own && channel !in Channels(s.core.calls[k].Legs())
  {
    hide Dialled, BooksOf;
    FoundIsASide(s.core, s.core.order, channel);
    assert Channels(s.core.calls[k].Legs()) == [Employee(k, 0)];
    if CallOf(channel) == Some(k) && Originated(s.log, channel) { OriginatedIsDialled(s.log, channel, k); }
  }

  // ---------------------------------------------------------------- events

  lemma OutboundOrder(s: State, w: World, id: CallId, extension: string, phone: string, number: string)
    requires Sane(s) && Orderly(s)
    ensures Orderly(StartOutbound(s, w, id, extension, phone, number).state)
  {
    hide Apart, Orderly, CoreOk, SessionsOk, Evolved;
    var t := StartOutbound(s, w, id, extension, phone, number).state;
    StartOutboundKeeps(s, w, id, extension, phone, number);
    if id !in s.core.calls {
      forall k: CallId ensures Apart(s, t, id, k) { StartOutboundApart(s, w, id, extension, phone, number, k); }
      NewcomerOrder(s, t, id);
    }
  }

  /** A new call joins; nobody waits in a menu for it. */
  lemma NewcomerOrder(s: State, t: State, id: CallId)
    requires Orderly(s) && Evolved(s.core, t.core) && id !in s.core.calls && t.sessions == s.sessions
    requires id in t.core.calls
    requires forall k: CallId :: Apart(s, t, id, k)
    ensures Orderly(t)
  {
    hide Rests, Recorded, Waiting, Unrung, CallEvolved, BooksOf;
    assert forall k: CallId :: Apart(s, t, id, k) ==> Steady(s, t, k) && (k != id ==> Rests(s, t, k));
    forall k: CallId | k !in t.core.calls ensures Unrung(t, k) { UnrungStill(s, t, k); }
    forall channel | channel in t.sessions ensures Waiting(t, channel, t.sessions[channel].call) {
      assert Waiting(s, channel, s.sessions[channel].call);
      WaitingIsListed(s, channel, s.sessions[channel].call);
      WaitsOn(s, t, channel, s.sessions[channel].call);
    }
    forall k: CallId ensures BooksOf(t.core.trace, k).strayed == 0 { assert Steady(s, t, k); }
  }

  lemma WaitingIsListed(s: State, channel: Channel, k: CallId)
    requires Waiting(s, channel, k)
    ensures k in s.core.calls
  {}

  lemma CreateApart(s: State, id: CallId, call: Call, k: CallId)
    requires id !in s.core.calls && call.recording == NoRecording
    ensures Apart(s, s.(core := Create(s.core, id, call)), id, k)
  {
    hide Dialled, BooksOf, Indexed;
    Tells(k);
  }

  /** The caller of a new call is asked: nobody was rung for it, since nobody knew of it. */
  lemma OpenMenuOrder(s: State, w: World, id: CallId, channel: Channel, call: Call, plan: Plan)
    requires Sane(s) && Orderly(s) && id !in s.core.calls
    requires call.inbound && !call.answered && call.status == Ringing && call.endedAt.None? && !call.bridged && !call.named
    requires call.recording == NoRecording && call.rung == [] && call.employee == Employee(id, 0) && call.customer == Some(channel)
    ensures Orderly(OpenMenu(s.(core := Create(s.core, id, call)), w, id, channel, plan))
  {
    hide OpenMenu, Rests, Recorded, Unrung, CallEvolved, BooksOf, CoreOk, SessionsOk, Evolved, Create;
    SaneParts(s);
    CreateKeeps(s.core, id, call);
    var s1 := s.(core := Create(s.core, id, call));
    var t := OpenMenu(s1, w, id, channel, plan);
    CreateInboundKeeps(s, id, call);
    OpenMenuKeeps(s1, w, id, channel, plan);
    SessionsAfter(s1, w, id, channel, plan);
    forall k: CallId
      ensures Steady(s, t, k) && (k != id ==> Rests(s, t, k)) && Rests(s1, t, k)
    {
      CreateApart(s, id, call, k);
      OpenMenuCalm(s1, w, id, channel, plan, k);
      CalmIsApart(s1, t, id, k);
      ApartThen(s, s1, t, id, k);
    }
    assert Unrung(s, id);
    SameChannels(s, s1, id);
    WaitsOn(s1, t, channel, id);
    forall k: CallId | k !in t.core.calls ensures Unrung(t, k) { Persisting(s1.core, t.core, k); UnrungStill(s, t, k); }
    forall ch | ch in t.sessions ensures Waiting(t, ch, t.sessions[ch].call) {
      if ch != channel {
        assert Waiting(s, ch, s.sessions[ch].call);
        WaitsOn(s, t, ch, s.sessions[ch].call);
      }
    }
    forall k: CallId ensures BooksOf(t.core.trace, k).strayed == 0 { assert Steady(s, t, k); }
  }

  lemma Persisting(a: Core, b: Core, k: CallId)
    requires Evolved(a, b) && k !in b.calls
    ensures k !in a.calls
  {}

  lemma SessionsAfter(s: State, w: World, id: CallId, channel: Channel, plan: Plan)
    requires id in s.core.calls
    ensures var t := OpenMenu(s, w, id, channel, plan);
            channel in t.sessions && t.sessions == s.sessions[channel := t.sessions[channel]] && t.sessions[channel].call == id
  {
    hide PlayTo;
  }

  lemma SameChannels(s: State, t: State, k: CallId)
    requires Unrung(s, k) && t.log == s.log && t.legIndex == s.legIndex
    ensures Unrung(t, k)
  {}

  lemma StartInboundOrder(s: State, w: World, channel: Channel, did: string, extension: string, caller: string, id: CallId)
    requires Sane(s) && Orderly(s)
    ensures Orderly(StartInbound(s, w, channel, did, extension, caller, id).state)
  {
    hide Orderly, Calm, Apart, OpenMenu, RingInbound, FindByChannel, Create, CancelEach, Sane, Evolved;
    if w.admit(did, extension).None? {
      var t := CancelOne(s, w, channel).state;
      forall k: CallId ensures Calm(s, t, k) { CancelEachCalm(s, w, [channel], k); }
      AllCalm(s, t);
    } else if FindByChannel(s.core, s.core.order, channel).None? && id !in s.core.calls {
      var line := w.admit(did, extension).value;
      var call := Call(true, line.extension, caller, line.number, Ringing, false, None, None, Employee(id, 0), [], Some(channel), false, false, NoRecording);
      var s1 := s.(core := Create(s.core, id, call));
      var plan := w.journey(line.number, line.extension);
      if plan.menu {
        OpenMenuOrder(s, w, id, channel, call, plan);
      } else {
        CreateInboundKeeps(s, id, call);
        var t := RingInbound(s1, w, id, plan).state;
        RingInboundKeeps(s1, w, id, plan);
        SaneThen(s, s1, t);
        forall k: CallId ensures Apart(s, t, id, k) {
          CreateApart(s, id, call, k);
          RingInboundApart(s1, w, id, plan, k);
          ApartThen(s, s1, t, id, k);
        }
        Persists(s1.core, t.core, id);
        NewcomerOrder(s, t, id);
      }
    }
  }

  lemma Persists(a: Core, b: Core, id: CallId)
    requires Keeps(a, b) && id in a.calls
    ensures id in b.calls
  {}

  /** With every call calm and the sessions as they were, the order is kept. */
  lemma AllCalm(s: State, t: State)
    requires Orderly(s) && (forall k: CallId :: Calm(s, t, k))
    requires forall channel :: channel in t.sessions ==> channel in s.sessions && t.sessions[channel].call == s.sessions[channel].call
    ensures Orderly(t)
  {
    hide Rests, Steady, Recorded, Orderly;
    assert forall k: CallId :: Calm(s, t, k) ==> Rests(s, t, k) && Steady(s, t, k);
    forall k: CallId | k in s.core.calls ensures k in t.core.calls { RestsKeeps(s, t, k); }
    OrderStays(s, t);
  }

  lemma RestsKeeps(s: State, t: State, k: CallId)
    requires Rests(s, t, k)
    ensures k in s.core.calls ==> k in t.core.calls
  {}

  lemma HandleArrivalOrder(s: State, w: World, channel: Channel, inbound: bool, did: string, extension: string, caller: string, id: CallId)
    requires Sane(s) && Orderly(s)
    ensures Orderly(HandleArrival(s, w, channel, inbound, did, extension, caller, id).state)
  {
    hide Orderly, Calm, Sane, StartInbound, FindByChannel;
    StartInboundOrder(s, w, channel, did, extension, caller, id);
    if CallForChannel(s, channel).Some? {
      var found := CallForChannel(s, channel).value;
      var call := s.core.calls[found];
      var t := s.(core := Save(s.core, found, call.(status := Ringing), EmployeeRinging));
      forall k: CallId ensures Calm(s, t, k) { SaveCalm(s, found, call.(status := Ringing), EmployeeRinging, k); }
      AllCalm(s, t);
    }
  }

  lemma HandleUpOrder(s: State, w: World, channel: Channel)
    requires Sane(s) && Orderly(s) && Exists(s.log, channel)
    ensures Orderly(HandleUp(s, w, channel).state)
  {
    hide Orderly, Calm, Apart, CoreOk, SessionsOk, Evolved, PickUp, PickUpPanel, FarSideUp, CallForChannel;
    HandleUpKeeps(s, w, channel);
    if CallForChannel(s, channel).Some? {
      var id := CallForChannel(s, channel).value;
      var call, t := s.core.calls[id], HandleUp(s, w, channel).state;
      if call.Over() {
        forall k: CallId ensures Calm(s, t, k) { AskCalm(s, Hangup(channel), k); }
        AllCalm(s, t);
      } else if own :| own in s.sessions && s.sessions[own].call == id {
        WaitingCallIs(s, own, id, channel);
        forall k: CallId ensures Calm(s, t, k) { FarSideUpApart(s, w, id, channel, k); }
        AllCalm(s, t);
      } else {
        forall k: CallId ensures Apart(s, t, id, k) { UpApart(s, w, id, channel, k); }
        ApartOrder(s, t, id);
      }
    }
  }

  lemma UpApart(s: State, w: World, id: CallId, channel: Channel, k: CallId)
    requires CallForChannel(s, channel) == Some(id) && !s.core.calls[id].Over()
    ensures Apart(s, HandleUp(s, w, channel).state, id, k)
  {
    hide Apart, PickUp, PickUpPanel, FarSideUp, CallForChannel;
    SameChosen(s, id, k);
    PickUpApart(s, w, id, channel, k);
    PickUpPanelApart(s, w, id, channel, k);
    FarSideUpApart(s, w, id, channel, k);
  }

  /** What an event about the call of a waiting caller can be: the caller's own channel, which is no leg. */
  lemma WaitingCallIs(s: State, own: Channel, id: CallId, channel: Channel)
    requires Orderly(s) && own in s.sessions && s.sessions[own].call == id
    requires CallForChannel(s, channel) == Some(id) && Exists(s.log, channel)
    ensures channel == own && s.core.calls[id].customer == Some(channel) && s.core.calls[id].inbound
    ensures channel !in Channels(s.core.calls[id].Legs())
  {
    hide Dialled, BooksOf, Indexed, CallForChannel, Known, Straight;
    WaitingIsFoundByCaller(s, channel, own, id);
  }

  lemma HandleGoneOrder(s: State, w: World, channel: Channel)
    requires Sane(s) && Orderly(s) && Exists(s.log, channel)
    ensures Orderly(HandleGone(s, w, channel).state)
  {
    hide Orderly, Calm, Apart, CoreOk, SessionsOk, Evolved, RungOut, HungUp, CallForChannel;
    HandleGoneKeeps(s, w, channel);
    if CallForChannel(s, channel).Some? {
      var id := CallForChannel(s, channel).value;
      var t := HandleGone(s, w, channel).state;
      if s.core.calls[id].endedAt.Some? {
        forall k: CallId ensures Calm(s, t, k) { ForgetsCalm(s, t, channel, k); }
        AllCalm(s, t);
      } else {
        forall k: CallId ensures Apart(s, t, id, k) { GoneApart(s, w, id, channel, k); }
        forall ch | ch in t.sessions ensures ch in s.sessions && t.sessions[ch] == s.sessions[ch] && s.sessions[ch].call != id {
          if s.sessions[ch].call == id { WaitingCallIs(s, ch, id, channel); GoneLeaves(s, w, id, channel); }
        }
        ApartOrder(s, t, id);
      }
    }
  }

  /** The end of a channel on a running call closes its menu. */
  lemma GoneLeaves(s: State, w: World, id: CallId, channel: Channel)
    requires CoreOk(s.core, None) && CallForChannel(s, channel) == Some(id) && s.core.calls[id].endedAt.None?
    ensures channel !in HandleGone(s, w, channel).state.sessions
  {
    hide CoreOk, Evolved, CallForChannel, RungOut, HungUp;
    var call := s.core.calls[id];
    var isEmployee := channel in Channels(call.Legs()) || channel == call.employee;
    var left := s.(sessions := s.sessions - {channel});
    if !call.answered { RungOutKeeps(left.(legIndex := s.legIndex - {channel}), w, id, channel, isEmployee); }
    HungUpKeeps(left, w, id, channel, isEmployee);
  }

  lemma ForgetsCalm(s: State, t: State, channel: Channel, k: CallId)
    requires t == s.(legIndex := s.legIndex - {channel}, sessions := t.sessions)
    ensures Calm(s, t, k)
  {
    hide Dialled, BooksOf, Indexed;
    Indexing(s.legIndex, k);
  }

  lemma GoneApart(s: State, w: World, id: CallId, channel: Channel, k: CallId)
    requires CallForChannel(s, channel) == Some(id) && s.core.calls[id].endedAt.None?
    ensures Apart(s, HandleGone(s, w, channel).state, id, k)
  {
    hide Dialled, BooksOf, Indexed, CallForChannel, RungOut, HungUp;
    var call := s.core.calls[id];
    var isEmployee := channel in Channels(call.Legs()) || channel == call.employee;
    var left := s.(sessions := s.sessions - {channel});
    Indexing(s.legIndex, k);
    RungOutApart(left.(legIndex := s.legIndex - {channel}), w, id, channel, isEmployee, k);
    HungUpApart(left, w, id, channel, isEmployee, k);
  }

  lemma ConcludeOrder(s: State, w: World, channel: Channel, session: MenuSession, outcome: IvrMenu.Outcome)
    requires Sane(s) && Orderly(s) && channel in s.sessions && session.call == s.sessions[channel].call && SessionOk(s.core, session)
    ensures Orderly(Conclude(s, w, channel, session, outcome).state)
  {
    hide Orderly, Calm, CoreOk, SessionsOk, Evolved, PlayTo, DialChosen, NoChoice, SessionOk;
    var t := Conclude(s, w, channel, session, outcome).state;
    match outcome
    case Open(_) =>
      forall k: CallId ensures Calm(s, t, k) { OnlySessions(s, t, k); }
      AllCalm(s, t);
    case Prompted(next) =>
      var asked := s.(sessions := s.sessions[channel := session.(state := next)]);
      forall k: CallId ensures Calm(s, t, k) {
        OnlySessions(s, asked, k);
        PlayToCalm(asked, w, channel, next.tries, k);
        CalmThen(s, asked, t, k);
      }
      AllCalm(s, t);
    case Dialled(key) =>
      var left := Leave(s, channel, session);
      DialChosenKeeps(left, w, session, key);
      forall k: CallId ensures Chosen(left, t, session.call, k) { DialChosenChosen(left, w, session, key, k); }
      LeavesOrderly(s, left, t, channel, session);
    case GaveUp(_) =>
      var left := Leave(s, channel, session);
      NoChoiceKeeps(left, w, session);
      forall k: CallId ensures Chosen(left, t, session.call, k) { NoChoiceChosen(left, w, session, k); }
      LeavesOrderly(s, left, t, channel, session);
  }

  lemma OnlySessions(s: State, t: State, k: CallId)
    requires t == s.(sessions := t.sessions)
    ensures Calm(s, t, k)
  {
    hide Dialled, BooksOf, Indexed;
  }

  /** The caller's choice is the only one made for that call, and comes before anything else was tried for it. */
  lemma LeavesOrderly(s: State, left: State, t: State, channel: Channel, session: MenuSession)
    requires Orderly(s) && channel in s.sessions && s.sessions[channel].call == session.call
    requires left == Leave(s, channel, session) && t.sessions == left.sessions && Evolved(left.core, t.core)
    requires forall k: CallId :: Chosen(left, t, session.call, k)
    ensures Orderly(t)
  {
    hide Dialled, BooksOf, Indexed, Chosen, Recorded, CallEvolved;
    var id := session.call;
    assert Waiting(s, channel, id);
    forall k: CallId ensures Steady(s, t, k) && (k != id ==> Rests(s, t, k)) { ChoiceApart(s, left, t, channel, session, k); }
    forall ch | ch in t.sessions ensures ch in s.sessions && t.sessions[ch] == s.sessions[ch] && Rests(s, t, s.sessions[ch].call) {
      assert Waiting(s, ch, s.sessions[ch].call);
    }
    hide Orderly, Waiting, Rests, Steady;
    OrderStays(s, t);
  }

  lemma ChoiceApart(s: State, left: State, t: State, channel: Channel, session: MenuSession, k: CallId)
    requires left == Leave(s, channel, session) && NotUnderWay(s.core, session.call) && Chosen(left, t, session.call, k)
    ensures Steady(s, t, k) && (k != session.call ==> Rests(s, t, k))
  {
    hide Dialled, BooksOf, Indexed;
    Asks(k);
  }

  lemma PressDigitOrder(s: State, w: World, channel: Channel, digit: string)
    requires Sane(s) && Orderly(s)
    ensures Orderly(PressDigit(s, w, channel, digit).state)
  {
    hide Orderly, CoreOk, Conclude, IvrMenu.Press, BooksOf;
    if channel in s.sessions && AllDigits(digit) {
      var session := Filled(w, s.sessions[channel]);
      assert SessionOk(s.core, s.sessions[channel]);
      ConcludeOrder(s, w, channel, session, IvrMenu.Press(session.menu, session.state, digit, w.now));
    }
  }

  lemma TickOneOrder(s: State, w: World, channel: Channel)
    requires Sane(s) && Orderly(s)
    ensures Orderly(TickOne(s, w, channel).state)
  {
    hide Orderly, CoreOk, Conclude, IvrMenu.Tick, BooksOf;
    if channel in s.sessions && IvrMenu.Due(s.sessions[channel].state, w.now) {
      assert SessionOk(s.core, s.sessions[channel]);
      var session := if s.sessions[channel].state.digits == "" then s.sessions[channel] else Filled(w, s.sessions[channel]);
      ConcludeOrder(s, w, channel, session, IvrMenu.Tick(session.menu, session.state, w.now));
    }
  }

  lemma {:induction false} TickEachOrder(s: State, w: World, channels: seq<Channel>)
    requires Sane(s) && Orderly(s)
    ensures Orderly(TickEach(s, w, channels).state)
    decreases |channels|
  {
    hide Orderly, Sane, TickOne, Evolved;
    if channels != [] {
      TickOneOrder(s, w, channels[0]);
      TickOneKeeps(s, w, channels[0]);
      TickEachOrder(TickOne(s, w, channels[0]).state, w, channels[1..]);
    }
  }

  /** Handlers that disturb no call at all, whatever they write of recordings. */
  lemma SweepOrder(s: State, t: State)
    requires Orderly(s) && t.sessions == s.sessions && Keeps(s.core, t.core)
    requires forall k: CallId :: CalmFor(s, t, k)
    ensures Orderly(t)
  {
    hide Orderly, CalmFor, CoreOk, Evolved;
    CalmOrder(s, t);
  }

  lemma RecoverOrder(s: State, w: World)
    requires Sane(s) && Orderly(s)
    ensures Orderly(Recover(s, w).state)
  {
    hide Orderly, Sane, Recover, Rests, Steady, CallEvolved, CoreOk;
    var t := Recover(s, w).state;
    SaneParts(s);
    RecoverKeeps(s, w);
    forall k: CallId ensures Steady(s, t, k) && (k !in s.core.calls ==> Rests(s, t, k)) { RecoverApart(s, w, k); }
    OrderStays(s, t);
  }

  lemma HandleOrder(s: State, w: World, event: Event)
    requires Sane(s) && Orderly(s) && Genuine(s.log, event)
    ensures Orderly(Handle(s, w, event).state)
  {
    hide Orderly, Sane, Calm, CalmFor, StartOutbound, HandleArrival, HandleUp, HandleGone, PressDigit, HandleRecording, TickEach,
         HandleHangup, ReconcileEach, RetainEach, Recover;
    SaneParts(s);
    var t := Handle(s, w, event).state;
    match event
    case StartCall(id, extension, phone, number) => OutboundOrder(s, w, id, extension, phone, number);
    case Arrived(channel, inbound, did, extension, caller, id) => HandleArrivalOrder(s, w, channel, inbound, did, extension, caller, id);
    case WentUp(channel) => HandleUpOrder(s, w, channel);
    case Gone(channel) => HandleGoneOrder(s, w, channel);
    case Dtmf(channel, digit) => PressDigitOrder(s, w, channel, digit);
    case MenuClock => TickEachOrder(s, w, w.waiting);
    case RecordingEnded(id, failed) => RecordingOrder(s, w, id, failed);
    case HangupCall(id) => HangupOrder(s, w, id);
    case Reconcile => ReconcileOrder(s, w);
    case Retention => RetentionOrder(s, w);
    case Restart => RecoverOrder(s, w);
  }

  lemma RecordingOrder(s: State, w: World, id: CallId, failed: bool)
    requires CoreOk(s.core, None) && Orderly(s)
    ensures Orderly(HandleRecording(s, w, id, failed).state)
  {
    hide Orderly, Rests, Steady, HandleRecording, CoreOk, Evolved;
    HandleRecordingKeeps(s, w, id, failed);
    forall k: CallId ensures CalmFor(s, HandleRecording(s, w, id, failed).state, k) { HandleRecordingApart(s, w, id, failed, k); }
    SweepOrder(s, HandleRecording(s, w, id, failed).state);
  }

  lemma HangupOrder(s: State, w: World, id: CallId)
    requires CoreOk(s.core, None) && Orderly(s)
    ensures Orderly(HandleHangup(s, w, id).state)
  {
    hide Orderly, Calm, HandleHangup, CoreOk, Evolved;
    HandleHangupKeeps(s, w, id);
    forall k: CallId ensures Calm(s, HandleHangup(s, w, id).state, k) { HandleHangupCalm(s, w, id, k); }
    AllCalm(s, HandleHangup(s, w, id).state);
  }

  lemma ReconcileOrder(s: State, w: World)
    requires CoreOk(s.core, None) && Orderly(s)
    ensures Orderly(ReconcileEach(s, w, s.core.order))
  {
    hide Orderly, Rests, Steady, ReconcileEach, CoreOk, Evolved;
    ReconcileKeeps(s, w, s.core.order);
    forall k: CallId ensures CalmFor(s, ReconcileEach(s, w, s.core.order), k) { ReconcileCalm(s, w, s.core.order, k); }
    SweepOrder(s, ReconcileEach(s, w, s.core.order));
  }

  lemma RetentionOrder(s: State, w: World)
    requires CoreOk(s.core, None) && Orderly(s)
    ensures Orderly(RetainEach(s, w, s.core.order).state)
  {
    hide Orderly, Calm, RetainEach, CoreOk, Evolved;
    RetainKeeps(s, w, s.core.order);
    forall k: CallId ensures Calm(s, RetainEach(s, w, s.core.order).state, k) { RetainCalm(s, w, s.core.order, k); }
    AllCalm(s, RetainEach(s, w, s.core.order).state);
  }

  // ---------------------------------------------------------------- runs

  lemma {:induction false} RunOrder(s: State, steps: seq<Step>)
    requires Sane(s) && Orderly(s) && GenuineRun(s, steps)
    ensures Orderly(Run(s, steps))
    decreases |steps|
  {
    hide Sane, Orderly, Handle, Evolved, Genuine;
    if steps != [] {
      HandleOrder(s, steps[0].world, steps[0].event);
      HandleKeeps(s, steps[0].world, steps[0].event);
      RunOrder(Handle(s, steps[0].world, steps[0].event).state, steps[1..]);
    }
  }

  lemma StartIsOrderly()
    ensures Orderly(NEW_STATE)
  {}

  /** In a run whose events name only channels that exist no menu strays. */
  lemma NoMenuStrays(steps: seq<Step>, id: CallId)
    requires GenuineRun(NEW_STATE, steps)
    ensures BooksOf(Reached(steps).core.trace, id).strayed == 0
  {
    hide Run, Sane, GenuineRun, BooksOf, Known, AllWait;
    StartIsSane();
    StartIsOrderly();
    RunOrder(NEW_STATE, steps);
  }

  /**
   * In such a run a call, with or without a menu, is told of one forward at most, and of one fallback round more
   * than pick-ups of it were cut short at most.
   */
  lemma GenuineLadder(steps: seq<Step>, id: CallId)
    requires GenuineRun(NEW_STATE, steps) && id in Reached(steps).core.calls
    ensures var b := BooksOf(Reached(steps).core.trace, id); b.forwards <= 1 && b.rounds <= 1 + b.interrupted
  {
    hide Reached, BooksOf, GenuineRun;
    NoMenuStrays(steps, id);
    LadderIsBounded(steps, id);
  }

  /** The console hears of one forward of a call at most, unless it has a menu and an event named a channel that does not exist. */
  lemma AtMostOneForward(steps: seq<Step>, id: CallId, i: nat, j: nat)
    requires GenuineRun(NEW_STATE, steps) || BooksOf(Reached(steps).core.trace, id).menus == 0
    requires ToldAt(Reached(steps).core.trace, i, id, CallForwarding) && ToldAt(Reached(steps).core.trace, j, id, CallForwarding)
    ensures i == j
  {
    hide Reached, BooksOf, GenuineRun;
    ToldCallExists(steps, id, i, CallForwarding);
    if GenuineRun(NEW_STATE, steps) { NoMenuStrays(steps, id); }
    LadderIsBounded(steps, id);
    OnceIfCountedOnce(steps, id, i, j, CallForwarding);
  }

  /** And of one fallback round at most, unless a pick-up was cut short as well. */
  lemma AtMostOneRound(steps: seq<Step>, id: CallId, i: nat, j: nat)
    requires GenuineRun(NEW_STATE, steps) || BooksOf(Reached(steps).core.trace, id).menus == 0
    requires BooksOf(Reached(steps).core.trace, id).interrupted == 0
    requires ToldAt(Reached(steps).core.trace, i, id, FallbackRound) && ToldAt(Reached(steps).core.trace, j, id, FallbackRound)
    ensures i == j
  {
    hide Reached, BooksOf, GenuineRun;
    ToldCallExists(steps, id, i, FallbackRound);
    if GenuineRun(NEW_STATE, steps) { NoMenuStrays(steps, id); }
    LadderIsBounded(steps, id);
    OnceIfCountedOnce(steps, id, i, j, FallbackRound);
  }
}
