/** The call engine as it runs: one object whose handlers rewrite its records, its leg index and its menus in place. */
module CallService {
  import opened Wrappers
  import opened CallRecords
  import opened CallSteps
  import opened CallInvariants
  import opened CallLaws
  import opened CallLadder
  import CallRuns
  import CallPickUps
  import opened ExtensionKeys
  import IvrMenu

  class TelephonyService {
    /** The call table, newest last, and the trace of what was told. */
    var calls: map<CallId, Call>
    var order: seq<CallId>
    var trace: seq<Entry>
    /** Which call a rung leg belongs to. */
    var legIndex: map<Channel, CallId>
    /** Callers being asked for an extension, by the channel they are on. */
    var sessions: map<Channel, MenuSession>
    /** Every request made of Asterisk. */
    var log: seq<Request>

    function Snapshot(): State reads this { State(Core(calls, order, trace), legIndex, sessions, log) }

    /** Records, trace and menus are in order; every handler of an event may rely on it and keeps it. */
    ghost predicate Valid() reads this { Sane(Snapshot()) }

    /** Nothing settled in these records has been undone since. */
    ghost predicate Since(before: Core) reads this { Evolved(before, Snapshot().core) }

    constructor ()
      ensures Snapshot() == NEW_STATE && Valid()
    {
      calls, order, trace, legIndex, sessions, log := map[], [], [], map[], map[], [];
    }

    // ---------------------------------------------------------------- store, console, Asterisk

    method Update(id: CallId, call: Call)
      modifies this`calls
      ensures Snapshot() == old(Snapshot()).(core := Put(old(Snapshot()).core, id, call))
    {
      calls := calls[id := call];
    }

    method Notify(id: CallId, kind: Kind)
      modifies this`trace
      ensures Snapshot() == old(Snapshot()).(core := Note(old(Snapshot()).core, id, kind))
    {
      trace := trace + [Entry(id, kind)];
    }

    method Request(w: World, request: Request) returns (reply: Reply)
      modifies this`log
      ensures Snapshot() == Ask(old(Snapshot()), request)
      ensures reply == ReplyTo(old(Snapshot()), w, request)
    {
      reply := w.reply(|log|, request);
      log := log + [request];
    }

    // ---------------------------------------------------------------- hanging up

    method HangupQuietly(w: World, channels: seq<Channel>, keep: Option<Channel>)
      modifies this`log
      ensures Snapshot() == HangupEach(old(Snapshot()), channels, keep)
    {
      ghost var start := Snapshot();
      assert channels[0..] == channels;
      for i := 0 to |channels|
        invariant HangupEach(Snapshot(), channels[i..], keep) == HangupEach(start, channels, keep)
      {
        assert channels[i..][0] == channels[i] && channels[i..][1..] == channels[i + 1..];
        if Some(channels[i]) != keep { var _ := Request(w, Hangup(channels[i])); }
      }
      assert channels[|channels|..] == [];
    }

    method Cancel(w: World, channels: seq<Channel>) returns (ok: bool)
      modifies this`log
      ensures Outcome(Snapshot(), ok) == CancelEach(old(Snapshot()), w, channels)
    {
      ghost var start := Snapshot();
      assert channels[0..] == channels;
      for i := 0 to |channels|
        invariant CancelEach(Snapshot(), w, channels[i..]) == CancelEach(start, w, channels)
      {
        assert channels[i..][0] == channels[i] && channels[i..][1..] == channels[i + 1..];
        var reply := Request(w, Hangup(channels[i]));
        if reply.Unreachable? { return false; }
      }
      assert channels[|channels|..] == [];
      return true;
    }

    method ReleaseOne(w: World, request: CallRecords.Request) returns (ok: bool)
      modifies this`log
      ensures Outcome(Snapshot(), ok) == Release(old(Snapshot()), w, request)
    {
      var reply := Request(w, request);
      return !reply.Unreachable?;
    }

    method HangupChannelsOf(w: World, id: CallId, call: Call, keep: Option<Channel>)
      modifies this`log
      ensures Snapshot() == HangupCallChannels(old(Snapshot()), w, id, call, keep)
    {
      hide HangupEach, FarSide;
      HangupQuietly(w, Channels(call.Legs()) + CustomerOf(call), keep);
      var far := FarSide(Snapshot(), w, id, call, keep);
      var _ := Request(w, ListChannels);
      HangupQuietly(w, far, keep);
    }

    // ---------------------------------------------------------------- the end of a call

    method FinalizeCall(w: World, id: CallId, keep: Option<Channel>) returns (ok: bool)
      modifies this
      ensures Outcome(Snapshot(), ok) == Finalize(old(Snapshot()), w, id, keep)
      ensures old(Valid()) ==> Valid() && Since(old(Snapshot()).core)
      ensures old(Valid()) && ok && id in old(calls) ==> id in calls && calls[id].Over()
    {
      hide Sane, Evolved;
      if Sane(Snapshot()) { FinalizeIsSane(Snapshot(), w, id, keep); }
      hide HangupCallChannels, Close, TearDown;
      if id !in calls || calls[id].status == Completed { return true; }
      var call := calls[id];
      if call.named && call.recording == Running { Update(id, call.(recording := Finalizing)); }
      HangupChannelsOf(w, id, call, keep);
      ok := TearDownOf(w, id, call);
      if ok { WriteEnding(w, id); }
    }

    method TearDownOf(w: World, id: CallId, call: Call) returns (ok: bool)
      modifies this`log
      ensures Outcome(Snapshot(), ok) == TearDown(old(Snapshot()), w, id, call)
    {
      ok := true;
      if call.named && call.recording == Running { ok := ReleaseOne(w, StopRecording(id)); }
      if ok && call.bridged { ok := ReleaseOne(w, DestroyBridge(id)); }
    }

    method WriteEnding(w: World, id: CallId)
      requires id in calls
      modifies this`calls, this`trace
      ensures Snapshot() == old(Snapshot()).(core := Close(old(Snapshot()).core, id, w.now))
    {
      var call := calls[id];
      if call.status != Failed && call.answered {
        Update(id, call.(status := Completed, endedAt := Some(w.now)));
        Notify(id, CallCompleted);
      } else {
        Update(id, call.(status := Failed, endedAt := Some(w.now)));
        Notify(id, CallFailed);
      }
    }

    // ---------------------------------------------------------------- bridging

    method Build(w: World, id: CallId, requests: seq<CallRecords.Request>) returns (ok: bool)
      modifies this`log
      ensures Outcome(Snapshot(), ok) == BuildBridge(old(Snapshot()), w, id, requests)
    {
      ghost var start := Snapshot();
      assert requests[0..] == requests;
      for i := 0 to |requests|
        invariant BuildBridge(Snapshot(), w, id, requests[i..]) == BuildBridge(start, w, id, requests)
      {
        assert requests[i..][0] == requests[i] && requests[i..][1..] == requests[i + 1..];
        var reply := Request(w, requests[i]);
        if !reply.Done? { return false; }
      }
      assert requests[|requests|..] == [];
      return true;
    }

    method StartRecordingOf(w: World, id: CallId)
      requires id in calls
      modifies this
      ensures Snapshot() == StartRecording(old(Snapshot()), w, id)
    {
      var call := calls[id];
      match w.recorder(call.extension)
      case Off =>
      case On(announcement) =>
        Update(id, call.(named := true, recording := Running));
        var reply := Request(w, Record(id));
        if !reply.Done? {
          Update(id, calls[id].(recording := RecordingFailed));
          Notify(id, RecordingRefused);
        } else {
          Notify(id, RecordingStarted);
          if announcement {
            var played := Request(w, Announce(id));
            if !played.Done? { Notify(id, AnnouncementFailed); }
          }
        }
    }

    method StartBridgeOf(w: World, id: CallId)
      requires id in calls
      modifies this
      ensures Snapshot() == StartBridge(old(Snapshot()), w, id)
    {
      hide StartRecording, HangupCallChannels, BuildBridge;
      var call := calls[id];
      if call.bridged || call.customer.None? { return; }
      var ok := Build(w, id, [CreateBridge(id), AddToBridge(id, call.employee), AddToBridge(id, call.customer.value)]);
      if !ok {
        var _ := Request(w, DestroyBridge(id));
        HangupChannelsOf(w, id, call, None);
        Update(id, call.(status := Failed, endedAt := Some(w.now), bridged := false, recording := RecordingFailed));
        Notify(id, CallFailed);
      } else {
        Update(id, call.(bridged := true, status := Bridged));
        Notify(id, CallBridged);
        StartRecordingOf(w, id);
      }
    }

    method JoinSides(w: World, id: CallId) returns (ok: bool)
      requires id in calls
      modifies this
      ensures Outcome(Snapshot(), ok) == Join(old(Snapshot()), w, id)
    {
      hide StartBridge;
      StartBridgeOf(w, id);
      assert id in Snapshot().core.calls;
      var call := calls[id];
      if call.status != Failed && !call.answered {
        Update(id, call.(status := Answered, answered := true, answeredAt := Some(w.now)));
        Notify(id, CallAnswered);
      }
      return true;
    }

    // ---------------------------------------------------------------- ringing devices

    method Ring(w: World, id: CallId, targets: seq<Target>, numbering: Numbering) returns (legs: seq<Leg>)
      modifies this`log, this`legIndex
      ensures Round(Snapshot(), legs) == RingEach(old(Snapshot()), w, id, targets, numbering, [])
    {
      ghost var start := Snapshot();
      legs := [];
      assert targets[0..] == targets;
      for i := 0 to |targets|
        invariant RingEach(Snapshot(), w, id, targets[i..], numbering, legs) == RingEach(start, w, id, targets, numbering, [])
      {
        assert targets[i..][0] == targets[i] && targets[i..][1..] == targets[i + 1..];
        var t := targets[i];
        var channel := Employee(id, LegNumber(numbering, |legs|, t.index));
        var reply := Request(w, Originate(channel, t.endpoint));
        if reply.Done? {
          legs := legs + [Leg(channel, t.extension)];
          legIndex := legIndex[channel := id];
        }
      }
      assert targets[|targets|..] == [];
    }

    // ---------------------------------------------------------------- nobody answered

    method InboundNoAnswer(w: World, id: CallId, plan: Plan) returns (ok: bool)
      modifies this
      ensures Outcome(Snapshot(), ok) == NoAnswer(old(Snapshot()), w, id, plan)
      ensures old(Valid()) && Unanswered(old(Snapshot()).core, id) ==> Valid() && Since(old(Snapshot()).core)
      ensures old(Valid()) && Unanswered(old(Snapshot()).core, id) ==>
              old(calls)[id].customer.Some? && id in calls
              && (Rank(calls[id].status) > Rank(old(calls)[id].status) <==> MovesOnAt(w, |old(log)|, id, old(calls)[id], plan))
      decreases if MayFallBack(Snapshot(), id) then 1 else 0, 1
    {
      hide Sane, Evolved, Unanswered, MovesOnAt;
      if Sane(Snapshot()) && Unanswered(Snapshot().core, id) { NoAnswerIsSane(Snapshot(), w, id, plan); }
      hide RingFallbacks, Voicemail, Forward, Missed;
      if id !in calls || calls[id].endedAt.Some? { return true; }
      var call := calls[id];
      if call.status != RingingFallback && call.status != Forwarding && plan.fallbacks != [] {
        ok := FallBack(w, id, plan);
        return;
      }
      if plan.mailbox != "" {
        ok := HandToMailbox(w, id, plan.mailbox);
        return;
      }
      if call.status != Forwarding && plan.forward != "" {
        ok := ForwardCall(w, id, plan.forward);
        if ok { return; }
      }
      ok := GiveUp(w, id);
    }

    method HandToMailbox(w: World, id: CallId, mailbox: string) returns (ok: bool)
      requires id in calls
      modifies this
      ensures Outcome(Snapshot(), ok) == Voicemail(old(Snapshot()), w, id, mailbox)
    {
      hide Finalize;
      var call := calls[id];
      var reply := Request(w, Continue(call.customer.GetOr(Foreign("")), mailbox));
      if reply.Done? {
        Notify(id, CallVoicemail);
        ok := FinalizeCall(w, id, call.customer);
      } else {
        ok := Cancel(w, CustomerOf(call));
        if ok { ok := FinalizeCall(w, id, None); }
      }
    }

    method ForwardCall(w: World, id: CallId, phone: string) returns (placed: bool)
      requires id in calls
      modifies this
      ensures Outcome(Snapshot(), placed) == Forward(old(Snapshot()), w, id, phone)
      ensures id in calls
    {
      var call, channel := calls[id], Customer(id, 1);
      var reply := Request(w, Originate(channel, phone));
      if !reply.Done? { return false; }
      legIndex := legIndex[channel := id];
      Update(id, call.(status := Forwarding, employee := channel, rung := [Leg(channel, call.extension)]));
      Notify(id, CallForwarding);
      return true;
    }

    method GiveUp(w: World, id: CallId) returns (ok: bool)
      requires id in calls
      modifies this
      ensures Outcome(Snapshot(), ok) == Missed(old(Snapshot()), w, id)
    {
      hide Finalize;
      Notify(id, CallMissed);
      ok := Cancel(w, CustomerOf(calls[id]));
      if ok { ok := FinalizeCall(w, id, None); }
    }

    method FallBack(w: World, id: CallId, plan: Plan) returns (ok: bool)
      requires MayFallBack(Snapshot(), id) && plan.fallbacks != []
      modifies this
      ensures Outcome(Snapshot(), ok) == RingFallbacks(old(Snapshot()), w, id, plan)
      decreases 1, 0
    {
      hide NoAnswer, RingEach, TargetsApart, Forget;
      var call := calls[id];
      var next := w.desk(plan.(destinations := plan.fallbacks), plan.fallbacks, call.number, OfExtension(plan.fallbacks[0]));
      var legs := Ring(w, id, TargetsApart(w, next.destinations, call.number), ByRound);
      if legs == [] {
        Update(id, call.(extension := plan.fallbacks[0], status := RingingFallback));
        Notify(id, FallbackRound);
        ok := InboundNoAnswer(w, id, next);
      } else {
        legIndex := Forget(legIndex, Channels(call.Legs()));
        Update(id, call.(status := RingingFallback, employee := legs[0].channel, extension := legs[0].extension, rung := call.rung + legs));
        Notify(id, FallbackRound);
        Notify(id, EmployeeRinging);
        ok := true;
      }
    }

    // ---------------------------------------------------------------- starting calls

    method Store(id: CallId, call: Call)
      modifies this`calls, this`order, this`trace
      ensures Snapshot() == old(Snapshot()).(core := Create(old(Snapshot()).core, id, call))
    {
      order := order + [id];
      calls := calls[id := call];
      Notify(id, CallStarted);
    }

    method StartOutboundCall(w: World, id: CallId, extension: string, phone: string, number: string) returns (ok: bool)
      requires Valid()
      modifies this
      ensures Outcome(Snapshot(), ok) == StartOutbound(old(Snapshot()), w, id, extension, phone, number)
      ensures Valid() && Since(old(Snapshot()).core)
    {
      hide Sane, Evolved;
      StartOutboundIsSane(Snapshot(), w, id, extension, phone, number);
      hide RingEach;
      if id in calls { return false; }
      var call := Call(false, extension, phone, number, Initiated, false, None, None, Employee(id, 0), [], None, false, false, NoRecording);
      Store(id, call);
      var legs := Ring(w, id, TargetsOf(extension, w.endpoints(extension, number), 0), ByPlace);
      if legs == [] {
        Update(id, call.(status := Failed, endedAt := Some(w.now)));
        Notify(id, CallFailed);
        return false;
      }
      Update(id, call.(rung := legs, status := Ringing));
      Notify(id, CallRinging);
      return true;
    }

    method StartInboundCall(w: World, channel: Channel, did: string, extension: string, caller: string, id: CallId) returns (ok: bool)
      requires Valid()
      modifies this
      ensures Outcome(Snapshot(), ok) == StartInbound(old(Snapshot()), w, channel, did, extension, caller, id)
      ensures Valid() && Since(old(Snapshot()).core)
    {
      hide Sane, Evolved;
      StartInboundKeeps(Snapshot(), w, channel, did, extension, caller, id);
      hide RingInbound, OpenMenu, FindByChannel;
      match w.admit(did, extension)
      case None => ok := Cancel(w, [channel]);
      case Some(line) =>
        if FindByChannel(Snapshot().core, order, channel).Some? { return true; }
        if id in calls { return false; }
        var plan := w.journey(line.number, line.extension);
        Store(id, Call(true, line.extension, caller, line.number, Ringing, false, None, None, Employee(id, 0), [], Some(channel), false, false, NoRecording));
        if plan.menu {
          StartMenu(w, id, channel, plan);
          return true;
        }
        ok := RingDevices(w, id, plan);
    }

    method RingDevices(w: World, id: CallId, plan: Plan) returns (ok: bool)
      requires id in calls
      modifies this
      ensures Outcome(Snapshot(), ok) == RingInbound(old(Snapshot()), w, id, plan)
    {
      hide RingEach, NoAnswer, TargetsThrough;
      var call := calls[id];
      Notify(id, EmployeeRinging);
      var legs := Ring(w, id, TargetsThrough(w, plan.destinations, call.number, 0), ByPlace);
      if legs == [] {
        ok := InboundNoAnswer(w, id, plan);
      } else {
        Update(id, call.(employee := legs[0].channel, rung := legs));
        ok := true;
      }
    }

    // ---------------------------------------------------------------- the menu

    method StartMenu(w: World, id: CallId, channel: Channel, plan: Plan)
      requires id in calls
      modifies this
      ensures Snapshot() == OpenMenu(old(Snapshot()), w, id, channel, plan)
    {
      hide PlayTo;
      Notify(id, MenuOpened);
      var menu := IvrMenu.Menu(plan.keyMap, plan.extensions, if plan.attempts == 0 then 2 else plan.attempts,
                               1000 * if plan.timeout == 0 then 6 else if plan.timeout < 2 then 2 else plan.timeout);
      sessions := sessions[channel := MenuSession(id, calls[id].extension, calls[id].number, plan, menu, IvrMenu.Opened(menu, w.now))];
      PlayPromptTo(w, channel, 0);
    }

    method PlayPromptTo(w: World, channel: Channel, attempt: nat)
      modifies this`log
      ensures Snapshot() == PlayTo(old(Snapshot()), w, channel, attempt)
    {
      var _ := Request(w, Answer(channel));
      var reply := Request(w, PlayPrompt(channel, attempt, false));
      if !reply.Done? { var _ := Request(w, PlayPrompt(channel, attempt, true)); }
    }

    method Digit(w: World, channel: Channel, digit: string) returns (ok: bool)
      requires Valid()
      modifies this
      ensures Outcome(Snapshot(), ok) == PressDigit(old(Snapshot()), w, channel, digit)
      ensures Valid() && Since(old(Snapshot()).core)
    {
      hide Sane, Evolved;
      PressIsSane(Snapshot(), w, channel, digit);
      hide Conclude, IvrMenu.Press;
      if channel !in sessions || !AllDigits(digit) { return true; }
      var session := Filled(w, sessions[channel]);
      ok := Act(w, channel, session, IvrMenu.Press(session.menu, session.state, digit, w.now));
    }

    method ProcessMenuTimeouts(w: World, channels: seq<Channel>) returns (ok: bool)
      requires Valid()
      modifies this
      ensures Outcome(Snapshot(), ok) == TickEach(old(Snapshot()), w, channels)
      ensures Valid() && Since(old(Snapshot()).core)
    {
      hide Sane, Evolved;
      TickIsSane(Snapshot(), w, channels);
      hide TickOne;
      ghost var start := Snapshot();
      assert channels[0..] == channels;
      for i := 0 to |channels|
        invariant TickEach(Snapshot(), w, channels[i..]) == TickEach(start, w, channels)
      {
        assert channels[i..][0] == channels[i] && channels[i..][1..] == channels[i + 1..];
        ok := Timeout(w, channels[i]);
        if !ok { return; }
      }
      assert channels[|channels|..] == [];
      return true;
    }

    method Timeout(w: World, channel: Channel) returns (ok: bool)
      modifies this
      ensures Outcome(Snapshot(), ok) == TickOne(old(Snapshot()), w, channel)
    {
      hide Conclude, IvrMenu.Tick, IvrMenu.Due;
      if channel !in sessions || !IvrMenu.Due(sessions[channel].state, w.now) { return true; }
      var session := if sessions[channel].state.digits == "" then sessions[channel] else Filled(w, sessions[channel]);
      ok := Act(w, channel, session, IvrMenu.Tick(session.menu, session.state, w.now));
    }

    method Act(w: World, channel: Channel, session: MenuSession, outcome: IvrMenu.Outcome) returns (ok: bool)
      modifies this
      ensures Outcome(Snapshot(), ok) == Conclude(old(Snapshot()), w, channel, session, outcome)
    {
      hide DialChosen, NoChoice, PlayTo;
      ok := true;
      match outcome
      case Open(next) => sessions := sessions[channel := session.(state := next)];
      case Prompted(next) =>
        sessions := sessions[channel := session.(state := next)];
        PlayPromptTo(w, channel, next.tries);
      case Dialled(key) =>
        EndMenu(w, channel, session);
        ok := DialExtension(w, session, key);
      case GaveUp(_) =>
        EndMenu(w, channel, session);
        ok := MenuFallBack(w, session);
    }

    method EndMenu(w: World, channel: Channel, session: MenuSession)
      modifies this`sessions, this`log
      ensures Snapshot() == Leave(old(Snapshot()), channel, session)
    {
      sessions := sessions - {channel};
      var _ := Request(w, StopPrompt(session.call, session.state.tries));
    }

    method ReopenAnswered(id: CallId)
      requires id in calls
      modifies this`trace
      ensures Snapshot() == Reopen(old(Snapshot()), id)
    {
      if calls[id].answered && calls[id].endedAt.None? { Notify(id, Reopened); }
    }

    method DialExtension(w: World, session: MenuSession, key: string) returns (ok: bool)
      modifies this
      ensures Outcome(Snapshot(), ok) == DialChosen(old(Snapshot()), w, session, key)
    {
      hide RingEach, NoAnswer;
      var id := session.call;
      if id !in calls { return false; }
      var call := calls[id].(extension := key);
      var plan := w.desk(session.plan.(destinations := [key]), [key], session.number, OfExtension(key));
      Update(id, call);
      var legs := Ring(w, id, if plan.destinations == [] then [] else TargetsOf(key, w.endpoints(key, session.number), 0), ByPlace);
      if legs == [] {
        ReopenAnswered(id);
        ok := InboundNoAnswer(w, id, plan);
      } else {
        Update(id, call.(employee := legs[0].channel, rung := legs));
        Notify(id, MenuSelected);
        ok := true;
      }
    }

    method MenuFallBack(w: World, session: MenuSession) returns (ok: bool)
      modifies this
      ensures Outcome(Snapshot(), ok) == NoChoice(old(Snapshot()), w, session)
    {
      hide RingEach, NoAnswer, DialChosen, TargetsThrough;
      var id := session.call;
      if session.plan.fallback != "" {
        var _ := Request(w, StopPrompt(id, session.state.tries));
        ok := DialExtension(w, session, session.plan.fallback);
        return;
      }
      if id !in calls { return false; }
      var call, rest := calls[id], session.plan.fallbackDestinations;
      var plan := w.desk(session.plan.(destinations := rest), rest, session.number, OfNumber(session.number));
      var legs := Ring(w, id, TargetsThrough(w, plan.destinations, session.number, 0), ByPlace);
      if legs == [] {
        ReopenAnswered(id);
        ok := InboundNoAnswer(w, id, plan);
      } else {
        Update(id, call.(extension := legs[0].extension, employee := legs[0].channel, rung := legs));
        Notify(id, MenuFallback);
        ok := true;
      }
    }

    // ---------------------------------------------------------------- the far side of a panel call

    method Place(w: World, id: CallId, targets: seq<string>) returns (placed: bool)
      modifies this`log
      ensures Outcome(Snapshot(), placed) == PlaceEach(old(Snapshot()), w, id, targets, 0, false)
    {
      ghost var start := Snapshot();
      placed := false;
      assert targets[0..] == targets;
      for i := 0 to |targets|
        invariant PlaceEach(Snapshot(), w, id, targets[i..], i, placed) == PlaceEach(start, w, id, targets, 0, false)
      {
        assert targets[i..][0] == targets[i] && targets[i..][1..] == targets[i + 1..];
        var reply := Request(w, Originate(Customer(id, i), targets[i]));
        placed := placed || reply.Done?;
      }
      assert targets[|targets|..] == [];
    }

    method DialCustomer(w: World, id: CallId) returns (ok: bool)
      requires id in calls
      modifies this
      ensures Outcome(Snapshot(), ok) == StartCustomer(old(Snapshot()), w, id)
    {
      hide PlaceEach;
      var call := calls[id];
      if call.customer.Some? || call.Over() { return true; }
      var route := w.route(call.phone);
      if route.OutOfService? {
        Update(id, call.(status := Failed, endedAt := Some(w.now)));
        Notify(id, CallFailed);
        ok := Cancel(w, [call.employee]);
        return;
      }
      Update(id, call.(customer := Some(Customer(id, 0)), status := DialingCustomer));
      Notify(id, CustomerDialing);
      var placed := Place(w, id, if route.Local? then w.endpoints(route.extension, call.phone) else [call.phone]);
      if placed { return true; }
      ok := Cancel(w, [call.employee]);
      if ok {
        Update(id, calls[id].(status := Failed, endedAt := Some(w.now)));
        Notify(id, CallFailed);
      }
    }

    // ---------------------------------------------------------------- events

    method DevicePickedUp(w: World, id: CallId, channel: Channel) returns (ok: bool)
      requires id in calls
      modifies this
      ensures Outcome(Snapshot(), ok) == PickUp(old(Snapshot()), w, id, channel)
      ensures old(Valid()) && old(calls)[id].inbound && !old(calls)[id].Over() && channel in Channels(old(calls)[id].Legs()) ==>
              && Valid() && Since(old(Snapshot()).core)
              && id in calls && calls[id].employee == channel && Leg(channel, calls[id].extension) in old(calls)[id].Legs()
              && (ok ==> calls[id].answered || calls[id].status == Failed)
    {
      hide Sane, Evolved;
      if Sane(Snapshot()) && calls[id].inbound && !calls[id].Over() && channel in Channels(calls[id].Legs()) { PickUpIsSane(Snapshot(), w, id, channel); }
      hide Join, CancelEach, Only, ExtensionOf;
      var call := calls[id];
      Update(id, call.(status := EmployeeAnswered, employee := channel, extension := ExtensionOf(call.Legs(), channel, call.extension)));
      Notify(id, EmployeePickedUp);
      ok := Cancel(w, Without(Channels(call.Legs()), channel));
      if !ok {
        Notify(id, PickUpInterrupted);
        return;
      }
      ok := JoinSides(w, id);
    }

    method PanelPickedUp(w: World, id: CallId, channel: Channel) returns (ok: bool)
      requires id in calls
      modifies this
      ensures Outcome(Snapshot(), ok) == PickUpPanel(old(Snapshot()), w, id, channel)
    {
      hide StartCustomer, CancelEach, Only;
      var call := calls[id];
      ok := Cancel(w, Without(Channels(call.Legs()), channel));
      if !ok { return; }
      Update(id, call.(status := EmployeeAnswered, employee := channel));
      Notify(id, EmployeePickedUp);
      ok := DialCustomer(w, id);
    }

    method FarSidePickedUp(w: World, id: CallId, channel: Channel) returns (ok: bool)
      requires id in calls
      modifies this
      ensures Outcome(Snapshot(), ok) == FarSideUp(old(Snapshot()), w, id, channel)
    {
      hide Join, CancelEach, FarSide;
      var call := calls[id];
      var far := FarSide(Snapshot(), w, id, call, Some(channel));
      var _ := Request(w, ListChannels);
      ok := Cancel(w, far);
      if !ok { return; }
      Update(id, call.(customer := Some(channel)));
      ok := JoinSides(w, id);
    }

    method ChannelUp(w: World, channel: Channel) returns (ok: bool)
      requires Valid()
      modifies this
      ensures Outcome(Snapshot(), ok) == HandleUp(old(Snapshot()), w, channel)
      ensures Valid() && Since(old(Snapshot()).core)
    {
      hide Sane, Evolved;
      UpIsSane(Snapshot(), w, channel);
      hide CallForChannel, PickUp, PickUpPanel, FarSideUp;
      ok := true;
      match CallForChannel(Snapshot(), channel)
      case None =>
      case Some(id) =>
        var call := calls[id];
        var isLeg := channel in Channels(call.Legs());
        if call.Over() {
          var _ := Request(w, Hangup(channel));
        } else if call.inbound && isLeg {
          ok := DevicePickedUp(w, id, channel);
        } else if (isLeg || channel == call.employee) && call.customer.None? {
          ok := PanelPickedUp(w, id, channel);
        } else if Some(channel) == call.customer || FarLeg(channel, id) {
          ok := FarSidePickedUp(w, id, channel);
        }
    }

    method ChannelDestroyed(w: World, channel: Channel) returns (ok: bool)
      requires Valid()
      modifies this
      ensures Outcome(Snapshot(), ok) == HandleGone(old(Snapshot()), w, channel)
      ensures Valid() && Since(old(Snapshot()).core)
    {
      hide Sane, Evolved;
      GoneIsSane(Snapshot(), w, channel);
      hide CallForChannel, RungOut, HungUp, HandleGone;
      match CallForChannel(Snapshot(), channel)
      case None => GoneFromNowhere(Snapshot(), w, channel); ok := true;
      case Some(id) => ok := ChannelLeaves(w, id, channel);
    }

    method ChannelLeaves(w: World, id: CallId, channel: Channel) returns (ok: bool)
      requires CallForChannel(Snapshot(), channel) == Some(id)
      modifies this
      ensures Outcome(Snapshot(), ok) == HandleGone(old(Snapshot()), w, channel)
    {
      hide CallForChannel, RungOut, HungUp;
      ok := true;
      var call := calls[id];
      if call.endedAt.Some? {
        legIndex := legIndex - {channel};
        return;
      }
      sessions := sessions - {channel};
      var isEmployee := channel in Channels(call.Legs()) || channel == call.employee;
      var isCustomer := !isEmployee && (Some(channel) == call.customer || FarLeg(channel, id));
      if call.answered && ((isEmployee && channel != call.employee) || (isCustomer && Some(channel) != call.customer)) {
        legIndex := legIndex - {channel};
      } else if (isEmployee || isCustomer) && !call.answered {
        legIndex := legIndex - {channel};
        ok := LegRangOut(w, id, channel, isEmployee);
      } else {
        ok := SideHungUp(w, id, channel, isEmployee);
      }
    }

    method LegRangOut(w: World, id: CallId, channel: Channel, isEmployee: bool) returns (ok: bool)
      requires id in calls
      modifies this
      ensures Outcome(Snapshot(), ok) == RungOut(old(Snapshot()), w, id, channel, isEmployee)
    {
      hide StillRinging, NoAnswer, HangupCallChannels, Finalize, Forget, JourneyOf;
      var call := calls[id];
      var remaining := StillRinging(Snapshot(), w, id, call, channel, isEmployee);
      var _ := Request(w, ListChannels);
      if remaining != [] { return true; }
      if isEmployee && call.inbound && call.customer.Some? {
        ok := InboundNoAnswer(w, id, JourneyOf(w, call));
      } else {
        legIndex := Forget(legIndex, Channels(call.Legs()));
        HangupChannelsOf(w, id, call, Some(channel));
        ok := FinalizeCall(w, id, None);
      }
    }

    method SideHungUp(w: World, id: CallId, channel: Channel, isEmployee: bool) returns (ok: bool)
      requires id in calls
      modifies this
      ensures Outcome(Snapshot(), ok) == HungUp(old(Snapshot()), w, id, channel, isEmployee)
    {
      hide Finalize, Forget, CancelEach;
      var call := calls[id];
      legIndex := Forget(legIndex, Channels(call.Legs()));
      var other := if isEmployee then call.customer else Some(call.employee);
      ok := Cancel(w, if other.Some? && other != Some(channel) then [other.value] else []);
      if ok { ok := FinalizeCall(w, id, None); }
    }

    method HangupRequested(w: World, id: CallId) returns (ok: bool)
      requires Valid()
      modifies this
      ensures Outcome(Snapshot(), ok) == HandleHangup(old(Snapshot()), w, id)
      ensures Valid() && Since(old(Snapshot()).core)
      ensures ok && id in old(calls) ==> id in calls && calls[id].Over()
    {
      hide Sane, Evolved;
      HangupIsSane(Snapshot(), w, id);
      HangupEndsIt(Snapshot(), w, id);
      hide Finalize, CancelEach;
      if id !in calls { return true; }
      var call := calls[id];
      ok := Cancel(w, Channels(call.Legs()) + [call.employee] + CustomerOf(call));
      if ok { ok := FinalizeCall(w, id, None); }
    }

    method RecordingEvent(w: World, id: CallId, failed: bool) returns (ok: bool)
      requires Valid()
      modifies this
      ensures Outcome(Snapshot(), ok) == HandleRecording(old(Snapshot()), w, id, failed)
      ensures Valid() && Since(old(Snapshot()).core)
    {
      hide Sane, Evolved;
      RecordingIsSane(Snapshot(), w, id, failed);
      if id !in calls || !calls[id].named { return true; }
      var call := calls[id];
      if failed {
        Update(id, call.(recording := RecordingFailed));
        Notify(id, RecordingRefused);
        return true;
      }
      var reply := Request(w, FindRecording(id));
      if reply.Unreachable? { return false; }
      Update(id, call.(recording := Finalized));
      Notify(id, RecordingStopped);
      return true;
    }

    method StasisStarted(w: World, channel: Channel, inbound: bool, did: string, extension: string, caller: string, id: CallId) returns (ok: bool)
      requires Valid()
      modifies this
      ensures Outcome(Snapshot(), ok) == HandleArrival(old(Snapshot()), w, channel, inbound, did, extension, caller, id)
      ensures Valid() && Since(old(Snapshot()).core)
    {
      hide Sane, Evolved;
      ArrivalIsSane(Snapshot(), w, channel, inbound, did, extension, caller, id);
      hide CallForChannel, StartInbound;
      ok := true;
      match CallForChannel(Snapshot(), channel)
      case None => if inbound { ok := StartInboundCall(w, channel, did, extension, caller, id); }
      case Some(found) =>
        var call := calls[found];
        if (channel == call.employee || channel in Channels(call.Legs())) && call.status == Initiated {
          Update(found, call.(status := Ringing));
          Notify(found, EmployeeRinging);
        }
    }

    // ---------------------------------------------------------------- sweeps over the call table

    method ReconcileRecordings(w: World)
      modifies this
      ensures Snapshot() == ReconcileEach(old(Snapshot()), w, old(order))
      ensures old(Valid()) ==> Valid() && Since(old(Snapshot()).core)
    {
      hide Sane, Evolved;
      if Sane(Snapshot()) { ReconcileIsSane(Snapshot(), w, order); }
      var ids, i := order, |order|;
      ghost var start := Snapshot();
      assert ids[..|ids|] == ids;
      while i > 0
        invariant 0 <= i <= |ids|
        invariant ReconcileEach(Snapshot(), w, ids[..i]) == ReconcileEach(start, w, ids)
      {
        assert ids[..i][|ids[..i]| - 1] == ids[i - 1] && ids[..i][..i - 1] == ids[..i - 1];
        i := i - 1;
        var id := ids[i];
        if id in calls {
          var call := calls[id];
          if call.named && (call.recording == Running || call.recording == Finalizing) && call.endedAt.Some? {
            var reply := Request(w, FindRecording(id));
            if reply.Done? {
              Update(id, call.(recording := Finalized));
              Notify(id, RecordingStopped);
            }
          }
        }
      }
    }

    method CleanupRecordings(w: World) returns (ok: bool)
      requires Valid()
      modifies this
      ensures Outcome(Snapshot(), ok) == RetainEach(old(Snapshot()), w, old(order))
      ensures Valid() && Since(old(Snapshot()).core)
    {
      hide Sane, Evolved;
      RetentionIsSane(Snapshot(), w);
      var ids, i := order, |order|;
      ghost var start := Snapshot();
      assert ids[..|ids|] == ids;
      while i > 0
        invariant 0 <= i <= |ids|
        invariant RetainEach(Snapshot(), w, ids[..i]) == RetainEach(start, w, ids)
      {
        assert ids[..i][|ids[..i]| - 1] == ids[i - 1] && ids[..i][..i - 1] == ids[..i - 1];
        i := i - 1;
        var id := ids[i];
        if id in calls {
          var call := calls[id];
          if call.named && call.recording != Deleted && call.endedAt.Some? && call.endedAt.value < w.cutoff {
            var reply := Request(w, DeleteRecording(id));
            if reply.Unreachable? { return false; }
            if reply.Done? {
              Update(id, call.(recording := Deleted));
              Notify(id, RecordingDeleted);
            }
          }
        }
      }
      return true;
    }

    method RecoverIncompleteCalls(w: World) returns (ok: bool)
      requires Valid()
      modifies this
      ensures Outcome(Snapshot(), ok) == Recover(old(Snapshot()), w)
      ensures Valid() && Since(old(Snapshot()).core)
    {
      hide Sane, Evolved;
      RecoveryIsSane(Snapshot(), w);
      hide ReconcileEach, RecoverOne;
      legIndex, sessions := map[], map[];
      ReconcileRecordings(w);
      var reply := Request(w, ListChannels);
      if !reply.Done? { return true; }
      var ids, i := order, |order|;
      ghost var start := Snapshot();
      assert ids[..|ids|] == ids;
      while i > 0
        invariant 0 <= i <= |ids|
        invariant RecoverEach(Snapshot(), w, reply.live, ids[..i]) == RecoverEach(start, w, reply.live, ids)
      {
        assert ids[..i][|ids[..i]| - 1] == ids[i - 1] && ids[..i][..i - 1] == ids[..i - 1];
        i := i - 1;
        ok := RecoverCall(w, reply.live, ids[i]);
        if !ok { return; }
      }
      return true;
    }

    method RecoverCall(w: World, live: seq<Live>, id: CallId) returns (ok: bool)
      modifies this
      ensures Outcome(Snapshot(), ok) == RecoverOne(old(Snapshot()), w, live, id)
    {
      hide StartCustomer, Join, Register, StateIn;
      if id !in calls || calls[id].Over() || calls[id].endedAt.Some? { return true; }
      var call := calls[id];
      legIndex := Register(legIndex, Channels(call.Legs()), id);
      var employee := StateIn(live, call.employee);
      var customer := if call.customer.Some? then StateIn(live, call.customer.value) else None;
      ok := true;
      if employee.None? && customer.None? {
        Update(id, call.(status := Failed, endedAt := Some(w.now)));
        Notify(id, CallFailed);
      } else if employee == Some(true) && call.customer.None? {
        ok := DialCustomer(w, id);
      } else if employee.Some? && customer == Some(true) {
        ok := JoinSides(w, id);
      }
    }

    /** One event, handled in place: what it leaves behind is exactly the step the properties speak of. */
    method HandleEvent(w: World, event: Event) returns (ok: bool)
      requires Valid()
      modifies this
      ensures Outcome(Snapshot(), ok) == Handle(old(Snapshot()), w, event)
      ensures Valid() && Since(old(Snapshot()).core)
    {
      hide Sane, Evolved;
      HandleKeeps(Snapshot(), w, event);
      hide StartOutbound, HandleArrival, HandleUp, HandleGone, PressDigit, HandleRecording, TickEach, HandleHangup, ReconcileEach, RetainEach, Recover;
      match event
      case StartCall(id, extension, phone, number) => ok := StartOutboundCall(w, id, extension, phone, number);
      case Arrived(channel, inbound, did, extension, caller, id) => ok := StasisStarted(w, channel, inbound, did, extension, caller, id);
      case WentUp(channel) => ok := ChannelUp(w, channel);
      case Gone(channel) => ok := ChannelDestroyed(w, channel);
      case Dtmf(channel, digit) => ok := Digit(w, channel, digit);
      case RecordingEnded(id, failed) => ok := RecordingEvent(w, id, failed);
      case MenuClock => ok := ProcessMenuTimeouts(w, w.waiting);
      case HangupCall(id) => ok := HangupRequested(w, id);
      case Reconcile => ReconcileRecordings(w); ok := true;
      case Retention => ok := CleanupRecordings(w);
      case Restart => ok := RecoverIncompleteCalls(w);
    }
  }

  // ---------------------------------------------------------------- each event keeps the service in order

  lemma StartOutboundIsSane(s: State, w: World, id: CallId, extension: string, phone: string, number: string)
    requires Sane(s)
    ensures Sane(StartOutbound(s, w, id, extension, phone, number).state) && Evolved(s.core, StartOutbound(s, w, id, extension, phone, number).state.core)
  {
    hide Sane, Evolved;
    HandleKeeps(s, w, StartCall(id, extension, phone, number));
  }

  lemma PressIsSane(s: State, w: World, channel: Channel, digit: string)
    requires Sane(s)
    ensures Sane(PressDigit(s, w, channel, digit).state) && Evolved(s.core, PressDigit(s, w, channel, digit).state.core)
  {
    hide Sane, Evolved;
    HandleKeeps(s, w, Dtmf(channel, digit));
  }

  lemma UpIsSane(s: State, w: World, channel: Channel)
    requires Sane(s)
    ensures Sane(HandleUp(s, w, channel).state) && Evolved(s.core, HandleUp(s, w, channel).state.core)
  {
    hide Sane, Evolved;
    HandleKeeps(s, w, WentUp(channel));
  }

  lemma GoneIsSane(s: State, w: World, channel: Channel)
    requires Sane(s)
    ensures Sane(HandleGone(s, w, channel).state) && Evolved(s.core, HandleGone(s, w, channel).state.core)
  {
    hide Sane, Evolved;
    HandleKeeps(s, w, Gone(channel));
  }

  /** The end of a channel that belongs to no call changes nothing. */
  lemma GoneFromNowhere(s: State, w: World, channel: Channel)
    requires CallForChannel(s, channel).None?
    ensures HandleGone(s, w, channel) == Outcome(s, true)
  {}

  lemma HangupIsSane(s: State, w: World, id: CallId)
    requires Sane(s)
    ensures Sane(HandleHangup(s, w, id).state) && Evolved(s.core, HandleHangup(s, w, id).state.core)
  {
    hide Sane, Evolved;
    HandleKeeps(s, w, HangupCall(id));
  }

  lemma RecordingIsSane(s: State, w: World, id: CallId, failed: bool)
    requires Sane(s)
    ensures Sane(HandleRecording(s, w, id, failed).state) && Evolved(s.core, HandleRecording(s, w, id, failed).state.core)
  {
    hide Sane, Evolved;
    HandleKeeps(s, w, RecordingEnded(id, failed));
  }

  lemma ArrivalIsSane(s: State, w: World, channel: Channel, inbound: bool, did: string, extension: string, caller: string, id: CallId)
    requires Sane(s)
    ensures Sane(HandleArrival(s, w, channel, inbound, did, extension, caller, id).state) && Evolved(s.core, HandleArrival(s, w, channel, inbound, did, extension, caller, id).state.core)
  {
    hide Sane, Evolved;
    HandleKeeps(s, w, Arrived(channel, inbound, did, extension, caller, id));
  }

  lemma RetentionIsSane(s: State, w: World)
    requires Sane(s)
    ensures Sane(RetainEach(s, w, s.core.order).state) && Evolved(s.core, RetainEach(s, w, s.core.order).state.core)
  {
    hide Sane, Evolved;
    HandleKeeps(s, w, Retention);
  }

  lemma RecoveryIsSane(s: State, w: World)
    requires Sane(s)
    ensures Sane(Recover(s, w).state) && Evolved(s.core, Recover(s, w).state.core)
  {
    hide Sane, Evolved;
    HandleKeeps(s, w, Restart);
  }

  lemma FinalizeIsSane(s: State, w: World, id: CallId, keep: Option<Channel>)
    requires Sane(s)
    ensures var r := Finalize(s, w, id, keep);
            && Sane(r.state) && Evolved(s.core, r.state.core)
            && (r.ok && id in s.core.calls ==> id in r.state.core.calls && r.state.core.calls[id].Over())
  {
    hide Evolved, CoreOk, SessionsOk, Finalize;
    FinalizeKeeps(s, w, id, keep);
    SaneFollows(s, Finalize(s, w, id, keep).state);
  }

  lemma NoAnswerIsSane(s: State, w: World, id: CallId, plan: Plan)
    requires Sane(s) && Unanswered(s.core, id)
    ensures var r := NoAnswer(s, w, id, plan).state;
            && Sane(r) && Evolved(s.core, r.core) && s.core.calls[id].customer.Some? && id in r.core.calls
            && (Rank(r.core.calls[id].status) > Rank(s.core.calls[id].status) <==> MovesOnAt(w, |s.log|, id, s.core.calls[id], plan))
  {
    hide Evolved, CoreOk, SessionsOk, NoAnswer, MovesOnAt;
    UnansweredKeeps(s, w, id, plan);
    RankRisesIff(s, w, id, plan);
    SaneFollows(s, NoAnswer(s, w, id, plan).state);
    Persists(s.core, NoAnswer(s, w, id, plan).state.core, id);
  }

  lemma Persists(a: Core, b: Core, id: CallId)
    requires Evolved(a, b) && id in a.calls
    ensures id in b.calls
  {}

  lemma PickUpIsSane(s: State, w: World, id: CallId, channel: Channel)
    requires Sane(s) && id in s.core.calls && s.core.calls[id].inbound && !s.core.calls[id].Over()
    requires channel in Channels(s.core.calls[id].Legs())
    ensures var r := PickUp(s, w, id, channel);
            && Sane(r.state) && Evolved(s.core, r.state.core)
            && id in r.state.core.calls && r.state.core.calls[id].employee == channel
            && Leg(channel, r.state.core.calls[id].extension) in s.core.calls[id].Legs()
            && (r.ok ==> r.state.core.calls[id].answered || r.state.core.calls[id].status == Failed)
  {
    hide Evolved, CoreOk, SessionsOk, PickUp;
    PickUpKeeps(s, w, id, channel);
    CallPickUps.PickedUpBy(s, w, id, channel);
    SaneFollows(s, PickUp(s, w, id, channel).state);
  }

  lemma TickIsSane(s: State, w: World, channels: seq<Channel>)
    requires Sane(s)
    ensures Sane(TickEach(s, w, channels).state) && Evolved(s.core, TickEach(s, w, channels).state.core)
  {
    hide Sane, Evolved;
    TickEachKeeps(s, w, channels);
  }

  lemma ReconcileIsSane(s: State, w: World, ids: seq<CallId>)
    requires Sane(s)
    ensures Sane(ReconcileEach(s, w, ids)) && Evolved(s.core, ReconcileEach(s, w, ids).core)
  {
    hide Evolved, CoreOk, SessionsOk, ReconcileEach;
    ReconcileKeeps(s, w, ids);
    SaneFollows(s, ReconcileEach(s, w, ids));
  }

  lemma HangupEndsIt(s: State, w: World, id: CallId)
    requires Sane(s)
    ensures var r := HandleHangup(s, w, id);
            r.ok && id in s.core.calls ==> id in r.state.core.calls && r.state.core.calls[id].Over()
  {
    hide CoreOk, HandleHangup;
    SaneParts(s);
    HandleHangupKeeps(s, w, id);
  }

  /** The worker's loop over a run of events, whatever each of them meets. */
  method Serve(steps: seq<Step>) returns (service: TelephonyService)
    ensures fresh(service) && service.Snapshot() == Run(NEW_STATE, steps) && service.Valid()
    ensures forall id :: id in service.calls ==>
              var c := service.calls[id];
              && (c.Over() <==> c.endedAt.Some?) && (c.status == Completed ==> c.answered)
              && (c.answered ==> c.answeredAt.Some? && c.bridged)
  {
    hide Handle, Sane, Evolved;
    service := new TelephonyService();
    assert steps[0..] == steps;
    for i := 0 to |steps|
      invariant fresh(service) && Run(service.Snapshot(), steps[i..]) == Run(NEW_STATE, steps) && service.Valid()
    {
      assert steps[i..][0] == steps[i] && steps[i..][1..] == steps[i + 1..];
      var _ := service.HandleEvent(steps[i].world, steps[i].event);
    }
    assert steps[|steps|..] == [];
    forall id | id in service.calls
      ensures var c := service.calls[id];
              && (c.Over() <==> c.endedAt.Some?) && (c.status == Completed ==> c.answered)
              && (c.answered ==> c.answeredAt.Some? && c.bridged)
    {
      CallRuns.RecordsAreCoherent(steps, id);
    }
  }
}
