/** What each handler of the call engine does to the records, the trace and the requests. */
module CallSteps {
  import opened Wrappers
  import opened CallRecords
  import opened ExtensionKeys
  import IvrMenu

  // ---------------------------------------------------------------- hanging up

  /** Hang up every listed channel but one, whatever Asterisk says. */
  function HangupEach(s: State, channels: seq<Channel>, keep: Option<Channel>): (r: State)
    ensures r == s.(log := r.log)
    decreases |channels|
  {
    if channels == [] then s
    else HangupEach(if Some(channels[0]) == keep then s else Ask(s, Hangup(channels[0])), channels[1..], keep)
  }

  /** Hang up the listed channels one by one; an unreachable Asterisk stops the handler there. */
  function CancelEach(s: State, w: World, channels: seq<Channel>): (r: Outcome)
    ensures r.state == s.(log := r.state.log)
    decreases |channels|
  {
    if channels == [] then Outcome(s, true)
    else
      var next := Ask(s, Hangup(channels[0]));
      if ReplyTo(s, w, Hangup(channels[0])).Unreachable? then Outcome(next, false)
      else CancelEach(next, w, channels[1..])
  }

  function CancelOne(s: State, w: World, channel: Channel): Outcome { CancelEach(s, w, [channel]) }

  /** The channels Asterisk lists as alive; none when it cannot say. */
  function Alive(s: State, w: World): seq<Channel> {
    match ReplyTo(s, w, ListChannels)
    case Done(live) => seq(|live|, i requires 0 <= i < |live| => live[i].channel)
    case _ => []
  }

  function Only(channels: seq<Channel>, p: Channel -> bool): seq<Channel> {
    if channels == [] then []
    else (if p(channels[0]) then [channels[0]] else []) + Only(channels[1..], p)
  }

  function Without(channels: seq<Channel>, channel: Channel): seq<Channel> { Only(channels, c => c != channel) }

  /** The live far-side channels of a call other than one: its recorded head and the legs numbered beside it. */
  function FarSide(s: State, w: World, id: CallId, call: Call, except: Option<Channel>): seq<Channel> {
    Only(Alive(s, w), c => Some(c) != except && (Some(c) == call.customer || FarLeg(c, id)))
  }

  /** Hang up everything the call still owns, except a channel deliberately kept. */
  function HangupCallChannels(s: State, w: World, id: CallId, call: Call, keep: Option<Channel>): (r: State)
    ensures r == s.(log := r.log)
  {
    var head := if call.customer.Some? then [call.customer.value] else [];
    var s1 := HangupEach(s, Channels(call.Legs()) + head, keep);
    HangupEach(Ask(s1, ListChannels), FarSide(s1, w, id, call, keep), keep)
  }

  // ---------------------------------------------------------------- the end of a call

  function Finalize(s: State, w: World, id: CallId, keep: Option<Channel>): Outcome {
    if id !in s.core.calls || s.core.calls[id].status == Completed then Outcome(s, true)
    else
      var call := s.core.calls[id];
      var s1 := if call.named && call.recording == Running
                then s.(core := Put(s.core, id, call.(recording := Finalizing))) else s;
      var s2 := HangupCallChannels(s1, w, id, call, keep);
      var torn := TearDown(s2, w, id, call);
      if !torn.ok then torn else Outcome(torn.state.(core := Close(torn.state.core, id, w.now)), true)
  }

  /** Stop what is recording and take the bridge down. */
  function TearDown(s: State, w: World, id: CallId, call: Call): (r: Outcome)
    ensures r.state == s.(log := r.state.log)
  {
    var stop := if call.named && call.recording == Running then Release(s, w, StopRecording(id)) else Outcome(s, true);
    if stop.ok && call.bridged then Release(stop.state, w, DestroyBridge(id)) else stop
  }

  /** A request whose refusal does not matter; an unreachable Asterisk stops the handler. */
  function Release(s: State, w: World, request: Request): Outcome {
    Outcome(Ask(s, request), !ReplyTo(s, w, request).Unreachable?)
  }

  /** Write the ending: an answered call that has not failed is completed, any other failed. */
  function Close(core: Core, id: CallId, now: nat): Core
    requires id in core.calls
  {
    var call := core.calls[id];
    if call.status != Failed && call.answered
    then Save(core, id, call.(status := Completed, endedAt := Some(now)), CallCompleted)
    else Save(core, id, call.(status := Failed, endedAt := Some(now)), CallFailed)
  }

  // ---------------------------------------------------------------- bridging

  function StartBridge(s: State, w: World, id: CallId): (r: State)
    requires id in s.core.calls
    ensures id in r.core.calls
  {
    var call := s.core.calls[id];
    if call.bridged || call.customer.None? then s
    else
      var built := BuildBridge(s, w, id, [CreateBridge(id), AddToBridge(id, call.employee), AddToBridge(id, call.customer.value)]);
      if !built.ok then
        var s1 := HangupCallChannels(Ask(built.state, DestroyBridge(id)), w, id, call, None);
        s1.(core := Save(s1.core, id, call.(status := Failed, endedAt := Some(w.now), bridged := false, recording := RecordingFailed), CallFailed))
      else
        StartRecording(built.state.(core := Save(built.state.core, id, call.(bridged := true, status := Bridged), CallBridged)), w, id)
  }

  /** The bridge is built when Asterisk does each of these in turn; the first failure ends the attempt. */
  function BuildBridge(s: State, w: World, id: CallId, requests: seq<Request>): (r: Outcome)
    ensures r.state == s.(log := r.state.log)
    decreases |requests|
  {
    if requests == [] then Outcome(s, true)
    else if ReplyTo(s, w, requests[0]).Done? then BuildBridge(Ask(s, requests[0]), w, id, requests[1..])
    else Outcome(Ask(s, requests[0]), false)
  }

  /** Recording is an extra on a live call: its failure is written down and nothing more. */
  function StartRecording(s: State, w: World, id: CallId): State
    requires id in s.core.calls
  {
    var call := s.core.calls[id];
    match w.recorder(call.extension)
    case Off => s
    case On(announcement) =>
      var s1 := s.(core := Put(s.core, id, call.(named := true, recording := Running)));
      var s2 := Ask(s1, Record(id));
      if !ReplyTo(s1, w, Record(id)).Done? then
        s2.(core := Save(s2.core, id, s2.core.calls[id].(recording := RecordingFailed), RecordingRefused))
      else
        var s3 := s2.(core := Note(s2.core, id, RecordingStarted));
        if !announcement then s3
        else
          var s4 := Ask(s3, Announce(id));
          if ReplyTo(s3, w, Announce(id)).Done? then s4 else s4.(core := Note(s4.core, id, AnnouncementFailed))
  }

  function MarkAnswered(s: State, id: CallId, now: nat): State
    requires id in s.core.calls
  {
    var call := s.core.calls[id];
    if call.status == Failed || call.answered then s
    else s.(core := Save(s.core, id, call.(status := Answered, answered := true, answeredAt := Some(now)), CallAnswered))
  }

  // ---------------------------------------------------------------- ringing devices

  /** One device to ring: the extension it belongs to, its endpoint, and its place in the round. */
  datatype Target = Target(extension: string, endpoint: string, index: nat)

  /** How a round numbers its legs: from zero by place, or from ten by what already rings. */
  datatype Numbering = ByPlace | ByRound

  function LegNumber(numbering: Numbering, made: nat, index: nat): nat {
    match numbering
    case ByPlace => index
    case ByRound => 10 + made + index
  }

  datatype Round = Round(state: State, legs: seq<Leg>)

  /** Ring each device in turn; one that cannot be rung is passed over. */
  function RingEach(s: State, w: World, id: CallId, targets: seq<Target>, numbering: Numbering, legs: seq<Leg>): (r: Round)
    ensures r.state == s.(log := r.state.log, legIndex := r.state.legIndex)
    decreases |targets|
  {
    if targets == [] then Round(s, legs)
    else
      var t := targets[0];
      var channel := Employee(id, LegNumber(numbering, |legs|, t.index));
      var request := Originate(channel, t.endpoint);
      var asked := Ask(s, request);
      if ReplyTo(s, w, request).Done?
      then RingEach(asked.(legIndex := asked.legIndex[channel := id]), w, id, targets[1..], numbering, legs + [Leg(channel, t.extension)])
      else RingEach(asked, w, id, targets[1..], numbering, legs)
  }

  /** Every endpoint of one extension, numbered from `first`. */
  function TargetsOf(extension: string, endpoints: seq<string>, first: nat): seq<Target> {
    seq(|endpoints|, i requires 0 <= i < |endpoints| => Target(extension, endpoints[i], first + i))
  }

  /** Every endpoint of every destination, numbered through. */
  function TargetsThrough(w: World, destinations: seq<string>, number: string, first: nat): seq<Target>
    decreases |destinations|
  {
    if destinations == [] then []
    else
      var targets := TargetsOf(destinations[0], w.endpoints(destinations[0], number), first);
      targets + TargetsThrough(w, destinations[1..], number, first + |targets|)
  }

  /** Every endpoint of every destination, numbered from zero within each. */
  function TargetsApart(w: World, destinations: seq<string>, number: string): seq<Target> {
    if destinations == [] then []
    else TargetsOf(destinations[0], w.endpoints(destinations[0], number), 0) + TargetsApart(w, destinations[1..], number)
  }

  function Forget(legIndex: map<Channel, CallId>, channels: seq<Channel>): map<Channel, CallId> {
    map channel | channel in legIndex && channel !in channels :: legIndex[channel]
  }

  // ---------------------------------------------------------------- nobody answered

  /** How far the no-answer path of a call has come. */
  function Rank(status: Status): nat {
    match status
    case RingingFallback => 1
    case Forwarding => 2
    case Bridged => 3
    case Answered => 3
    case Completed => 4
    case Failed => 4
    case _ => 0
  }

  predicate MayFallBack(s: State, id: CallId) {
    id in s.core.calls && s.core.calls[id].status != RingingFallback && s.core.calls[id].status != Forwarding
  }

  /** The no-answer path: a fallback round, then the mailbox or the forward number, then a missed call. */
  function NoAnswer(s: State, w: World, id: CallId, plan: Plan): Outcome
    decreases if MayFallBack(s, id) then 1 else 0, 1
  {
    if id !in s.core.calls || s.core.calls[id].endedAt.Some? then Outcome(s, true)
    else
      var call := s.core.calls[id];
      if MayFallBack(s, id) && plan.fallbacks != [] then RingFallbacks(s, w, id, plan)
      else if plan.mailbox != "" then Voicemail(s, w, id, plan.mailbox)
      else if call.status != Forwarding && plan.forward != "" then
        var forwarded := Forward(s, w, id, plan.forward);
        if forwarded.ok then forwarded else Missed(forwarded.state, w, id)
      else Missed(s, w, id)
  }

  function CustomerOf(call: Call): seq<Channel> { if call.customer.Some? then [call.customer.value] else [] }

  /** Hand the caller to the mailbox and keep that one channel; without the hand-over the caller is hung up too. */
  function Voicemail(s: State, w: World, id: CallId, mailbox: string): Outcome
    requires id in s.core.calls
  {
    var call := s.core.calls[id];
    var request := Continue(call.customer.GetOr(Foreign("")), mailbox);
    var asked := Ask(s, request);
    if ReplyTo(s, w, request).Done? then
      Finalize(asked.(core := Note(asked.core, id, CallVoicemail)), w, id, call.customer)
    else
      var gone := CancelEach(asked, w, CustomerOf(call));
      if gone.ok then Finalize(gone.state, w, id, None) else gone
  }

  /** Dial the forward number as one more leg; `ok` tells whether it could be placed. */
  function Forward(s: State, w: World, id: CallId, phone: string): Outcome
    requires id in s.core.calls
  {
    var call := s.core.calls[id];
    var channel := Customer(id, 1);
    var request := Originate(channel, phone);
    var asked := Ask(s, request);
    if !ReplyTo(s, w, request).Done? then Outcome(asked, false)
    else Outcome(
      asked.(legIndex := asked.legIndex[channel := id],
             core := Save(asked.core, id,
               call.(status := Forwarding, employee := channel, rung := [Leg(channel, call.extension)]), CallForwarding)),
      true)
  }

  function Missed(s: State, w: World, id: CallId): Outcome
    requires id in s.core.calls
  {
    var gone := CancelEach(s.(core := Note(s.core, id, CallMissed)), w, CustomerOf(s.core.calls[id]));
    if gone.ok then Finalize(gone.state, w, id, None) else gone
  }

  /** One round at the desk's own fallback destinations, under that desk's handling. */
  function RingFallbacks(s: State, w: World, id: CallId, plan: Plan): Outcome
    requires MayFallBack(s, id) && plan.fallbacks != []
    decreases 1, 0
  {
    var call := s.core.calls[id];
    var next := w.desk(plan.(destinations := plan.fallbacks), plan.fallbacks, call.number, OfExtension(plan.fallbacks[0]));
    var round := RingEach(s, w, id, TargetsApart(w, next.destinations, call.number), ByRound, []);
    if round.legs == [] then
      var written := round.state.(core :=
        Save(round.state.core, id, call.(extension := plan.fallbacks[0], status := RingingFallback), FallbackRound));
      NoAnswer(written, w, id, next)
    else
      var legs := round.legs;
      var written := Save(round.state.core, id,
        call.(status := RingingFallback, employee := legs[0].channel, extension := legs[0].extension, rung := call.rung + legs), FallbackRound);
      Outcome(round.state.(legIndex := Forget(round.state.legIndex, Channels(call.Legs())), core := Note(written, id, EmployeeRinging)), true)
  }

  // ---------------------------------------------------------------- starting calls

  function StartOutbound(s: State, w: World, id: CallId, extension: string, phone: string, number: string): Outcome {
    if id in s.core.calls then Outcome(s, false)
    else
      var call := Call(false, extension, phone, number, Initiated, false, None, None, Employee(id, 0), [], None, false, false, NoRecording);
      var s1 := s.(core := Create(s.core, id, call));
      var round := RingEach(s1, w, id, TargetsOf(extension, w.endpoints(extension, number), 0), ByPlace, []);
      if round.legs == [] then
        Outcome(round.state.(core := Save(round.state.core, id, call.(status := Failed, endedAt := Some(w.now)), CallFailed)), false)
      else
        Outcome(round.state.(core := Save(round.state.core, id, call.(rung := round.legs, status := Ringing), CallRinging)), true)
  }

  function StartInbound(s: State, w: World, channel: Channel, did: string, extension: string, caller: string, id: CallId): Outcome {
    match w.admit(did, extension)
    case None => CancelOne(s, w, channel)
    case Some(line) =>
      if FindByChannel(s.core, s.core.order, channel).Some? then Outcome(s, true)
      else if id in s.core.calls then Outcome(s, false)
      else
        var plan := w.journey(line.number, line.extension);
        var call := Call(true, line.extension, caller, line.number, Ringing, false, None, None, Employee(id, 0), [], Some(channel), false, false, NoRecording);
        var s1 := s.(core := Create(s.core, id, call));
        if plan.menu then Outcome(OpenMenu(s1, w, id, channel, plan), true) else RingInbound(s1, w, id, plan)
  }

  /** Ring every device the journey names at once; with none to ring, nobody answers. */
  function RingInbound(s: State, w: World, id: CallId, plan: Plan): Outcome
    requires id in s.core.calls
  {
    var call := s.core.calls[id];
    var told := s.(core := Note(s.core, id, EmployeeRinging));
    var round := RingEach(told, w, id, TargetsThrough(w, plan.destinations, call.number, 0), ByPlace, []);
    if round.legs == [] then NoAnswer(round.state, w, id, plan)
    else Outcome(round.state.(core := Put(round.state.core, id, call.(employee := round.legs[0].channel, rung := round.legs))), true)
  }

  // ---------------------------------------------------------------- the menu

  function OpenMenu(s: State, w: World, id: CallId, channel: Channel, plan: Plan): State
    requires id in s.core.calls
  {
    var call := s.core.calls[id];
    var menu := IvrMenu.Menu(plan.keyMap, plan.extensions, if plan.attempts == 0 then 2 else plan.attempts,
                             1000 * if plan.timeout == 0 then 6 else if plan.timeout < 2 then 2 else plan.timeout);
    var session := MenuSession(id, call.extension, call.number, plan, menu, IvrMenu.Opened(menu, w.now));
    PlayTo(s.(core := Note(s.core, id, MenuOpened), sessions := s.sessions[channel := session]), w, channel, 0)
  }

  /** Answer the channel if it still rings and play the prompt, the stock one when the first cannot be played. */
  function PlayTo(s: State, w: World, channel: Channel, attempt: nat): (r: State)
    ensures r == s.(log := r.log)
  {
    var s1 := Ask(s, Answer(channel));
    var s2 := Ask(s1, PlayPrompt(channel, attempt, false));
    if ReplyTo(s1, w, PlayPrompt(channel, attempt, false)).Done? then s2 else Ask(s2, PlayPrompt(channel, attempt, true))
  }

  /** A menu with no list of its own offers the extensions of the line, read when digits are first judged. */
  function Filled(w: World, session: MenuSession): MenuSession {
    if |session.menu.keyMap| == 0 && session.menu.keys == []
    then session.(menu := session.menu.(keys := w.offered(session.extension, session.number)))
    else session
  }

  function PressDigit(s: State, w: World, channel: Channel, digit: string): Outcome {
    if channel !in s.sessions || !AllDigits(digit) then Outcome(s, true)
    else
      var session := Filled(w, s.sessions[channel]);
      Conclude(s, w, channel, session, IvrMenu.Press(session.menu, session.state, digit, w.now))
  }

  /** The worker's clock: every waiting caller that is due is moved along. */
  function TickEach(s: State, w: World, channels: seq<Channel>): Outcome
    decreases |channels|
  {
    if channels == [] then Outcome(s, true)
    else
      var moved := TickOne(s, w, channels[0]);
      if moved.ok then TickEach(moved.state, w, channels[1..]) else moved
  }

  function TickOne(s: State, w: World, channel: Channel): Outcome {
    if channel !in s.sessions || !IvrMenu.Due(s.sessions[channel].state, w.now) then Outcome(s, true)
    else
      var session := if s.sessions[channel].state.digits == "" then s.sessions[channel] else Filled(w, s.sessions[channel]);
      Conclude(s, w, channel, session, IvrMenu.Tick(session.menu, session.state, w.now))
  }

  /** Carry out what the menu decided. */
  function Conclude(s: State, w: World, channel: Channel, session: MenuSession, outcome: IvrMenu.Outcome): Outcome {
    match outcome
    case Open(next) => Outcome(s.(sessions := s.sessions[channel := session.(state := next)]), true)
    case Prompted(next) =>
      Outcome(PlayTo(s.(sessions := s.sessions[channel := session.(state := next)]), w, channel, next.tries), true)
    case Dialled(key) => DialChosen(Leave(s, channel, session), w, session, key)
    case GaveUp(_) => NoChoice(Leave(s, channel, session), w, session)
  }

  /** The no-answer path is about to run on a call that was answered and still runs. */
  function Reopen(s: State, id: CallId): State
    requires id in s.core.calls
  {
    if s.core.calls[id].answered && s.core.calls[id].endedAt.None? then s.(core := Note(s.core, id, Reopened)) else s
  }

  /** The session is over: forget it and cut its prompt. */
  function Leave(s: State, channel: Channel, session: MenuSession): State {
    Ask(s.(sessions := s.sessions - {channel}), StopPrompt(session.call, session.state.tries))
  }

  /** The caller chose an extension: ring it under its own handling. */
  function DialChosen(s: State, w: World, session: MenuSession, key: string): Outcome {
    if session.call !in s.core.calls then Outcome(s, false)
    else
      var id := session.call;
      var call := s.core.calls[id].(extension := key);
      var plan := w.desk(session.plan.(destinations := [key]), [key], session.number, OfExtension(key));
      var s1 := s.(core := Put(s.core, id, call));
      var targets := if plan.destinations == [] then [] else TargetsOf(key, w.endpoints(key, session.number), 0);
      var round := RingEach(s1, w, id, targets, ByPlace, []);
      if round.legs == [] then NoAnswer(Reopen(round.state, id), w, id, plan)
      else Outcome(round.state.(core := Save(round.state.core, id,
        call.(employee := round.legs[0].channel, rung := round.legs), MenuSelected)), true)
  }

  /** Nothing valid was chosen: the menu's fallback key, else the rest of the journey. */
  function NoChoice(s: State, w: World, session: MenuSession): Outcome {
    if session.plan.fallback != "" then
      DialChosen(Ask(s, StopPrompt(session.call, session.state.tries)), w, session, session.plan.fallback)
    else if session.call !in s.core.calls then Outcome(s, false)
    else
      var id := session.call;
      var call := s.core.calls[id];
      var rest := session.plan.fallbackDestinations;
      var plan := w.desk(session.plan.(destinations := rest), rest, session.number, OfNumber(session.number));
      var round := RingEach(s, w, id, TargetsThrough(w, plan.destinations, session.number, 0), ByPlace, []);
      if round.legs == [] then NoAnswer(Reopen(round.state, id), w, id, plan)
      else Outcome(round.state.(core := Save(round.state.core, id,
        call.(extension := round.legs[0].extension, employee := round.legs[0].channel, rung := round.legs), MenuFallback)), true)
  }

  // ---------------------------------------------------------------- the far side of a panel call

  function StartCustomer(s: State, w: World, id: CallId): Outcome
    requires id in s.core.calls
  {
    var call := s.core.calls[id];
    if call.customer.Some? || call.Over() then Outcome(s, true)
    else match w.route(call.phone)
      case OutOfService =>
        CancelOne(s.(core := Save(s.core, id, call.(status := Failed, endedAt := Some(w.now)), CallFailed)), w, call.employee)
      case Local(extension) =>
        var dialling := Dialling(s, id);
        Placed(PlaceEach(dialling, w, id, w.endpoints(extension, call.phone), 0, false), w, id)
      case Carrier =>
        Placed(PlaceEach(Dialling(s, id), w, id, [call.phone], 0, false), w, id)
  }

  function Dialling(s: State, id: CallId): State
    requires id in s.core.calls
  {
    s.(core := Save(s.core, id, s.core.calls[id].(customer := Some(Customer(id, 0)), status := DialingCustomer), CustomerDialing))
  }

  /** Place one far-side leg per target; `ok` tells whether any could be placed. */
  function PlaceEach(s: State, w: World, id: CallId, targets: seq<string>, index: nat, placed: bool): (r: Outcome)
    ensures r.state == s.(log := r.state.log)
    decreases |targets|
  {
    if targets == [] then Outcome(s, placed)
    else
      var request := Originate(Customer(id, index), targets[0]);
      PlaceEach(Ask(s, request), w, id, targets[1..], index + 1, placed || ReplyTo(s, w, request).Done?)
  }

  /** No leg could be placed: the employee is hung up, and the call has failed. */
  function Placed(tried: Outcome, w: World, id: CallId): Outcome
    requires id in tried.state.core.calls
  {
    if tried.ok then Outcome(tried.state, true)
    else
      var call := tried.state.core.calls[id];
      var gone := CancelOne(tried.state, w, call.employee);
      if !gone.ok then gone
      else Outcome(gone.state.(core := Save(gone.state.core, id, call.(status := Failed, endedAt := Some(w.now)), CallFailed)), true)
  }

  // ---------------------------------------------------------------- events

  /** The extension of the first leg on this channel. */
  function ExtensionOf(legs: seq<Leg>, channel: Channel, default: string): string {
    if legs == [] then default
    else if legs[0].channel == channel then legs[0].extension
    else ExtensionOf(legs[1..], channel, default)
  }

  /** A device of an incoming call picked up: the others stop ringing and the two sides are joined. */
  function PickUp(s: State, w: World, id: CallId, channel: Channel): Outcome
    requires id in s.core.calls
  {
    var call := s.core.calls[id];
    var taken := s.(core := Save(s.core, id,
      call.(status := EmployeeAnswered, employee := channel, extension := ExtensionOf(call.Legs(), channel, call.extension)), EmployeePickedUp));
    var cancelled := CancelEach(taken, w, Without(Channels(call.Legs()), channel));
    if !cancelled.ok
    then Outcome(cancelled.state.(core := Note(cancelled.state.core, id, PickUpInterrupted)), false)
    else Join(cancelled.state, w, id)
  }

  function Join(s: State, w: World, id: CallId): Outcome
    requires id in s.core.calls
  {
    var joined := StartBridge(s, w, id);
    Outcome(MarkAnswered(joined, id, w.now), true)
  }

  /** The panel's employee picked up: the other devices stop ringing and the far side is dialled. */
  function PickUpPanel(s: State, w: World, id: CallId, channel: Channel): Outcome
    requires id in s.core.calls
  {
    var call := s.core.calls[id];
    var cancelled := CancelEach(s, w, Without(Channels(call.Legs()), channel));
    if !cancelled.ok then Outcome(cancelled.state, false)
    else
      StartCustomer(
        cancelled.state.(core := Save(cancelled.state.core, id, call.(status := EmployeeAnswered, employee := channel), EmployeePickedUp)),
        w, id)
  }

  /** The far side picked up: its other legs stop ringing and the two sides are joined. */
  function FarSideUp(s: State, w: World, id: CallId, channel: Channel): Outcome
    requires id in s.core.calls
  {
    var call := s.core.calls[id];
    var cancelled := CancelEach(Ask(s, ListChannels), w, FarSide(s, w, id, call, Some(channel)));
    if !cancelled.ok then Outcome(cancelled.state, false)
    else Join(cancelled.state.(core := Put(cancelled.state.core, id, call.(customer := Some(channel)))), w, id)
  }

  function HandleUp(s: State, w: World, channel: Channel): Outcome {
    match CallForChannel(s, channel)
    case None => Outcome(s, true)
    case Some(id) =>
      var call := s.core.calls[id];
      var isLeg := channel in Channels(call.Legs());
      if call.Over() then Outcome(Ask(s, Hangup(channel)), true)
      else if call.inbound && isLeg then PickUp(s, w, id, channel)
      else if (isLeg || channel == call.employee) && call.customer.None? then PickUpPanel(s, w, id, channel)
      else if Some(channel) == call.customer || FarLeg(channel, id) then FarSideUp(s, w, id, channel)
      else Outcome(s, true)
  }

  /** The journey of the number, under the desk handling of the extension once a desk was chosen. */
  function JourneyOf(w: World, call: Call): Plan {
    var plan := w.journey(call.number, call.extension);
    if plan.menu || call.status == RingingFallback
    then w.desk(plan, [call.extension], call.number, OfExtension(call.extension)) else plan
  }

  /** The legs still to come on the side a channel belonged to. */
  function StillRinging(s: State, w: World, id: CallId, call: Call, channel: Channel, isEmployee: bool): seq<Channel> {
    if isEmployee then Only(Channels(call.Legs()), c => c != channel && c in Alive(s, w))
    else FarSide(s, w, id, call, Some(channel))
  }

  function HandleGone(s: State, w: World, channel: Channel): Outcome {
    match CallForChannel(s, channel)
    case None => Outcome(s, true)
    case Some(id) =>
      var call := s.core.calls[id];
      var forgotten := s.legIndex - {channel};
      if call.endedAt.Some? then Outcome(s.(legIndex := forgotten), true)
      else
        var isEmployee := channel in Channels(call.Legs()) || channel == call.employee;
        var isCustomer := !isEmployee && (Some(channel) == call.customer || FarLeg(channel, id));
        var left := s.(sessions := s.sessions - {channel});
        if call.answered && ((isEmployee && channel != call.employee) || (isCustomer && Some(channel) != call.customer))
        then Outcome(left.(legIndex := forgotten), true)
        else if (isEmployee || isCustomer) && !call.answered
        then RungOut(left.(legIndex := forgotten), w, id, channel, isEmployee)
        else HungUp(left, w, id, channel, isEmployee)
  }

  /** A leg of an unanswered call is gone: others may still ring, and otherwise nobody answered. */
  function RungOut(s: State, w: World, id: CallId, channel: Channel, isEmployee: bool): Outcome
    requires id in s.core.calls
  {
    var call := s.core.calls[id];
    var listed := Ask(s, ListChannels);
    if StillRinging(s, w, id, call, channel, isEmployee) != [] then Outcome(listed, true)
    else if isEmployee && call.inbound && call.customer.Some? then NoAnswer(listed, w, id, JourneyOf(w, call))
    else
      var quiet := listed.(legIndex := Forget(listed.legIndex, Channels(call.Legs())));
      Finalize(HangupCallChannels(quiet, w, id, call, Some(channel)), w, id, None)
  }

  /** A side of a running call hung up: so does the other side, and the call ends. */
  function HungUp(s: State, w: World, id: CallId, channel: Channel, isEmployee: bool): Outcome
    requires id in s.core.calls
  {
    var call := s.core.calls[id];
    var other := if isEmployee then call.customer else Some(call.employee);
    var quiet := s.(legIndex := Forget(s.legIndex, Channels(call.Legs())));
    var gone := CancelEach(quiet, w, if other.Some? && other != Some(channel) then [other.value] else []);
    if gone.ok then Finalize(gone.state, w, id, None) else gone
  }

  function HandleHangup(s: State, w: World, id: CallId): Outcome {
    if id !in s.core.calls then Outcome(s, true)
    else
      var call := s.core.calls[id];
      var gone := CancelEach(s, w, Channels(call.Legs()) + [call.employee] + CustomerOf(call));
      if gone.ok then Finalize(gone.state, w, id, None) else gone
  }

  function HandleRecording(s: State, w: World, id: CallId, failed: bool): Outcome {
    if id !in s.core.calls || !s.core.calls[id].named then Outcome(s, true)
    else
      var call := s.core.calls[id];
      if failed then Outcome(s.(core := Save(s.core, id, call.(recording := RecordingFailed), RecordingRefused)), true)
      else
        var asked := Ask(s, FindRecording(id));
        if ReplyTo(s, w, FindRecording(id)).Unreachable? then Outcome(asked, false)
        else Outcome(asked.(core := Save(asked.core, id, call.(recording := Finalized), RecordingStopped)), true)
  }

  function HandleArrival(s: State, w: World, channel: Channel, inbound: bool, did: string, extension: string, caller: string, id: CallId): Outcome {
    match CallForChannel(s, channel)
    case None => if inbound then StartInbound(s, w, channel, did, extension, caller, id) else Outcome(s, true)
    case Some(found) =>
      var call := s.core.calls[found];
      if (channel == call.employee || channel in Channels(call.Legs())) && call.status == Initiated
      then Outcome(s.(core := Save(s.core, found, call.(status := Ringing), EmployeeRinging)), true)
      else Outcome(s, true)
  }

  // ---------------------------------------------------------------- sweeps over the call table

  /** Finish events that were missed, recovered from what Asterisk has stored. */
  function ReconcileEach(s: State, w: World, ids: seq<CallId>): State
    decreases |ids|
  {
    if ids == [] then s else ReconcileEach(ReconcileOne(s, w, ids[|ids| - 1]), w, ids[..|ids| - 1])
  }

  function ReconcileOne(s: State, w: World, id: CallId): State {
    if id !in s.core.calls then s
    else
      var call := s.core.calls[id];
      if !call.named || (call.recording != Running && call.recording != Finalizing) || call.endedAt.None? then s
      else
        var asked := Ask(s, FindRecording(id));
        if ReplyTo(s, w, FindRecording(id)).Done?
        then asked.(core := Save(asked.core, id, call.(recording := Finalized), RecordingStopped)) else asked
  }

  /** Recordings past their retention are deleted; an unreachable Asterisk stops the sweep. */
  function RetainEach(s: State, w: World, ids: seq<CallId>): Outcome
    decreases |ids|
  {
    if ids == [] then Outcome(s, true)
    else
      var swept := RetainOne(s, w, ids[|ids| - 1]);
      if swept.ok then RetainEach(swept.state, w, ids[..|ids| - 1]) else swept
  }

  function RetainOne(s: State, w: World, id: CallId): Outcome {
    if id !in s.core.calls then Outcome(s, true)
    else
      var call := s.core.calls[id];
      if !call.named || call.recording == Deleted || call.endedAt.None? || call.endedAt.value >= w.cutoff then Outcome(s, true)
      else
        var asked := Ask(s, DeleteRecording(id));
        match ReplyTo(s, w, DeleteRecording(id))
        case Unreachable => Outcome(asked, false)
        case Refused => Outcome(asked, true)
        case Done(_) => Outcome(asked.(core := Save(asked.core, id, call.(recording := Deleted), RecordingDeleted)), true)
  }

  /** Whether the channel is alive and up, by the last line of the listing that names it. */
  function StateIn(live: seq<Live>, channel: Channel): Option<bool> {
    if live == [] then None
    else if live[|live| - 1].channel == channel then Some(live[|live| - 1].up)
    else StateIn(live[..|live| - 1], channel)
  }

  /** A restarted worker has no sessions and no leg index; it rebuilds from the table and the live channels. */
  function Recover(s: State, w: World): Outcome {
    var rebuilt := ReconcileEach(s.(legIndex := map[], sessions := map[]), w, s.core.order);
    var asked := Ask(rebuilt, ListChannels);
    match ReplyTo(rebuilt, w, ListChannels)
    case Done(live) => RecoverEach(asked, w, live, asked.core.order)
    case _ => Outcome(asked, true)
  }

  function RecoverEach(s: State, w: World, live: seq<Live>, ids: seq<CallId>): Outcome
    decreases |ids|
  {
    if ids == [] then Outcome(s, true)
    else
      var recovered := RecoverOne(s, w, live, ids[|ids| - 1]);
      if recovered.ok then RecoverEach(recovered.state, w, live, ids[..|ids| - 1]) else recovered
  }

  function Register(legIndex: map<Channel, CallId>, channels: seq<Channel>, id: CallId): map<Channel, CallId> {
    map channel | channel in legIndex.Keys + (set c | c in channels) :: if channel in channels then id else legIndex[channel]
  }

  function RecoverOne(s: State, w: World, live: seq<Live>, id: CallId): Outcome {
    if id !in s.core.calls || s.core.calls[id].Over() || s.core.calls[id].endedAt.Some? then Outcome(s, true)
    else
      var call := s.core.calls[id];
      var known := s.(legIndex := Register(s.legIndex, Channels(call.Legs()), id));
      var employee := StateIn(live, call.employee);
      var customer := if call.customer.Some? then StateIn(live, call.customer.value) else None;
      if employee.None? && customer.None? then
        Outcome(known.(core := Save(known.core, id, call.(status := Failed, endedAt := Some(w.now)), CallFailed)), true)
      else if employee == Some(true) && call.customer.None? then StartCustomer(known, w, id)
      else if employee.Some? && customer == Some(true) then Join(known, w, id)
      else Outcome(known, true)
  }

  // ---------------------------------------------------------------- runs

  /** One event, handled to its end or to the point where Asterisk could not be reached. */
  function Handle(s: State, w: World, event: Event): Outcome {
    match event
    case StartCall(id, extension, phone, number) => StartOutbound(s, w, id, extension, phone, number)
    case Arrived(channel, inbound, did, extension, caller, id) => HandleArrival(s, w, channel, inbound, did, extension, caller, id)
    case WentUp(channel) => HandleUp(s, w, channel)
    case Gone(channel) => HandleGone(s, w, channel)
    case Dtmf(channel, digit) => PressDigit(s, w, channel, digit)
    case RecordingEnded(id, failed) => HandleRecording(s, w, id, failed)
    case MenuClock => TickEach(s, w, w.waiting)
    case HangupCall(id) => HandleHangup(s, w, id)
    case Reconcile => Outcome(ReconcileEach(s, w, s.core.order), true)
    case Retention => RetainEach(s, w, s.core.order)
    case Restart => Recover(s, w)
  }

  datatype Step = Step(world: World, event: Event)

  function Run(s: State, steps: seq<Step>): State
    decreases |steps|
  {
    if steps == [] then s else Run(Handle(s, steps[0].world, steps[0].event).state, steps[1..])
  }
}
