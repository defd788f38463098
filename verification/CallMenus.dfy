/** How often a caller hears the prompt, over whole runs of the call engine. */
module CallMenus {
  import opened Wrappers
  import opened CallRecords
  import opened CallSteps
  import opened CallLaws
  import opened ExtensionKeys
  import CallInvariants
  import CallRuns
  import IvrMenu

  /** How often the menu's prompt was asked for on this channel; a stock recording stands in for the same prompt. */
  function Prompts(log: seq<Request>, ch: Channel): nat {
    if log == [] then 0
    else Prompts(log[..|log| - 1], ch) + if IsPrompt(log[|log| - 1], ch) then 1 else 0
  }

  predicate IsPrompt(request: Request, ch: Channel) { request.PlayPrompt? && request.channel == ch && !request.stock }

  predicate Quiet(s: State, t: State, ch: Channel) { Prompts(t.log, ch) == Prompts(s.log, ch) }

  lemma AskCounts(s: State, request: Request, ch: Channel)
    ensures Prompts(Ask(s, request).log, ch) == Prompts(s.log, ch) + if IsPrompt(request, ch) then 1 else 0
  {
    assert Ask(s, request).log[..|s.log|] == s.log;
  }

  lemma AsksQuietly(ch: Channel)
    ensures forall s: State, request: Request :: !request.PlayPrompt? ==> Quiet(s, Ask(s, request), ch)
  {
    forall s: State, request: Request | !request.PlayPrompt? ensures Quiet(s, Ask(s, request), ch) { AskCounts(s, request, ch); }
  }

  // ---------------------------------------------------------------- handlers that play nothing

  lemma {:induction false} HangupEachQuiet(s: State, channels: seq<Channel>, keep: Option<Channel>, ch: Channel)
    ensures Quiet(s, HangupEach(s, channels, keep), ch)
    decreases |channels|
  {
    hide Prompts;
    AsksQuietly(ch);
    if channels != [] {
      HangupEachQuiet(if Some(channels[0]) == keep then s else Ask(s, Hangup(channels[0])), channels[1..], keep, ch);
    }
  }

  lemma {:induction false} CancelEachQuiet(s: State, w: World, channels: seq<Channel>, ch: Channel)
    ensures Quiet(s, CancelEach(s, w, channels).state, ch)
    decreases |channels|
  {
    hide Prompts;
    AsksQuietly(ch);
    if channels != [] { CancelEachQuiet(Ask(s, Hangup(channels[0])), w, channels[1..], ch); }
  }

  lemma HangupCallChannelsQuiet(s: State, w: World, id: CallId, call: Call, keep: Option<Channel>, ch: Channel)
    ensures Quiet(s, HangupCallChannels(s, w, id, call, keep), ch)
  {
    hide Prompts, HangupEach;
    AsksQuietly(ch);
    var head := if call.customer.Some? then [call.customer.value] else [];
    var s1 := HangupEach(s, Channels(call.Legs()) + head, keep);
    HangupEachQuiet(s, Channels(call.Legs()) + head, keep, ch);
    HangupEachQuiet(Ask(s1, ListChannels), FarSide(s1, w, id, call, keep), keep, ch);
  }

  lemma FinalizeQuiet(s: State, w: World, id: CallId, keep: Option<Channel>, ch: Channel)
    ensures Quiet(s, Finalize(s, w, id, keep).state, ch)
  {
    hide Prompts, HangupCallChannels, Close;
    AsksQuietly(ch);
    if id in s.core.calls {
      var call := s.core.calls[id];
      var s1 := if call.named && call.recording == Running
                then s.(core := Put(s.core, id, call.(recording := Finalizing))) else s;
      HangupCallChannelsQuiet(s1, w, id, call, keep, ch);
    }
  }

  lemma {:induction false} BuildBridgeQuiet(s: State, w: World, id: CallId, requests: seq<Request>, ch: Channel)
    requires forall i :: 0 <= i < |requests| ==> !requests[i].PlayPrompt?
    ensures Quiet(s, BuildBridge(s, w, id, requests).state, ch)
    decreases |requests|
  {
    hide Prompts;
    AsksQuietly(ch);
    if requests != [] { BuildBridgeQuiet(Ask(s, requests[0]), w, id, requests[1..], ch); }
  }

  lemma StartRecordingQuiet(s: State, w: World, id: CallId, ch: Channel)
    requires id in s.core.calls
    ensures Quiet(s, StartRecording(s, w, id), ch)
  {
    hide Prompts;
    AsksQuietly(ch);
  }

  lemma JoinQuiet(s: State, w: World, id: CallId, ch: Channel)
    requires id in s.core.calls
    ensures Quiet(s, Join(s, w, id).state, ch)
  {
    hide Prompts, BuildBridge, HangupCallChannels, StartRecording;
    AsksQuietly(ch);
    var call := s.core.calls[id];
    if !call.bridged && call.customer.Some? {
      var requests := [CreateBridge(id), AddToBridge(id, call.employee), AddToBridge(id, call.customer.value)];
      var built := BuildBridge(s, w, id, requests);
      BuildBridgeQuiet(s, w, id, requests, ch);
      if built.ok {
        StartRecordingQuiet(built.state.(core := Save(built.state.core, id, call.(bridged := true, status := Bridged), CallBridged)), w, id, ch);
      } else {
        HangupCallChannelsQuiet(Ask(built.state, DestroyBridge(id)), w, id, call, None, ch);
      }
    }
  }

  lemma {:induction false} RingEachQuiet(s: State, w: World, id: CallId, targets: seq<Target>, numbering: Numbering, legs: seq<Leg>, ch: Channel)
    ensures Quiet(s, RingEach(s, w, id, targets, numbering, legs).state, ch)
    decreases |targets|
  {
    hide Prompts;
    AsksQuietly(ch);
    if targets != [] {
      var t := targets[0];
      var channel := Employee(id, LegNumber(numbering, |legs|, t.index));
      var asked := Ask(s, Originate(channel, t.endpoint));
      RingEachQuiet(asked.(legIndex := asked.legIndex[channel := id]), w, id, targets[1..], numbering, legs + [Leg(channel, t.extension)], ch);
      RingEachQuiet(asked, w, id, targets[1..], numbering, legs, ch);
    }
  }

  lemma VoicemailQuiet(s: State, w: World, id: CallId, mailbox: string, ch: Channel)
    requires id in s.core.calls
    ensures Quiet(s, Voicemail(s, w, id, mailbox).state, ch)
  {
    hide Prompts, Finalize, CancelEach;
    AsksQuietly(ch);
    var call := s.core.calls[id];
    var asked := Ask(s, Continue(call.customer.GetOr(Foreign("")), mailbox));
    FinalizeQuiet(asked.(core := Note(asked.core, id, CallVoicemail)), w, id, call.customer, ch);
    CancelEachQuiet(asked, w, CustomerOf(call), ch);
    FinalizeQuiet(CancelEach(asked, w, CustomerOf(call)).state, w, id, None, ch);
  }

  lemma MissedQuiet(s: State, w: World, id: CallId, ch: Channel)
    requires id in s.core.calls
    ensures Quiet(s, Missed(s, w, id).state, ch)
  {
    hide Prompts, Finalize, CancelEach;
    var noted := s.(core := Note(s.core, id, CallMissed));
    CancelEachQuiet(noted, w, CustomerOf(s.core.calls[id]), ch);
    FinalizeQuiet(CancelEach(noted, w, CustomerOf(s.core.calls[id])).state, w, id, None, ch);
  }

  lemma ForwardQuiet(s: State, w: World, id: CallId, phone: string, ch: Channel)
    requires id in s.core.calls
    ensures Quiet(s, Forward(s, w, id, phone).state, ch) && id in Forward(s, w, id, phone).state.core.calls
  {
    hide Prompts;
    AsksQuietly(ch);
  }

  lemma {:induction false} NoAnswerQuiet(s: State, w: World, id: CallId, plan: Plan, ch: Channel)
    ensures Quiet(s, NoAnswer(s, w, id, plan).state, ch)
    decreases if MayFallBack(s, id) then 1 else 0, 1
  {
    hide Prompts, RingFallbacks, Voicemail, Forward, Missed;
    if id in s.core.calls && s.core.calls[id].endedAt.None? {
      VoicemailQuiet(s, w, id, plan.mailbox, ch);
      ForwardQuiet(s, w, id, plan.forward, ch);
      MissedQuiet(Forward(s, w, id, plan.forward).state, w, id, ch);
      MissedQuiet(s, w, id, ch);
      if MayFallBack(s, id) && plan.fallbacks != [] { RingFallbacksQuiet(s, w, id, plan, ch); }
    }
  }

  lemma {:induction false} RingFallbacksQuiet(s: State, w: World, id: CallId, plan: Plan, ch: Channel)
    requires MayFallBack(s, id) && plan.fallbacks != []
    ensures Quiet(s, RingFallbacks(s, w, id, plan).state, ch)
    decreases 1, 0
  {
    hide Prompts, NoAnswer, RingEach, TargetsApart;
    var call := s.core.calls[id];
    var next := w.desk(plan.(destinations := plan.fallbacks), plan.fallbacks, call.number, OfExtension(plan.fallbacks[0]));
    var round := RingEach(s, w, id, TargetsApart(w, next.destinations, call.number), ByRound, []);
    RingEachQuiet(s, w, id, TargetsApart(w, next.destinations, call.number), ByRound, [], ch);
    if round.legs == [] {
      var written := round.state.(core :=
        Save(round.state.core, id, call.(extension := plan.fallbacks[0], status := RingingFallback), FallbackRound));
      NoAnswerQuiet(written, w, id, next, ch);
    }
  }

  lemma StartOutboundQuiet(s: State, w: World, id: CallId, extension: string, phone: string, number: string, ch: Channel)
    ensures Quiet(s, StartOutbound(s, w, id, extension, phone, number).state, ch)
  {
    hide Prompts, RingEach, Create;
    var call := Call(false, extension, phone, number, Initiated, false, None, None, Employee(id, 0), [], None, false, false, NoRecording);
    RingEachQuiet(s.(core := Create(s.core, id, call)), w, id, TargetsOf(extension, w.endpoints(extension, number), 0), ByPlace, [], ch);
  }

  lemma RingInboundQuiet(s: State, w: World, id: CallId, plan: Plan, ch: Channel)
    requires id in s.core.calls
    ensures Quiet(s, RingInbound(s, w, id, plan).state, ch)
  {
    hide Prompts, RingEach, TargetsThrough, NoAnswer;
    var told := s.(core := Note(s.core, id, EmployeeRinging));
    var targets := TargetsThrough(w, plan.destinations, s.core.calls[id].number, 0);
    RingEachQuiet(told, w, id, targets, ByPlace, [], ch);
    NoAnswerQuiet(RingEach(told, w, id, targets, ByPlace, []).state, w, id, plan, ch);
  }

  lemma DialChosenQuiet(s: State, w: World, session: MenuSession, key: string, ch: Channel)
    ensures Quiet(s, DialChosen(s, w, session, key).state, ch)
  {
    hide Prompts, RingEach, NoAnswer;
    if session.call in s.core.calls {
      var id := session.call;
      var plan := w.desk(session.plan.(destinations := [key]), [key], session.number, OfExtension(key));
      var s1 := s.(core := Put(s.core, id, s.core.calls[id].(extension := key)));
      var targets := if plan.destinations == [] then [] else TargetsOf(key, w.endpoints(key, session.number), 0);
      RingEachQuiet(s1, w, id, targets, ByPlace, [], ch);
      NoAnswerQuiet(Reopen(RingEach(s1, w, id, targets, ByPlace, []).state, id), w, id, plan, ch);
    }
  }

  lemma NoChoiceQuiet(s: State, w: World, session: MenuSession, ch: Channel)
    ensures Quiet(s, NoChoice(s, w, session).state, ch)
  {
    hide Prompts, RingEach, NoAnswer, DialChosen, TargetsThrough;
    AsksQuietly(ch);
    DialChosenQuiet(Ask(s, StopPrompt(session.call, session.state.tries)), w, session, session.plan.fallback, ch);
    if session.call in s.core.calls {
      var rest := session.plan.fallbackDestinations;
      var plan := w.desk(session.plan.(destinations := rest), rest, session.number, OfNumber(session.number));
      var targets := TargetsThrough(w, plan.destinations, session.number, 0);
      RingEachQuiet(s, w, session.call, targets, ByPlace, [], ch);
      NoAnswerQuiet(Reopen(RingEach(s, w, session.call, targets, ByPlace, []).state, session.call), w, session.call, plan, ch);
    }
  }

  lemma {:induction false} PlaceEachQuiet(s: State, w: World, id: CallId, targets: seq<string>, index: nat, placed: bool, ch: Channel)
    ensures Quiet(s, PlaceEach(s, w, id, targets, index, placed).state, ch)
    decreases |targets|
  {
    hide Prompts;
    AsksQuietly(ch);
    if targets != [] {
      var request := Originate(Customer(id, index), targets[0]);
      PlaceEachQuiet(Ask(s, request), w, id, targets[1..], index + 1, placed || ReplyTo(s, w, request).Done?, ch);
    }
  }

  lemma StartCustomerQuiet(s: State, w: World, id: CallId, ch: Channel)
    requires id in s.core.calls
    ensures Quiet(s, StartCustomer(s, w, id).state, ch)
  {
    hide Prompts, PlaceEach, CancelEach;
    var call := s.core.calls[id];
    forall t: State, targets: seq<string> ensures Quiet(t, PlaceEach(t, w, id, targets, 0, false).state, ch) { PlaceEachQuiet(t, w, id, targets, 0, false, ch); }
    forall t: State, channels: seq<Channel> ensures Quiet(t, CancelEach(t, w, channels).state, ch) { CancelEachQuiet(t, w, channels, ch); }
  }

  lemma HandleUpQuiet(s: State, w: World, channel: Channel, ch: Channel)
    ensures Quiet(s, HandleUp(s, w, channel).state, ch)
  {
    hide Prompts, PickUp, PickUpPanel, FarSideUp, FindByChannel;
    AsksQuietly(ch);
    if CallForChannel(s, channel).Some? {
      var id := CallForChannel(s, channel).value;
      PickUpQuiet(s, w, id, channel, ch);
      PickUpPanelQuiet(s, w, id, channel, ch);
      FarSideUpQuiet(s, w, id, channel, ch);
    }
  }

  lemma PickUpQuiet(s: State, w: World, id: CallId, channel: Channel, ch: Channel)
    requires id in s.core.calls
    ensures Quiet(s, PickUp(s, w, id, channel).state, ch)
  {
    hide Prompts, CancelEach, Join, Only, ExtensionOf;
    var call := s.core.calls[id];
    var taken := s.(core := Save(s.core, id,
      call.(status := EmployeeAnswered, employee := channel, extension := ExtensionOf(call.Legs(), channel, call.extension)), EmployeePickedUp));
    CancelEachQuiet(taken, w, Without(Channels(call.Legs()), channel), ch);
    JoinQuiet(CancelEach(taken, w, Without(Channels(call.Legs()), channel)).state, w, id, ch);
  }

  lemma PickUpPanelQuiet(s: State, w: World, id: CallId, channel: Channel, ch: Channel)
    requires id in s.core.calls
    ensures Quiet(s, PickUpPanel(s, w, id, channel).state, ch)
  {
    hide Prompts, CancelEach, StartCustomer, Only;
    var call := s.core.calls[id];
    var cancelled := CancelEach(s, w, Without(Channels(call.Legs()), channel));
    CancelEachQuiet(s, w, Without(Channels(call.Legs()), channel), ch);
    StartCustomerQuiet(
      cancelled.state.(core := Save(cancelled.state.core, id, call.(status := EmployeeAnswered, employee := channel), EmployeePickedUp)),
      w, id, ch);
  }

  lemma FarSideUpQuiet(s: State, w: World, id: CallId, channel: Channel, ch: Channel)
    requires id in s.core.calls
    ensures Quiet(s, FarSideUp(s, w, id, channel).state, ch)
  {
    hide Prompts, CancelEach, Join, FarSide;
    AsksQuietly(ch);
    var call := s.core.calls[id];
    var others := FarSide(s, w, id, call, Some(channel));
    var cancelled := CancelEach(Ask(s, ListChannels), w, others);
    CancelEachQuiet(Ask(s, ListChannels), w, others, ch);
    JoinQuiet(cancelled.state.(core := Put(cancelled.state.core, id, call.(customer := Some(channel)))), w, id, ch);
  }

  lemma HandleGoneQuiet(s: State, w: World, channel: Channel, ch: Channel)
    ensures Quiet(s, HandleGone(s, w, channel).state, ch)
  {
    hide Prompts, RungOut, HungUp, FindByChannel;
    if CallForChannel(s, channel).Some? {
      var id := CallForChannel(s, channel).value;
      var call := s.core.calls[id];
      var isEmployee := channel in Channels(call.Legs()) || channel == call.employee;
      var left := s.(sessions := s.sessions - {channel});
      RungOutQuiet(left.(legIndex := s.legIndex - {channel}), w, id, channel, isEmployee, ch);
      HungUpQuiet(left, w, id, channel, isEmployee, ch);
    }
  }

  lemma RungOutQuiet(s: State, w: World, id: CallId, channel: Channel, isEmployee: bool, ch: Channel)
    requires id in s.core.calls
    ensures Quiet(s, RungOut(s, w, id, channel, isEmployee).state, ch)
  {
    hide Prompts, NoAnswer, Finalize, HangupCallChannels, StillRinging, JourneyOf, Forget;
    AsksQuietly(ch);
    var call := s.core.calls[id];
    var listed := Ask(s, ListChannels);
    var quiet := listed.(legIndex := Forget(listed.legIndex, Channels(call.Legs())));
    NoAnswerQuiet(listed, w, id, JourneyOf(w, call), ch);
    HangupCallChannelsQuiet(quiet, w, id, call, Some(channel), ch);
    FinalizeQuiet(HangupCallChannels(quiet, w, id, call, Some(channel)), w, id, None, ch);
  }

  lemma HungUpQuiet(s: State, w: World, id: CallId, channel: Channel, isEmployee: bool, ch: Channel)
    requires id in s.core.calls
    ensures Quiet(s, HungUp(s, w, id, channel, isEmployee).state, ch)
  {
    hide Prompts, Finalize, CancelEach, Forget;
    forall t: State, channels: seq<Channel> ensures Quiet(t, CancelEach(t, w, channels).state, ch) { CancelEachQuiet(t, w, channels, ch); }
    forall t: State ensures Quiet(t, Finalize(t, w, id, None).state, ch) { FinalizeQuiet(t, w, id, None, ch); }
  }

  lemma HandleHangupQuiet(s: State, w: World, id: CallId, ch: Channel)
    ensures Quiet(s, HandleHangup(s, w, id).state, ch)
  {
    hide Prompts, Finalize, CancelEach;
    forall t: State, channels: seq<Channel> ensures Quiet(t, CancelEach(t, w, channels).state, ch) { CancelEachQuiet(t, w, channels, ch); }
    forall t: State ensures Quiet(t, Finalize(t, w, id, None).state, ch) { FinalizeQuiet(t, w, id, None, ch); }
  }

  lemma {:induction false} ReconcileQuiet(s: State, w: World, ids: seq<CallId>, ch: Channel)
    ensures Quiet(s, ReconcileEach(s, w, ids), ch)
    decreases |ids|
  {
    hide Prompts;
    AsksQuietly(ch);
    if ids != [] { ReconcileQuiet(ReconcileOne(s, w, ids[|ids| - 1]), w, ids[..|ids| - 1], ch); }
  }

  lemma {:induction false} RetainQuiet(s: State, w: World, ids: seq<CallId>, ch: Channel)
    ensures Quiet(s, RetainEach(s, w, ids).state, ch)
    decreases |ids|
  {
    hide Prompts;
    AsksQuietly(ch);
    if ids != [] { RetainQuiet(RetainOne(s, w, ids[|ids| - 1]).state, w, ids[..|ids| - 1], ch); }
  }

  lemma RecoverOneQuiet(s: State, w: World, live: seq<Live>, id: CallId, ch: Channel)
    ensures Quiet(s, RecoverOne(s, w, live, id).state, ch)
  {
    hide Prompts, StartCustomer, Join, Register, StateIn;
    if id in s.core.calls {
      var known := s.(legIndex := Register(s.legIndex, Channels(s.core.calls[id].Legs()), id));
      StartCustomerQuiet(known, w, id, ch);
      JoinQuiet(known, w, id, ch);
    }
  }

  lemma {:induction false} RecoverEachQuiet(s: State, w: World, live: seq<Live>, ids: seq<CallId>, ch: Channel)
    ensures Quiet(s, RecoverEach(s, w, live, ids).state, ch)
    decreases |ids|
  {
    hide Prompts, RecoverOne;
    if ids != [] {
      RecoverOneQuiet(s, w, live, ids[|ids| - 1], ch);
      RecoverEachQuiet(RecoverOne(s, w, live, ids[|ids| - 1]).state, w, live, ids[..|ids| - 1], ch);
    }
  }

  lemma RecoverQuiet(s: State, w: World, ch: Channel)
    ensures Quiet(s, Recover(s, w).state, ch)
  {
    hide Prompts, ReconcileEach, RecoverEach;
    AsksQuietly(ch);
    var bare := s.(legIndex := map[], sessions := map[]);
    var rebuilt := ReconcileEach(bare, w, s.core.order);
    ReconcileQuiet(bare, w, s.core.order, ch);
    var asked := Ask(rebuilt, ListChannels);
    if ReplyTo(rebuilt, w, ListChannels).Done? { RecoverEachQuiet(asked, w, ReplyTo(rebuilt, w, ListChannels).live, asked.core.order, ch); }
  }

  // ---------------------------------------------------------------- what a menu still has to play

  /** The prompts that the session on this channel may still play. */
  function Left(s: State, ch: Channel): int {
    if ch in s.sessions then s.sessions[ch].menu.attempts - 1 - s.sessions[ch].state.tries else 0
  }

  lemma LeftIsNatural(s: State, ch: Channel)
    requires Sane(s)
    ensures Left(s, ch) >= 0
  {
    hide CallInvariants.CoreOk, CallInvariants.BooksOf;
    if ch in s.sessions { assert SessionOk(s.core, s.sessions[ch]); }
  }

  /** Nothing more is spent than what the session had left. */
  predicate Pays(s: State, t: State, ch: Channel) { Prompts(t.log, ch) + Left(t, ch) <= Prompts(s.log, ch) + Left(s, ch) }

  lemma PlayToPlaysOnce(s: State, w: World, channel: Channel, attempt: nat, ch: Channel)
    ensures Prompts(PlayTo(s, w, channel, attempt).log, ch) == Prompts(s.log, ch) + if channel == ch then 1 else 0
  {
    hide Prompts;
    var s1 := Ask(s, Answer(channel));
    var s2 := Ask(s1, PlayPrompt(channel, attempt, false));
    AskCounts(s, Answer(channel), ch);
    AskCounts(s1, PlayPrompt(channel, attempt, false), ch);
    AskCounts(s2, PlayPrompt(channel, attempt, true), ch);
  }

  /** A step of a menu whose replay costs an attempt is paid for by its own session, and leaves the others alone. */
  lemma ConcludePays(s: State, w: World, channel: Channel, session: MenuSession, outcome: IvrMenu.Outcome, ch: Channel)
    requires Sane(s) && SessionOk(s.core, session) && channel in s.sessions
    requires session.menu.attempts == s.sessions[channel].menu.attempts && session.state == s.sessions[channel].state
    requires match outcome
             case Open(next) => next.tries == session.state.tries
             case Prompted(next) => next.tries == session.state.tries + 1
             case _ => true
    ensures Pays(s, Conclude(s, w, channel, session, outcome).state, ch)
  {
    hide Prompts, CallInvariants.CoreOk, SessionOk, PlayTo, DialChosen, NoChoice, CallInvariants.BooksOf;
    LeftIsNatural(s, ch);
    var t := Conclude(s, w, channel, session, outcome).state;
    var left := Leave(s, channel, session);
    match outcome
    case Open(_) =>
    case Prompted(next) =>
      PlayToPlaysOnce(s.(sessions := s.sessions[channel := session.(state := next)]), w, channel, next.tries, ch);
    case Dialled(key) =>
      AsksQuietly(ch);
      DialChosenQuiet(left, w, session, key, ch);
      DialChosenKeeps(left, w, session, key);
    case GaveUp(_) =>
      AsksQuietly(ch);
      NoChoiceQuiet(left, w, session, ch);
      NoChoiceKeeps(left, w, session);
  }

  /** Reading the line's extensions changes neither the attempts nor how far the caller has come. */
  lemma FilledIs(w: World, core: Core, session: MenuSession)
    requires SessionOk(core, session)
    ensures SessionOk(core, Filled(w, session))
    ensures Filled(w, session).menu.attempts == session.menu.attempts && Filled(w, session).state == session.state
  {
    hide CallInvariants.BooksOf;
  }

  lemma StepCosts(session: MenuSession, input: IvrMenu.Input)
    requires IvrMenu.Sound(session.menu, session.state)
    ensures match IvrMenu.Step(session.menu, session.state, input)
            case Open(next) => next.tries == session.state.tries
            case Prompted(next) => next.tries == session.state.tries + 1
            case _ => true
  {
    hide IvrMenu.Press, IvrMenu.Tick;
    IvrMenu.StepKeepsSound(session.menu, session.state, input);
  }

  lemma PressDigitPays(s: State, w: World, channel: Channel, digit: string, ch: Channel)
    requires Sane(s)
    ensures Pays(s, PressDigit(s, w, channel, digit).state, ch)
  {
    hide Prompts, CallInvariants.CoreOk, CallInvariants.BooksOf, Conclude, IvrMenu.Press, Filled;
    if channel in s.sessions && AllDigits(digit) {
      assert SessionOk(s.core, s.sessions[channel]);
      FilledIs(w, s.core, s.sessions[channel]);
      var session := Filled(w, s.sessions[channel]);
      StepCosts(session, IvrMenu.Pressed(digit, w.now));
      ConcludePays(s, w, channel, session, IvrMenu.Press(session.menu, session.state, digit, w.now), ch);
    }
  }

  lemma TickOnePays(s: State, w: World, channel: Channel, ch: Channel)
    requires Sane(s)
    ensures Pays(s, TickOne(s, w, channel).state, ch)
  {
    hide Prompts, CallInvariants.CoreOk, CallInvariants.BooksOf, Conclude, IvrMenu.Tick, Filled;
    if channel in s.sessions && IvrMenu.Due(s.sessions[channel].state, w.now) {
      assert SessionOk(s.core, s.sessions[channel]);
      FilledIs(w, s.core, s.sessions[channel]);
      var session := if s.sessions[channel].state.digits == "" then s.sessions[channel] else Filled(w, s.sessions[channel]);
      StepCosts(session, IvrMenu.Clock(w.now));
      ConcludePays(s, w, channel, session, IvrMenu.Tick(session.menu, session.state, w.now), ch);
    }
  }

  lemma {:induction false} TickEachPays(s: State, w: World, channels: seq<Channel>, ch: Channel)
    requires Sane(s)
    ensures Pays(s, TickEach(s, w, channels).state, ch)
    decreases |channels|
  {
    hide Prompts, Sane, TickOne, Left;
    if channels != [] {
      TickOnePays(s, w, channels[0], ch);
      TickOneKeeps(s, w, channels[0]);
      TickEachPays(TickOne(s, w, channels[0]).state, w, channels[1..], ch);
    }
  }

  // ---------------------------------------------------------------- arrivals

  /** The prompts a caller may hear for arriving here, by the journey of the line that admits them. */
  function Budget(w: World, event: Event, ch: Channel): nat {
    if event.Arrived? && event.channel == ch && w.admit(event.did, event.extension).Some?
    then AttemptsOf(w, w.admit(event.did, event.extension).value) else 0
  }

  function AttemptsOf(w: World, line: Admission): nat {
    var plan := w.journey(line.number, line.extension);
    if !plan.menu then 0 else if plan.attempts == 0 then 2 else plan.attempts
  }

  lemma OpenMenuPays(s: State, w: World, id: CallId, channel: Channel, plan: Plan, ch: Channel)
    requires id in s.core.calls
    ensures var t := OpenMenu(s, w, id, channel, plan);
            && Prompts(t.log, ch) == Prompts(s.log, ch) + (if channel == ch then 1 else 0)
            && Left(t, ch) == if channel == ch then (if plan.attempts == 0 then 2 else plan.attempts) - 1 else Left(s, ch)
  {
    hide Prompts, PlayTo;
    var call := s.core.calls[id];
    var t := OpenMenu(s, w, id, channel, plan);
    PlayToPlaysOnce(s.(core := Note(s.core, id, MenuOpened), sessions := t.sessions), w, channel, 0, ch);
  }

  /** An admitted newcomer pays for a menu's first prompt out of the attempts the menu brings. */
  lemma NewcomerPays(s: State, w: World, id: CallId, channel: Channel, call: Call, plan: Plan, ch: Channel)
    requires Sane(s) && id in s.core.calls && call == s.core.calls[id]
    requires call.inbound && !call.answered && call.status == Ringing
    ensures var t := if plan.menu then OpenMenu(s, w, id, channel, plan) else RingInbound(s, w, id, plan).state;
            Prompts(t.log, ch) + Left(t, ch) <=
            Prompts(s.log, ch) + Left(s, ch) + if plan.menu && channel == ch then if plan.attempts == 0 then 2 else plan.attempts else 0
  {
    hide Prompts, Sane, OpenMenu, RingInbound, Left;
    LeftIsNatural(s, ch);
    if plan.menu {
      OpenMenuPays(s, w, id, channel, plan, ch);
    } else {
      RingInboundQuiet(s, w, id, plan, ch);
      RingInboundKeeps(s, w, id, plan);
      LeftOf(s, RingInbound(s, w, id, plan).state, ch);
    }
  }

  lemma StartInboundPays(s: State, w: World, channel: Channel, did: string, extension: string, caller: string, id: CallId, ch: Channel)
    requires Sane(s)
    ensures var t := StartInbound(s, w, channel, did, extension, caller, id).state;
            Prompts(t.log, ch) + Left(t, ch) <=
            Prompts(s.log, ch) + Left(s, ch) + Budget(w, Arrived(channel, true, did, extension, caller, id), ch)
  {
    hide Prompts, Sane, OpenMenu, RingInbound, FindByChannel, Create, CancelEach, Left;
    if w.admit(did, extension).None? {
      CancelEachQuiet(s, w, [channel], ch);
      LeftOf(s, CancelOne(s, w, channel).state, ch);
    } else if FindByChannel(s.core, s.core.order, channel).None? && id !in s.core.calls {
      var line := w.admit(did, extension).value;
      var call := Call(true, line.extension, caller, line.number, Ringing, false, None, None, Employee(id, 0), [], Some(channel), false, false, NoRecording);
      var s1 := s.(core := Create(s.core, id, call));
      CreateInboundKeeps(s, id, call);
      LeftOf(s, s1, ch);
      NewcomerPays(s1, w, id, channel, call, w.journey(line.number, line.extension), ch);
    }
  }

  lemma ArrivalPays(s: State, w: World, channel: Channel, inbound: bool, did: string, extension: string, caller: string, id: CallId, ch: Channel)
    requires Sane(s)
    ensures var t := HandleArrival(s, w, channel, inbound, did, extension, caller, id).state;
            Prompts(t.log, ch) + Left(t, ch) <=
            Prompts(s.log, ch) + Left(s, ch) + Budget(w, Arrived(channel, inbound, did, extension, caller, id), ch)
  {
    hide Prompts, Sane, StartInbound, FindByChannel, Left, AttemptsOf;
    StartInboundPays(s, w, channel, did, extension, caller, id, ch);
    LeftOf(s, HandleArrival(s, w, channel, inbound, did, extension, caller, id).state, ch);
  }

  /** What is left only depends on the sessions. */
  lemma LeftOf(s: State, t: State, ch: Channel)
    ensures t.sessions == s.sessions ==> Left(t, ch) == Left(s, ch)
  {}

  // ---------------------------------------------------------------- runs

  lemma QuietPays(s: State, t: State, ch: Channel)
    requires Sane(s) && Quiet(s, t, ch)
    requires forall channel :: channel in t.sessions ==> channel in s.sessions && t.sessions[channel] == s.sessions[channel]
    ensures Pays(s, t, ch)
  {
    hide Prompts, Sane;
    LeftIsNatural(s, ch);
  }

  /** One event plays no more than its sessions have left, and what a new caller brings. */
  lemma HandlePays(s: State, w: World, event: Event, ch: Channel)
    requires Sane(s)
    ensures var t := Handle(s, w, event).state;
            Prompts(t.log, ch) + Left(t, ch) <= Prompts(s.log, ch) + Left(s, ch) + Budget(w, event, ch)
  {
    hide Prompts, Sane, StartOutbound, HandleArrival, HandleUp, HandleGone, PressDigit, HandleRecording, TickEach,
         HandleHangup, ReconcileEach, RetainEach, Recover, Left;
    SaneParts(s);
    var t := Handle(s, w, event).state;
    match event
    case StartCall(id, extension, phone, number) =>
      StartOutboundQuiet(s, w, id, extension, phone, number, ch);
      StartOutboundKeeps(s, w, id, extension, phone, number);
      QuietPays(s, t, ch);
    case Arrived(channel, inbound, did, extension, caller, id) => ArrivalPays(s, w, channel, inbound, did, extension, caller, id, ch);
    case WentUp(channel) => HandleUpQuiet(s, w, channel, ch); HandleUpKeeps(s, w, channel); QuietPays(s, t, ch);
    case Gone(channel) => HandleGoneQuiet(s, w, channel, ch); HandleGoneKeeps(s, w, channel); QuietPays(s, t, ch);
    case Dtmf(channel, digit) => PressDigitPays(s, w, channel, digit, ch);
    case RecordingEnded(id, failed) =>
      RecordingQuiet(s, w, id, failed, ch);
      HandleRecordingKeeps(s, w, id, failed);
      QuietPays(s, t, ch);
    case MenuClock => TickEachPays(s, w, w.waiting, ch);
    case HangupCall(id) => HandleHangupQuiet(s, w, id, ch); HandleHangupKeeps(s, w, id); QuietPays(s, t, ch);
    case Reconcile => ReconcileQuiet(s, w, s.core.order, ch); ReconcileKeeps(s, w, s.core.order); QuietPays(s, t, ch);
    case Retention => RetainQuiet(s, w, s.core.order, ch); RetainKeeps(s, w, s.core.order); QuietPays(s, t, ch);
    case Restart => RecoverQuiet(s, w, ch); RecoverKeeps(s, w); QuietPays(s, t, ch);
  }

  lemma RecordingQuiet(s: State, w: World, id: CallId, failed: bool, ch: Channel)
    ensures Quiet(s, HandleRecording(s, w, id, failed).state, ch)
  {
    hide Prompts;
    AsksQuietly(ch);
  }

  /** What all arrivals on this channel bring. */
  function Budgets(steps: seq<Step>, ch: Channel): nat {
    if steps == [] then 0 else Budget(steps[0].world, steps[0].event, ch) + Budgets(steps[1..], ch)
  }

  lemma {:induction false} RunPays(s: State, steps: seq<Step>, ch: Channel)
    requires Sane(s)
    ensures var t := Run(s, steps);
            Prompts(t.log, ch) + Left(t, ch) <= Prompts(s.log, ch) + Left(s, ch) + Budgets(steps, ch)
    decreases |steps|
  {
    hide Prompts, Sane, Handle, Left, Budget;
    if steps != [] {
      HandlePays(s, steps[0].world, steps[0].event, ch);
      HandleKeeps(s, steps[0].world, steps[0].event);
      RunPays(Handle(s, steps[0].world, steps[0].event).state, steps[1..], ch);
    }
  }

  /**
   * Over every run, whatever callers type and however long lines stay silent: a channel hears its prompt at most
   * as often as the menus it arrived at allow attempts, and a session that is still open has used no more of
   * them than its menu allows.
   */
  lemma PromptsOverRunsAreBounded(steps: seq<Step>, ch: Channel)
    ensures Prompts(CallRuns.Reached(steps).log, ch) <= Budgets(steps, ch)
    ensures ch in CallRuns.Reached(steps).sessions ==>
              var session := CallRuns.Reached(steps).sessions[ch];
              session.state.tries < session.menu.attempts
  {
    hide Run, Budgets, Sane;
    CallRuns.StartIsSane();
    RunKeeps(NEW_STATE, steps);
    RunPays(NEW_STATE, steps, ch);
    LeftIsNatural(Run(NEW_STATE, steps), ch);
  }
}
