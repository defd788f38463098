/** What becomes of recordings: how they are finished, deleted, and brought back. */
module CallRecordings {
  import opened Wrappers
  import opened CallRecords
  import opened CallSteps
  import opened CallInvariants
  import opened CallLaws
  import opened CallRuns
  import opened CallFrames
  import opened ExtensionKeys
  import CallRequests
  import IvrMenu

  // ---------------------------------------------------------------- the sweeps

  /** Some request among those made since was exactly this one, and was done. */
  predicate WasDone(w: World, log: seq<Request>, from: nat, request: Request) {
    exists n: nat :: from <= n < |log| && log[n] == request && w.reply(n, request).Done?
  }

  /** Only the recordings of calls may differ, each allowed to change only as `p` says. */
  predicate OnlyRecordings(a: Core, b: Core) {
    && a.calls.Keys == b.calls.Keys && a.order == b.order
    && forall id :: id in a.calls ==> b.calls[id] == a.calls[id].(recording := b.calls[id].recording)
  }

  lemma {:induction false} ReconcileNeedsEvidence(s: State, w: World, ids: seq<CallId>)
    ensures var r := ReconcileEach(s, w, ids);
            && OnlyRecordings(s.core, r.core) && s.log <= r.log
            && forall id :: id in s.core.calls && r.core.calls[id].recording != s.core.calls[id].recording ==>
                 && r.core.calls[id].recording == Finalized
                 && (s.core.calls[id].recording == Running || s.core.calls[id].recording == Finalizing)
                 && s.core.calls[id].named && s.core.calls[id].endedAt.Some?
                 && WasDone(w, r.log, |s.log|, FindRecording(id))
    decreases |ids|
  {
    if ids != [] {
      hide ReconcileOne;
      var id, next := ids[|ids| - 1], ReconcileOne(s, w, ids[|ids| - 1]);
      ReconcilesOne(s, w, id);
      ReconcileNeedsEvidence(next, w, ids[..|ids| - 1]);
      Earlier(w, next.log, ReconcileEach(s, w, ids).log, |s.log|);
      Later(w, ReconcileEach(s, w, ids).log, |s.log|, |next.log|);
    }
  }

  lemma OneRecording(core: Core, id: CallId, recording: Recording, kind: Kind)
    ensures OnlyRecordings(core, core)
    ensures id in core.calls ==>
              var next := Save(core, id, core.calls[id].(recording := recording), kind);
              && OnlyRecordings(core, next) && id in next.calls && next.calls[id].recording == recording
              && forall other :: other in core.calls && other != id ==> other in next.calls && next.calls[other] == core.calls[other]
  {
    hide OnlyRecordings;
    NoRecordingDiffers(core);
    if id in core.calls {
      var d := core.calls[id].(recording := recording);
      OneDiffers(core, Save(core, id, d, kind), id, d);
    }
  }

  lemma NoRecordingDiffers(core: Core)
    ensures OnlyRecordings(core, core)
  {}

  lemma OneDiffers(core: Core, next: Core, id: CallId, d: Call)
    requires id in core.calls && next.calls == core.calls[id := d] && next.order == core.order
    requires d == core.calls[id].(recording := d.recording)
    ensures OnlyRecordings(core, next)
  {
    assert next.calls.Keys == core.calls.Keys;
  }

  lemma ReconcilesOne(s: State, w: World, id: CallId)
    ensures var r := ReconcileOne(s, w, id);
            && OnlyRecordings(s.core, r.core) && s.log <= r.log
            && forall other :: other in s.core.calls && r.core.calls[other].recording != s.core.calls[other].recording ==>
                 && other == id && r.core.calls[id].recording == Finalized
                 && (s.core.calls[id].recording == Running || s.core.calls[id].recording == Finalizing)
                 && s.core.calls[id].named && s.core.calls[id].endedAt.Some?
                 && WasDone(w, r.log, |s.log|, FindRecording(id))
  {
    hide Save, OnlyRecordings;
    OneRecording(s.core, id, Finalized, RecordingStopped);
    var r := ReconcileOne(s, w, id);
    if |r.log| > |s.log| { assert r.log[|s.log|] == FindRecording(id); }
  }

  lemma Earlier(w: World, log: seq<Request>, longer: seq<Request>, from: nat)
    requires log <= longer
    ensures forall q :: WasDone(w, log, from, q) ==> WasDone(w, longer, from, q)
  {
    forall q | WasDone(w, log, from, q) ensures WasDone(w, longer, from, q) {
      var n: nat :| from <= n < |log| && log[n] == q && w.reply(n, q).Done?;
      assert longer[n] == q;
    }
  }

  lemma Later(w: World, log: seq<Request>, from: nat, later: nat)
    requires from <= later
    ensures forall q :: WasDone(w, log, later, q) ==> WasDone(w, log, from, q)
  {}

  /** Retention deletes only recordings of calls that ended before the cutoff, each by a deletion Asterisk carried out. */
  lemma {:induction false} RetentionOnlyDeletesOld(s: State, w: World, ids: seq<CallId>)
    ensures var r := RetainEach(s, w, ids).state;
            && OnlyRecordings(s.core, r.core) && s.log <= r.log
            && forall id :: id in s.core.calls && r.core.calls[id].recording != s.core.calls[id].recording ==>
                 && r.core.calls[id].recording == Deleted && s.core.calls[id].named
                 && s.core.calls[id].endedAt.Some? && s.core.calls[id].endedAt.value < w.cutoff
                 && WasDone(w, r.log, |s.log|, DeleteRecording(id))
    decreases |ids|
  {
    if ids != [] {
      hide RetainOne;
      var next := RetainOne(s, w, ids[|ids| - 1]);
      RetainsOne(s, w, ids[|ids| - 1]);
      if next.ok {
        RetentionOnlyDeletesOld(next.state, w, ids[..|ids| - 1]);
        Earlier(w, next.state.log, RetainEach(s, w, ids).state.log, |s.log|);
        Later(w, RetainEach(s, w, ids).state.log, |s.log|, |next.state.log|);
      }
    }
  }

  lemma RetainsOne(s: State, w: World, id: CallId)
    ensures var r := RetainOne(s, w, id).state;
            && OnlyRecordings(s.core, r.core) && s.log <= r.log
            && forall other :: other in s.core.calls && r.core.calls[other].recording != s.core.calls[other].recording ==>
                 && other == id && r.core.calls[id].recording == Deleted && s.core.calls[id].named
                 && s.core.calls[id].endedAt.Some? && s.core.calls[id].endedAt.value < w.cutoff
                 && WasDone(w, r.log, |s.log|, DeleteRecording(id))
  {
    hide Save, OnlyRecordings;
    OneRecording(s.core, id, Deleted, RecordingDeleted);
    var r := RetainOne(s, w, id).state;
    if |r.log| > |s.log| { assert r.log[|s.log|] == DeleteRecording(id); }
  }

  // ---------------------------------------------------------------- the logs of a restart

  lemma {:induction false} PlaceEachFollows(s: State, w: World, id: CallId, targets: seq<string>, index: nat, placed: bool)
    ensures s.log <= PlaceEach(s, w, id, targets, index, placed).state.log
    decreases |targets|
  {
    if targets != [] {
      var request := Originate(Customer(id, index), targets[0]);
      PlaceEachFollows(Ask(s, request), w, id, targets[1..], index + 1, placed || ReplyTo(s, w, request).Done?);
    }
  }

  lemma CancelEachFollows(s: State, w: World, channels: seq<Channel>)
    ensures s.log <= CancelEach(s, w, channels).state.log
  {
    hide CancelEach, CallRequests.HungUpAll;
    CallRequests.CancelEachAsks(s, w, channels);
  }

  lemma PlacedFollows(tried: Outcome, w: World, id: CallId)
    requires id in tried.state.core.calls
    ensures tried.state.log <= Placed(tried, w, id).state.log
  {
    hide CancelEach, Save;
    CancelEachFollows(tried.state, w, [tried.state.core.calls[id].employee]);
  }

  lemma DialsFollow(s: State, w: World, id: CallId, targets: seq<string>)
    requires id in s.core.calls
    ensures s.log <= Placed(PlaceEach(Dialling(s, id), w, id, targets, 0, false), w, id).state.log
  {
    hide PlaceEach, Placed;
    var tried := PlaceEach(Dialling(s, id), w, id, targets, 0, false);
    PlaceEachFollows(Dialling(s, id), w, id, targets, 0, false);
    PlacedFollows(tried, w, id);
    Chain(s.log, tried.state.log, Placed(tried, w, id).state.log);
  }

  lemma Chain(a: seq<Request>, b: seq<Request>, c: seq<Request>)
    requires a <= b <= c
    ensures a <= c
  {}

  lemma StartCustomerFollows(s: State, w: World, id: CallId)
    requires id in s.core.calls
    ensures s.log <= StartCustomer(s, w, id).state.log
  {
    hide PlaceEach, CancelEach, Placed;
    var call := s.core.calls[id];
    if call.customer.None? && !call.Over() {
      match w.route(call.phone)
      case OutOfService =>
        CancelEachFollows(s.(core := Save(s.core, id, call.(status := Failed, endedAt := Some(w.now)), CallFailed)), w, [call.employee]);
      case Local(extension) => DialsFollow(s, w, id, w.endpoints(extension, call.phone));
      case Carrier => DialsFollow(s, w, id, [call.phone]);
    }
  }

  lemma RecoverOneFollows(s: State, w: World, live: seq<Live>, id: CallId)
    ensures s.log <= RecoverOne(s, w, live, id).state.log
  {
    hide StartCustomer, Join, Register, StateIn, Save;
    if id in s.core.calls {
      var known := s.(legIndex := Register(s.legIndex, Channels(s.core.calls[id].Legs()), id));
      StartCustomerFollows(known, w, id);
      CallRequests.JoinFollows(known, w, id);
    }
  }

  lemma {:induction false} RecoverEachFollows(s: State, w: World, live: seq<Live>, ids: seq<CallId>)
    ensures s.log <= RecoverEach(s, w, live, ids).state.log
    decreases |ids|
  {
    hide RecoverOne;
    if ids != [] {
      RecoverOneFollows(s, w, live, ids[|ids| - 1]);
      RecoverEachFollows(RecoverOne(s, w, live, ids[|ids| - 1]).state, w, live, ids[..|ids| - 1]);
    }
  }

  // ---------------------------------------------------------------- finished recordings

  /** Among the requests made since, Asterisk was asked for this recording, and was there to be asked. */
  predicate WasFound(w: World, log: seq<Request>, from: nat, id: CallId) {
    exists n: nat :: from <= n < |log| && log[n] == FindRecording(id) && !w.reply(n, FindRecording(id)).Unreachable?
  }

  lemma DoneWasFound(w: World, log: seq<Request>, from: nat, id: CallId)
    requires WasDone(w, log, from, FindRecording(id))
    ensures WasFound(w, log, from, id)
  {}

  lemma ReconcileFinds(s: State, w: World, ids: seq<CallId>, id: CallId)
    requires Finished(ReconcileEach(s, w, ids).core, id) && !Finished(s.core, id)
    ensures WasFound(w, ReconcileEach(s, w, ids).log, |s.log|, id)
  {
    hide ReconcileEach, WasDone, WasFound;
    ReconcileNeedsEvidence(s, w, ids);
    DoneWasFound(w, ReconcileEach(s, w, ids).log, |s.log|, id);
  }

  lemma RecoverFinds(s: State, w: World, id: CallId)
    requires Finished(Recover(s, w).state.core, id) && !Finished(s.core, id)
    ensures WasFound(w, Recover(s, w).state.log, |s.log|, id)
  {
    hide ReconcileEach, RecoverEach, Finished, Steady, Rests, WasFound;
    var bare := s.(legIndex := map[], sessions := map[]);
    var rebuilt := ReconcileEach(bare, w, s.core.order);
    var asked := Ask(rebuilt, ListChannels);
    if ReplyTo(rebuilt, w, ListChannels).Done? {
      var live := ReplyTo(rebuilt, w, ListChannels).live;
      RecoverEachApart(asked, w, live, asked.core.order, id);
      RecoverEachFollows(asked, w, live, asked.core.order);
    }
    SameFinished(bare, s, id);
    SameFinished(asked, rebuilt, id);
    ReconcileFinds(bare, w, s.core.order, id);
    FoundLater(w, rebuilt.log, Recover(s, w).state.log, |s.log|, id);
  }

  lemma SameFinished(s: State, t: State, id: CallId)
    requires s.core == t.core
    ensures Finished(s.core, id) <==> Finished(t.core, id)
  {}

  lemma FoundLater(w: World, log: seq<Request>, longer: seq<Request>, from: nat, id: CallId)
    requires log <= longer && WasFound(w, log, from, id)
    ensures WasFound(w, longer, from, id)
  {
    var n: nat :| from <= n < |log| && log[n] == FindRecording(id) && !w.reply(n, FindRecording(id)).Unreachable?;
    assert longer[n] == FindRecording(id);
  }

  lemma RecordingFinds(s: State, w: World, named: CallId, failed: bool, id: CallId)
    requires Finished(HandleRecording(s, w, named, failed).state.core, id) && !Finished(s.core, id)
    ensures WasFound(w, HandleRecording(s, w, named, failed).state.log, |s.log|, id)
  {
    hide Save, Steady, Rests;
    if id != named { HandleRecordingApart(s, w, named, failed, id); }
    assert Ask(s, FindRecording(named)).log[|s.log|] == FindRecording(named);
    if id == named && named in s.core.calls { Written(s.core, named, RecordingFailed, RecordingRefused); }
  }

  lemma Written(core: Core, id: CallId, recording: Recording, kind: Kind)
    requires id in core.calls
    ensures var next := Save(core, id, core.calls[id].(recording := recording), kind);
            id in next.calls && next.calls[id].recording == recording
  {}

  /** Events other than the finish of a recording and the sweeps finish none. */
  lemma HandleRecords(s: State, w: World, event: Event, id: CallId)
    requires Sane(s) && !event.RecordingEnded?
    ensures Erased(s.core, id) ==> Erased(Handle(s, w, event).state.core, id)
    ensures !event.Reconcile? && !event.Restart? ==> (Finished(Handle(s, w, event).state.core, id) ==> Finished(s.core, id))
  {
    hide Rests, Steady, Erased, Finished, Sane, StartOutbound, HandleArrival, HandleUp, HandleGone, PressDigit, TickEach, HandleHangup, ReconcileEach, RetainEach, Recover;
    match event
    case StartCall(c, extension, phone, number) => StartOutboundApart(s, w, c, extension, phone, number, id);
    case Arrived(channel, inbound, did, extension, caller, c) => ArrivalRecords(s, w, channel, inbound, did, extension, caller, c, id);
    case WentUp(channel) => UpRecords(s, w, channel, id);
    case Gone(channel) => GoneRecords(s, w, channel, id);
    case Dtmf(channel, digit) => PressRecords(s, w, channel, digit, id);
    case RecordingEnded(_, _) =>
    case MenuClock => TickRecords(s, w, w.waiting, id);
    case HangupCall(c) => HandleHangupCalm(s, w, c, id);
    case Reconcile => ReconcileCalm(s, w, s.core.order, id);
    case Retention => RetainCalm(s, w, s.core.order, id);
    case Restart => RecoverApart(s, w, id);
  }

  lemma ArrivalRecords(s: State, w: World, channel: Channel, inbound: bool, did: string, extension: string, caller: string, c: CallId, id: CallId)
    ensures Recorded(s, HandleArrival(s, w, channel, inbound, did, extension, caller, c).state, id)
  {
    hide Rests, Steady, Calm, OpenMenu, RingInbound, CancelEach, FindByChannel;
    if CallForChannel(s, channel).Some? {
      var found := CallForChannel(s, channel).value;
      SaveCalm(s, found, s.core.calls[found].(status := Ringing), EmployeeRinging, id);
      CalmRecords(s, s.(core := Save(s.core, found, s.core.calls[found].(status := Ringing), EmployeeRinging)), id);
    } else if w.admit(did, extension).None? {
      CancelEachCalm(s, w, [channel], id);
      CalmRecords(s, CancelOne(s, w, channel).state, id);
    } else if c !in s.core.calls {
      var line := w.admit(did, extension).value;
      var call := Call(true, line.extension, caller, line.number, Ringing, false, None, None, Employee(c, 0), [], Some(channel), false, false, NoRecording);
      var s1 := s.(core := Create(s.core, c, call));
      var plan := w.journey(line.number, line.extension);
      OpenMenuCalm(s1, w, c, channel, plan, id);
      CalmRecords(s1, OpenMenu(s1, w, c, channel, plan), id);
      RingInboundApart(s1, w, c, plan, id);
    }
  }

  lemma CalmRecords(s: State, t: State, id: CallId)
    requires Calm(s, t, id)
    ensures Recorded(s, t, id)
  {}

  lemma UpRecords(s: State, w: World, channel: Channel, id: CallId)
    ensures Recorded(s, HandleUp(s, w, channel).state, id)
  {
    hide Rests, Steady, PickUp, PickUpPanel, FarSideUp, CallForChannel;
    if CallForChannel(s, channel).Some? {
      var c := CallForChannel(s, channel).value;
      PickUpApart(s, w, c, channel, id);
      PickUpPanelApart(s, w, c, channel, id);
      FarSideUpApart(s, w, c, channel, id);
    }
  }

  lemma GoneRecords(s: State, w: World, channel: Channel, id: CallId)
    ensures Recorded(s, HandleGone(s, w, channel).state, id)
  {
    hide Rests, Steady, RungOut, HungUp, CallForChannel;
    if CallForChannel(s, channel).Some? {
      var c := CallForChannel(s, channel).value;
      var isEmployee := channel in Channels(s.core.calls[c].Legs()) || channel == s.core.calls[c].employee;
      var left := s.(sessions := s.sessions - {channel});
      RungOutApart(left.(legIndex := s.legIndex - {channel}), w, c, channel, isEmployee, id);
      HungUpApart(left, w, c, channel, isEmployee, id);
    }
  }

  lemma ConcludeRecords(s: State, w: World, channel: Channel, session: MenuSession, outcome: IvrMenu.Outcome, id: CallId)
    ensures Recorded(s, Conclude(s, w, channel, session, outcome).state, id)
  {
    hide Rests, Steady, Calm, PlayTo, DialChosen, NoChoice;
    match outcome
    case Open(_) =>
    case Prompted(next) =>
      var asked := s.(sessions := s.sessions[channel := session.(state := next)]);
      PlayToCalm(asked, w, channel, next.tries, id);
      CalmRecords(asked, PlayTo(asked, w, channel, next.tries), id);
    case Dialled(key) => DialChosenChosen(Leave(s, channel, session), w, session, key, id);
    case GaveUp(_) => NoChoiceChosen(Leave(s, channel, session), w, session, id);
  }

  lemma PressRecords(s: State, w: World, channel: Channel, digit: string, id: CallId)
    ensures Recorded(s, PressDigit(s, w, channel, digit).state, id)
  {
    hide Conclude, IvrMenu.Press;
    if channel in s.sessions && AllDigits(digit) {
      var session := Filled(w, s.sessions[channel]);
      ConcludeRecords(s, w, channel, session, IvrMenu.Press(session.menu, session.state, digit, w.now), id);
    }
  }

  lemma {:induction false} TickRecords(s: State, w: World, channels: seq<Channel>, id: CallId)
    ensures Recorded(s, TickEach(s, w, channels).state, id)
    decreases |channels|
  {
    hide Conclude, IvrMenu.Tick, Erased, Finished;
    if channels != [] {
      var channel := channels[0];
      if channel in s.sessions && IvrMenu.Due(s.sessions[channel].state, w.now) {
        var session := if s.sessions[channel].state.digits == "" then s.sessions[channel] else Filled(w, s.sessions[channel]);
        ConcludeRecords(s, w, channel, session, IvrMenu.Tick(session.menu, session.state, w.now), id);
      }
      TickRecords(TickOne(s, w, channel).state, w, channels[1..], id);
    }
  }

  /** An event finishes a recording only after asking Asterisk for it, and reaching it. */
  lemma HandleFinds(s: State, w: World, event: Event, id: CallId)
    requires Sane(s) && Finished(Handle(s, w, event).state.core, id) && !Finished(s.core, id)
    ensures WasFound(w, Handle(s, w, event).state.log, |s.log|, id)
  {
    hide Sane, Finished, WasFound, StartOutbound, HandleArrival, HandleUp, HandleGone, PressDigit, HandleRecording, TickEach, HandleHangup, ReconcileEach, RetainEach, Recover;
    match event
    case RecordingEnded(c, failed) => RecordingFinds(s, w, c, failed, id);
    case Reconcile => ReconcileFinds(s, w, s.core.order, id);
    case Restart => RecoverFinds(s, w, id);
    case _ => HandleRecords(s, w, event, id);
  }

  /** Step `j` of a run asked for this recording and reached Asterisk. */
  predicate FoundAt(steps: seq<Step>, j: nat, id: CallId)
    requires j < |steps|
  {
    WasFound(steps[j].world, Reached(steps[..j + 1]).log, |Reached(steps[..j]).log|, id)
  }

  lemma {:induction false} RunSum(s: State, a: seq<Step>, b: seq<Step>)
    ensures Run(s, a + b) == Run(Run(s, a), b)
    decreases |a|
  {
    hide Handle;
    if a == [] { assert a + b == b; }
    else {
      assert (a + b)[1..] == a[1..] + b && (a + b)[0] == a[0];
      RunSum(Handle(s, a[0].world, a[0].event).state, a[1..], b);
    }
  }

  lemma RunOne(s: State, steps: seq<Step>, j: nat)
    requires j < |steps|
    ensures Run(s, steps[..j + 1]) == Handle(Run(s, steps[..j]), steps[j].world, steps[j].event).state
  {
    hide Handle;
    assert steps[..j + 1] == steps[..j] + [steps[j]];
    RunSum(s, steps[..j], [steps[j]]);
    assert [steps[j]][1..] == [];
  }

  lemma {:induction false} FinishedSoFar(steps: seq<Step>, j: nat, id: CallId)
    requires j <= |steps| && Finished(Reached(steps[..j]).core, id)
    ensures exists i: nat :: i < j && FoundAt(steps, i, id)
  {
    hide Run, Handle, Sane, WasFound;
    if j == 0 { assert false by { NothingFinished(id); } }
    else {
      RunOne(NEW_STATE, steps, j - 1);
      if Finished(Reached(steps[..j - 1]).core, id) { FinishedSoFar(steps, j - 1, id); }
      else {
        ReachedIsSane(steps[..j - 1]);
        HandleFinds(Reached(steps[..j - 1]), steps[j - 1].world, steps[j - 1].event, id);
        assert FoundAt(steps, j - 1, id);
      }
    }
  }

  lemma NothingFinished(id: CallId)
    ensures !Finished(Reached([]).core, id)
  {}

  /** Over any run: a recording is finished only if Asterisk was asked for it at some step, and was reached. */
  lemma FinishedWasFound(steps: seq<Step>, id: CallId)
    requires id in Reached(steps).core.calls && Reached(steps).core.calls[id].recording == Finalized
    ensures exists j: nat :: j < |steps| && FoundAt(steps, j, id)
  {
    hide Reached, FoundAt;
    assert steps[..|steps|] == steps;
    FinishedSoFar(steps, |steps|, id);
  }

  // ---------------------------------------------------------------- deleted recordings

  /** The late news of its ending brings a recording back: of a failure always, of a finish when Asterisk can be asked. */
  predicate BringsBack(s: State, w: World, event: Event, id: CallId) {
    event.RecordingEnded? && event.id == id && (event.failed || !ReplyTo(s, w, FindRecording(id)).Unreachable?)
  }

  lemma DeletedIsErased(core: Core, id: CallId)
    requires CoreOk(core, None) && id in core.calls && core.calls[id].recording == Deleted
    ensures Erased(core, id) && core.calls[id].named
  {
    KeptAt(core, id, None);
  }

  /** One event leaves a deleted recording deleted exactly when it does not bring it back. */
  lemma DeletedStaysIff(s: State, w: World, event: Event, id: CallId)
    requires Sane(s) && id in s.core.calls && s.core.calls[id].recording == Deleted
    ensures var t := Handle(s, w, event).state;
            && id in t.core.calls && (t.core.calls[id].recording == Deleted <==> !BringsBack(s, w, event, id))
            && (BringsBack(s, w, event, id) ==> t.core.calls[id].recording == if event.failed then RecordingFailed else Finalized)
  {
    hide Sane, CoreOk, Evolved, StartOutbound, HandleArrival, HandleUp, HandleGone, PressDigit, TickEach, HandleHangup, ReconcileEach, RetainEach, Recover, Rests, Steady;
    SaneParts(s);
    DeletedIsErased(s.core, id);
    if event.RecordingEnded? {
      if event.id != id { HandleRecordingApart(s, w, event.id, event.failed, id); }
    } else {
      HandleRecords(s, w, event, id);
    }
  }

  /**
   * Over any continuation of any run: a deleted recording stays deleted exactly as long as no event brings it
   * back. Nothing guards against the late news of a recording's ending.
   */
  lemma DeletedStaysAsLong(steps: seq<Step>, more: seq<Step>, id: CallId)
    requires id in Reached(steps).core.calls && Reached(steps).core.calls[id].recording == Deleted
    ensures (forall n :: 0 <= n <= |more| ==> StillDeleted(Run(Reached(steps), more[..n]), id)) <==>
            (forall n :: 0 <= n < |more| ==> !BringsBack(Run(Reached(steps), more[..n]), more[n].world, more[n].event, id))
  {
    hide Reached, Handle, Sane, Evolved, Run, BringsBack;
    ReachedIsSane(steps);
    var s := Reached(steps);
    if forall n :: 0 <= n < |more| ==> !BringsBack(Run(s, more[..n]), more[n].world, more[n].event, id) {
      forall n | 0 <= n <= |more| ensures StillDeleted(Run(s, more[..n]), id) { DeletedSoFar(s, more, n, id); }
    } else {
      var n :| 0 <= n < |more| && BringsBack(Run(s, more[..n]), more[n].world, more[n].event, id);
      if StillDeleted(Run(s, more[..n]), id) {
        RunKeeps(s, more[..n]);
        DeletedStaysIff(Run(s, more[..n]), more[n].world, more[n].event, id);
        RunOne(s, more, n);
        assert !StillDeleted(Run(s, more[..n + 1]), id);
      }
    }
  }

  predicate StillDeleted(s: State, id: CallId) { id in s.core.calls && s.core.calls[id].recording == Deleted }

  lemma {:induction false} DeletedSoFar(s: State, more: seq<Step>, n: nat, id: CallId)
    requires Sane(s) && StillDeleted(s, id) && n <= |more|
    requires forall i :: 0 <= i < |more| ==> !BringsBack(Run(s, more[..i]), more[i].world, more[i].event, id)
    ensures StillDeleted(Run(s, more[..n]), id)
  {
    hide Handle, Sane, Evolved, BringsBack;
    if n > 0 {
      hide Run;
      DeletedSoFar(s, more, n - 1, id);
      RunKeeps(s, more[..n - 1]);
      RunOne(s, more, n - 1);
      DeletedStaysIff(Run(s, more[..n - 1]), more[n - 1].world, more[n - 1].event, id);
    }
  }
}
