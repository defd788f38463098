/** Runs of the call engine that meet the exceptions: a second fallback round, and a no-answer path after an answer. */
module CallScenarios {
  import opened Wrappers
  import opened CallRecords
  import opened CallSteps
  import opened CallInvariants
  import opened CallRuns
  import CallLaws
  import opened CallRequests
  import opened CallFrames
  import opened CallGenuine
  import IvrMenu

  const CALLER: Channel := Foreign("caller")
  const LINE: string := "+13025550001"

  /** Two desks ring together, a third is their fallback, and nothing follows. */
  const DESKS: Plan := Plan(false, ["101", "102"], "", "", ["103"], "", [], map[], [], 0, 0)

  /** A menu on which the key 1 is a desk without a device. */
  const MENU: Plan := Plan(true, [], "", "", [], "", [], map["1" := "104"], [], 0, 0)

  /** Asterisk does everything asked of it and lists no live channel, except that hang-ups may find it gone. */
  function Asterisk(reachable: bool): (nat, Request) -> Reply {
    (n: nat, r: Request) => if r.Hangup? && !reachable then Unreachable else Done([])
  }

  function Setting(plan: Plan, reachable: bool): World {
    World(0, 0, Asterisk(reachable), (d: string, e: string) => Some(Admission("101", LINE)), (n: string, e: string) => plan,
          (p: Plan, ks: seq<string>, n: string, a: Account) => p,
          (e: string, n: string) => if e == "104" then [] else if e == "105" then ["105a", "105b"] else [e],
          (e: string, n: string) => [], (p: string) => Carrier, (e: string) => Off, [])
  }

  // ---------------------------------------------------------------- two fallback rounds

  function Desk(index: nat, extension: string): Leg { Leg(Employee("c", index), extension) }

  function Incoming(status: Status, employee: Channel, extension: string, rung: seq<Leg>): Call {
    Call(true, extension, "x", LINE, status, false, None, None, employee, rung, Some(CALLER), false, false, NoRecording)
  }

  function Just(call: Call, trace: seq<Entry>): Core { Core(map["c" := call], ["c"], trace) }

  function Told(kinds: seq<Kind>): (r: seq<Entry>)
    ensures |r| == |kinds| && forall i :: 0 <= i < |r| ==> r[i] == Entry("c", kinds[i])
  {
    seq(|kinds|, i requires 0 <= i < |kinds| => Entry("c", kinds[i]))
  }

  const TWO_ROUNDS: seq<Step> := [
    Step(Setting(DESKS, true), Arrived(CALLER, true, LINE, "101", "x", "c")),
    Step(Setting(DESKS, true), Gone(Employee("c", 0))),
    Step(Setting(DESKS, false), WentUp(Employee("c", 10))),
    Step(Setting(DESKS, true), Gone(Employee("c", 10)))]

  lemma RingsBoth(s: State, w: World, plan: Plan)
    requires w == Setting(plan, true)
    ensures var r := RingEach(s, w, "c", TargetsThrough(w, ["101", "102"], LINE, 0), ByPlace, []);
            && r.legs == [Desk(0, "101"), Desk(1, "102")]
            && r.state.legIndex == s.legIndex[Employee("c", 0) := "c"][Employee("c", 1) := "c"]
            && r.state.log == s.log + [Originate(Employee("c", 0), "101")] + [Originate(Employee("c", 1), "102")]
  {
    var targets := TargetsThrough(w, ["101", "102"], LINE, 0);
    assert ["101", "102"][1..] == ["102"] && ["102"][1..] == [];
    assert TargetsThrough(w, ["102"], LINE, 1) == [Target("102", "102", 1)];
    assert targets == [Target("101", "101", 0), Target("102", "102", 1)];
    RingsNext(s, w, targets, ByPlace, []);
    var a := Ask(s, Originate(Employee("c", 0), "101")).(legIndex := s.legIndex[Employee("c", 0) := "c"]);
    assert targets[1..] == [Target("102", "102", 1)] && targets[1..][1..] == [];
    RingsNext(a, w, targets[1..], ByPlace, [Desk(0, "101")]);
  }

  /** One device that can be rung is rung. */
  lemma RingsNext(s: State, w: World, targets: seq<Target>, numbering: Numbering, legs: seq<Leg>)
    requires w.reply == Asterisk(true) && targets != []
    ensures var channel := Employee("c", LegNumber(numbering, |legs|, targets[0].index));
            var a := Ask(s, Originate(channel, targets[0].endpoint)).(legIndex := s.legIndex[channel := "c"]);
            RingEach(s, w, "c", targets, numbering, legs) == RingEach(a, w, "c", targets[1..], numbering, legs + [Leg(channel, targets[0].extension)])
  {}

  lemma FirstArrives()
    ensures var t := Handle(NEW_STATE, TWO_ROUNDS[0].world, TWO_ROUNDS[0].event).state;
            && t.core == Just(Incoming(Ringing, Employee("c", 0), "101", [Desk(0, "101"), Desk(1, "102")]), Told([CallStarted, EmployeeRinging]))
            && t.legIndex == map[Employee("c", 0) := "c", Employee("c", 1) := "c"] && t.sessions == map[]
            && t.log == [Originate(Employee("c", 0), "101")] + [Originate(Employee("c", 1), "102")]
  {
    hide RingEach, TargetsThrough;
    var w := Setting(DESKS, true);
    var call := Incoming(Ringing, Employee("c", 0), "101", []);
    var told := NEW_STATE.(core := Note(Create(NEW_STATE.core, "c", call), "c", EmployeeRinging));
    RingsBoth(told, w, DESKS);
    assert told.core.trace == Told([CallStarted, EmployeeRinging]);
  }

  /** The legs of one more desk, rung as a fallback. */
  lemma RingsFallback(s: State, w: World, plan: Plan)
    requires w == Setting(plan, true)
    ensures var r := RingEach(s, w, "c", TargetsApart(w, ["103"], LINE), ByRound, []);
            r.legs == [Desk(10, "103")] && r.state.legIndex == s.legIndex[Employee("c", 10) := "c"]
            && r.state.log == s.log + [Originate(Employee("c", 10), "103")]
  {
    var targets := TargetsApart(w, ["103"], LINE);
    assert ["103"][1..] == [] && TargetsApart(w, ["103"][1..], LINE) == [];
    assert targets == [Target("103", "103", 0)] && targets[1..] == [];
    RingsNext(s, w, targets, ByRound, []);
  }

  /** A call whose fallback desk rings besides the devices that rang before. */
  function FallenBack(call: Call): Call {
    call.(status := RingingFallback, employee := Employee("c", 10), extension := "103", rung := call.rung + [Desk(10, "103")])
  }

  /** Nobody is listed as alive, so the last leg's end is the end of the ringing: the fallback desk is rung. */
  lemma DeskGivesUp(s: State, plan: Plan, call: Call, trace: seq<Entry>, channel: Channel)
    requires s.core == Just(call, trace) && plan.fallbacks == ["103"]
    requires call == Incoming(call.status, call.employee, call.extension, call.rung) && channel in Channels(call.Legs())
    requires call.status == Ringing || call.status == EmployeeAnswered
    requires CallForChannel(s, channel) == Some("c")
    ensures var t := Handle(s, Setting(plan, true), Gone(channel)).state;
            && t.core == Just(FallenBack(call), trace + Told([FallbackRound, EmployeeRinging]))
            && t.sessions == s.sessions - {channel} && Originated(t.log, Employee("c", 10))
            && (Employee("c", 10) !in Channels(call.Legs()) ==> Employee("c", 10) in t.legIndex && t.legIndex[Employee("c", 10)] == "c")
  {
    hide RungOut, CallForChannel, Originated;
    var w := Setting(plan, true);
    var left := s.(sessions := s.sessions - {channel}, legIndex := s.legIndex - {channel});
    assert Handle(s, w, Gone(channel)) == RungOut(left, w, "c", channel, true);
    RungOutFallsBack(left, w, plan, call, trace, channel);
  }

  lemma RungOutFallsBack(s: State, w: World, plan: Plan, call: Call, trace: seq<Entry>, channel: Channel)
    requires w == Setting(plan, true) && s.core == Just(call, trace) && plan.fallbacks == ["103"]
    requires call == Incoming(call.status, call.employee, call.extension, call.rung)
    requires call.status == Ringing || call.status == EmployeeAnswered
    ensures var t := RungOut(s, w, "c", channel, true).state;
            && t.core == Just(FallenBack(call), trace + Told([FallbackRound, EmployeeRinging]))
            && t.sessions == s.sessions && Originated(t.log, Employee("c", 10))
            && (Employee("c", 10) !in Channels(call.Legs()) ==> Employee("c", 10) in t.legIndex && t.legIndex[Employee("c", 10)] == "c")
  {
    hide RingFallbacks, StillRinging, Originated;
    var listed := Ask(s, ListChannels);
    NobodyAlive(s, w, call, channel);
    assert JourneyOf(w, call) == plan;
    FallsBack(listed, w, plan, plan, call, trace);
  }

  lemma FallsBack(s: State, w: World, base: Plan, plan: Plan, call: Call, trace: seq<Entry>)
    requires w == Setting(base, true) && s.core == Just(call, trace) && plan.fallbacks == ["103"]
    requires call.number == LINE && MayFallBack(s, "c")
    ensures var t := RingFallbacks(s, w, "c", plan).state;
            && t.core == Just(FallenBack(call), trace + Told([FallbackRound, EmployeeRinging]))
            && t.sessions == s.sessions && Originated(t.log, Employee("c", 10))
            && (Employee("c", 10) !in Channels(call.Legs()) ==> Employee("c", 10) in t.legIndex && t.legIndex[Employee("c", 10)] == "c")
  {
    hide RingEach, TargetsApart, Forget, NoAnswer;
    RingsFallback(s, w, base);
    assert trace + Told([FallbackRound, EmployeeRinging]) == trace + [Entry("c", FallbackRound)] + [Entry("c", EmployeeRinging)];
    ForgetKeeps(s.legIndex[Employee("c", 10) := "c"], Channels(call.Legs()));
  }

  lemma ForgetKeeps(legIndex: map<Channel, CallId>, channels: seq<Channel>)
    ensures forall c :: c in legIndex && c !in channels ==> c in Forget(legIndex, channels) && Forget(legIndex, channels)[c] == legIndex[c]
  {}

  lemma NobodyAlive(s: State, w: World, call: Call, channel: Channel)
    requires w.reply == Asterisk(true)
    ensures StillRinging(s, w, "c", call, channel, true) == []
  {
    CallLaws.OnlyNone(Channels(call.Legs()), c => c != channel && c in Alive(s, w));
  }

  /** The fallback desk picks up, and Asterisk is gone when the first two desks are to be stopped. */
  lemma FallbackPickedUp(s: State, trace: seq<Entry>, rung: seq<Leg>)
    requires rung == [Desk(0, "101"), Desk(1, "102"), Desk(10, "103")] && s.sessions == map[]
    requires s.core == Just(Incoming(RingingFallback, Employee("c", 10), "103", rung), trace)
    requires Employee("c", 10) in s.legIndex && s.legIndex[Employee("c", 10)] == "c"
    ensures var t := Handle(s, Setting(DESKS, false), WentUp(Employee("c", 10))).state;
            && t.core == Just(Incoming(EmployeeAnswered, Employee("c", 10), "103", rung), trace + Told([EmployeePickedUp, PickUpInterrupted]))
            && t.sessions == map[] && t.legIndex == s.legIndex && s.log <= t.log
  {
    hide Join, Only, AllReached, HungUpAll;
    var w, call, channel := Setting(DESKS, false), Incoming(RingingFallback, Employee("c", 10), "103", rung), Employee("c", 10);
    var channels := Channels(call.Legs());
    assert channels[0] == Employee("c", 0) && channels[2] == channel && channel in channels;
    assert rung[1..] == [Desk(1, "102"), Desk(10, "103")] && rung[1..][1..] == [Desk(10, "103")];
    assert rung[1..][1..][0] == Desk(10, "103");
    assert ExtensionOf(rung[1..][1..], channel, "103") == "103";
    assert ExtensionOf(rung[1..], channel, "103") == "103";
    assert ExtensionOf(rung, channel, "103") == "103";
    OnlyKeeps(channels, c => c != channel);
    var others := Without(channels, channel);
    assert Employee("c", 0) in others;
    FirstHangupFails(s, w, others);
    PickUpIsCutShortIff(s, w, "c", channel);
    CancelEachAsks(s.(core := Save(s.core, "c", call.(status := EmployeeAnswered), EmployeePickedUp)), w, others);
    assert trace + Told([EmployeePickedUp, PickUpInterrupted]) == trace + [Entry("c", EmployeePickedUp)] + [Entry("c", PickUpInterrupted)];
    assert Handle(s, w, WentUp(channel)) == PickUp(s, w, "c", channel);
  }

  lemma FirstHangupFails(s: State, w: World, channels: seq<Channel>)
    requires w.reply == Asterisk(false) && channels != []
    ensures !AllReached(s, w, channels)
  {}

  lemma CountedSoFar(kinds: seq<Kind>, more: seq<Kind>)
    ensures Told(kinds + more) == Told(kinds) + Told(more)
  {}

  lemma BooksTold(kinds: seq<Kind>, kind: Kind)
    ensures BooksOf(Told(kinds + [kind]), "c") == After(BooksOf(Told(kinds), "c"), kind)
  {
    CountedSoFar(kinds, [kind]);
    BooksAppend(Told(kinds), Entry("c", kind), "c");
    assert Told([kind]) == [Entry("c", kind)];
  }

  lemma {:induction false} StillOriginated(log: seq<Request>, longer: seq<Request>, channel: Channel)
    requires log <= longer && Originated(log, channel)
    ensures Originated(longer, channel)
    decreases |longer|
  {
    if log != longer { StillOriginated(log, longer[..|longer| - 1], channel); }
  }

  lemma FirstAsked(log: seq<Request>)
    requires log == [Originate(Employee("c", 0), "101")] + [Originate(Employee("c", 1), "102")]
    ensures Originated(log, Employee("c", 0))
  {
    assert log[..1] == [Originate(Employee("c", 0), "101")];
    assert Originated(log[..1], Employee("c", 0));
  }

  /** A second fallback round does happen: four events about existing channels, one of them met by an unreachable Asterisk. */
  lemma TwoRoundsHappen()
    ensures GenuineRun(NEW_STATE, TWO_ROUNDS)
    ensures BooksOf(Reached(TWO_ROUNDS).core.trace, "c").rounds == 2
    ensures BooksOf(Reached(TWO_ROUNDS).core.trace, "c").interrupted == 1 && BooksOf(Reached(TWO_ROUNDS).core.trace, "c").reopened == 0
  {
    hide Handle, BooksOf;
    var rung := [Desk(0, "101"), Desk(1, "102")];
    var s1 := Handle(NEW_STATE, TWO_ROUNDS[0].world, TWO_ROUNDS[0].event).state;
    FirstArrives();
    var s2 := Handle(s1, TWO_ROUNDS[1].world, TWO_ROUNDS[1].event).state;
    var k1, k2 := [CallStarted, EmployeeRinging], [FallbackRound, EmployeeRinging];
    assert Channels(rung)[0] == Employee("c", 0);
    DeskGivesUp(s1, DESKS, Incoming(Ringing, Employee("c", 0), "101", rung), Told(k1), Employee("c", 0));
    var s3 := Handle(s2, TWO_ROUNDS[2].world, TWO_ROUNDS[2].event).state;
    var rung3 := rung + [Desk(10, "103")];
    assert Employee("c", 10) !in Channels(rung);
    FallbackPickedUp(s2, Told(k1) + Told(k2), rung3);
    var s4 := Handle(s3, TWO_ROUNDS[3].world, TWO_ROUNDS[3].event).state;
    var k3 := [EmployeePickedUp, PickUpInterrupted];
    assert Channels(rung3)[2] == Employee("c", 10);
    DeskGivesUp(s3, DESKS, Incoming(EmployeeAnswered, Employee("c", 10), "103", rung3), Told(k1) + Told(k2) + Told(k3), Employee("c", 10));
    CountedSoFar(k1, k2);
    CountedSoFar(k1 + k2, k3);
    CountedSoFar(k1 + k2 + k3, k2);
    FirstAsked(s1.log);
    StillOriginated(s2.log, s3.log, Employee("c", 10));
    FourSteps(TWO_ROUNDS);
    CountTwoRounds();
    assert s4.core.trace == Told(k1 + k2 + k3 + k2);
  }

  lemma RunStep(s: State, steps: seq<Step>)
    requires steps != []
    ensures Run(s, steps) == Run(Handle(s, steps[0].world, steps[0].event).state, steps[1..])
  {
    hide Handle;
  }

  lemma RunNone(s: State)
    ensures Run(s, []) == s
  {}

  lemma FourSteps(steps: seq<Step>)
    requires |steps| == 4
    ensures var s1 := Handle(NEW_STATE, steps[0].world, steps[0].event).state;
            var s2 := Handle(s1, steps[1].world, steps[1].event).state;
            var s3 := Handle(s2, steps[2].world, steps[2].event).state;
            && Reached(steps) == Handle(s3, steps[3].world, steps[3].event).state
            && (Genuine([], steps[0].event) && Genuine(s1.log, steps[1].event) && Genuine(s2.log, steps[2].event) && Genuine(s3.log, steps[3].event)
                ==> GenuineRun(NEW_STATE, steps))
  {
    hide Handle, Genuine;
    var s1 := Handle(NEW_STATE, steps[0].world, steps[0].event).state;
    var s2 := Handle(s1, steps[1].world, steps[1].event).state;
    var s3 := Handle(s2, steps[2].world, steps[2].event).state;
    RunStep(NEW_STATE, steps);
    RunStep(s1, steps[1..]);
    RunStep(s2, steps[2..]);
    RunStep(s3, steps[3..]);
    assert steps[1..][1..] == steps[2..] && steps[2..][1..] == steps[3..] && steps[3..][1..] == [];
    RunNone(Handle(s3, steps[3].world, steps[3].event).state);
    assert Genuine(s3.log, steps[3].event) ==> GenuineRun(s3, steps[3..]);
    assert Genuine(s2.log, steps[2].event) && GenuineRun(s3, steps[3..]) ==> GenuineRun(s2, steps[2..]);
    assert Genuine(s1.log, steps[1].event) && GenuineRun(s2, steps[2..]) ==> GenuineRun(s1, steps[1..]);
  }

  lemma CountTwoRounds()
    ensures var b := BooksOf(Told([CallStarted, EmployeeRinging] + [FallbackRound, EmployeeRinging]
                                  + [EmployeePickedUp, PickUpInterrupted] + [FallbackRound, EmployeeRinging]), "c");
            b.rounds == 2 && b.interrupted == 1 && b.reopened == 0
  {
    hide BooksOf;
    var k0 := [CallStarted];
    var k1 := k0 + [EmployeeRinging];
    var k2 := k1 + [FallbackRound];
    var k3 := k2 + [EmployeeRinging];
    var k4 := k3 + [EmployeePickedUp];
    var k5 := k4 + [PickUpInterrupted];
    var k6 := k5 + [FallbackRound];
    assert [] + [CallStarted] == k0;
    BooksTold([], CallStarted);
    NothingTold();
    BooksTold(k0, EmployeeRinging);
    BooksTold(k1, FallbackRound);
    BooksTold(k2, EmployeeRinging);
    BooksTold(k3, EmployeePickedUp);
    BooksTold(k4, PickUpInterrupted);
    BooksTold(k5, FallbackRound);
    BooksTold(k6, EmployeeRinging);
    assert k6 + [EmployeeRinging] == [CallStarted, EmployeeRinging] + [FallbackRound, EmployeeRinging]
                                     + [EmployeePickedUp, PickUpInterrupted] + [FallbackRound, EmployeeRinging];
  }

  lemma NothingTold()
    ensures BooksOf(Told([]), "c") == BLANK
  {}

  // ---------------------------------------------------------------- a no-answer path after an answer

  /** A caller reaches a menu, the caller's own channel is told to be up, and then a desk without a device is chosen. */
  const ANSWERED_MENU: seq<Step> := [
    Step(Setting(MENU, true), Arrived(CALLER, true, LINE, "101", "x", "c")),
    Step(Setting(MENU, true), WentUp(CALLER)),
    Step(Setting(MENU, true), Dtmf(CALLER, "1"))]

  function Asking(plan: Plan): MenuSession {
    MenuSession("c", "101", LINE, plan, IvrMenu.Menu(plan.keyMap, [], 2, 6000), IvrMenu.Session("", 0, 6000, None))
  }

  /** A menu of one key. */
  predicate OneKey(plan: Plan, key: string) {
    plan.menu && plan.keyMap == map["1" := key] && plan.extensions == [] && plan.attempts == 0 && plan.timeout == 0
  }

  lemma MenuArrives(plan: Plan)
    requires plan.menu && plan.extensions == [] && plan.attempts == 0 && plan.timeout == 0
    ensures var t := Handle(NEW_STATE, Setting(plan, true), Arrived(CALLER, true, LINE, "101", "x", "c")).state;
            && t.core == Just(Incoming(Ringing, Employee("c", 0), "101", []), Told([CallStarted, MenuOpened]))
            && t.legIndex == map[] && t.sessions == map[CALLER := Asking(plan)]
  {
    hide PlayTo;
    assert Told([CallStarted]) + [Entry("c", MenuOpened)] == Told([CallStarted, MenuOpened]);
  }

  /** The caller presses the key. */
  lemma Chooses(s: State, plan: Plan, key: string)
    requires OneKey(plan, key) && CALLER in s.sessions && s.sessions[CALLER] == Asking(plan)
    ensures Handle(s, Setting(plan, true), Dtmf(CALLER, "1")) ==
            DialChosen(Leave(s, CALLER, Asking(plan)), Setting(plan, true), Asking(plan), key)
  {
    hide DialChosen, Leave;
    var w := Setting(plan, true);
    assert "" + "1" == "1" && |map["1" := key]| == 1;
    assert IvrMenu.Judge(Asking(plan).menu, "1", false) == IvrMenu.Dial(key);
    assert Filled(w, Asking(plan)) == Asking(plan);
  }

  /** Asterisk bridges the two sides, and the call is answered. */
  function Joined(call: Call): Call { call.(status := Answered, answered := true, answeredAt := Some(0), bridged := true) }

  lemma BuildsEverything(s: State, w: World, id: CallId, a: Request, b: Request, c: Request)
    requires w.reply == Asterisk(true)
    ensures BuildBridge(s, w, id, [a, b, c]).ok
  {
    assert [a, b, c][1..] == [b, c] && [b, c][1..] == [c] && [c][1..] == [];
    assert BuildBridge(Ask(Ask(s, a), b), w, id, [c]).ok;
    assert BuildBridge(Ask(s, a), w, id, [b, c]).ok;
  }

  lemma CallerIsUp(s: State, plan: Plan, call: Call, trace: seq<Entry>)
    requires s.core == Just(call, trace) && call == Incoming(call.status, call.employee, call.extension, call.rung) && !call.Over()
    requires CallForChannel(s, CALLER) == Some("c") && CALLER !in Channels(call.Legs())
    ensures var t := Handle(s, Setting(plan, true), WentUp(CALLER)).state;
            t.core == Just(Joined(call), trace + Told([CallBridged, CallAnswered])) && t.sessions == s.sessions
  {
    hide Join, FarSide, CallForChannel;
    var w := Setting(plan, true);
    assert Handle(s, w, WentUp(CALLER)) == FarSideUp(s, w, "c", CALLER);
    NobodyOnTheFarSide(s, w, call);
    var asked := Ask(s, ListChannels);
    assert Put(asked.core, "c", call) == s.core;
    JoinsCaller(asked, w, call, trace);
  }

  lemma NobodyOnTheFarSide(s: State, w: World, call: Call)
    requires w.reply == Asterisk(true)
    ensures FarSide(s, w, "c", call, Some(CALLER)) == []
  {
    assert Alive(s, w) == [];
  }

  lemma JoinsCaller(s: State, w: World, call: Call, trace: seq<Entry>)
    requires w.reply == Asterisk(true) && w.now == 0 && w.recorder(call.extension) == Off
    requires s.core == Just(call, trace) && call == Incoming(call.status, call.employee, call.extension, call.rung)
    ensures var r := Join(s, w, "c");
            r.state.core == Just(Joined(call), trace + Told([CallBridged, CallAnswered])) && r.state.sessions == s.sessions
  {
    hide BuildBridge, HangupCallChannels;
    BuildsEverything(s, w, "c", CreateBridge("c"), AddToBridge("c", call.employee), AddToBridge("c", CALLER));
    assert trace + [Entry("c", CallBridged)] + [Entry("c", CallAnswered)] == trace + Told([CallBridged, CallAnswered]);
  }

  /** The chosen desk has nothing to ring, and the no-answer path runs on the answered call. */
  lemma DialsNothing(s: State, plan: Plan, call: Call, trace: seq<Entry>)
    requires OneKey(plan, "104") && s.core == Just(call, trace) && call.answered && call.endedAt.None?
    ensures var w := Setting(plan, true);
            var chosen := Just(call.(extension := "104"), trace + [Entry("c", Reopened)]);
            DialChosen(s, w, Asking(plan), "104") == NoAnswer(s.(core := chosen), w, "c", plan.(destinations := ["104"]))
  {
    hide NoAnswer, TargetsOf;
    var w := Setting(plan, true);
    assert w.endpoints("104", LINE) == [];
    assert TargetsOf("104", [], 0) == [] by { NoTargets(); }
    var chosen := s.(core := Put(s.core, "c", call.(extension := "104")));
    assert chosen.core == Just(call.(extension := "104"), trace);
    assert Reopen(chosen, "c").core == Just(call.(extension := "104"), trace + [Entry("c", Reopened)]);
  }

  lemma NoTargets()
    ensures TargetsOf("104", [], 0) == []
  {}

  /** With nothing to follow, the caller is missed. */
  lemma MissedTells(s: State, w: World, plan: Plan)
    requires plan.fallbacks == [] && plan.mailbox == "" && plan.forward == ""
    ensures s.core.trace <= NoAnswer(s, w, "c", plan).state.core.trace
  {
    hide HangupCallChannels, CancelEach, TearDown;
  }

  /**
   * The no-answer path does run on an answered call, in a run whose events only name a channel that arrived:
   * Asterisk only has to admit to the bridge the employee's channel that nobody ever asked for.
   */
  lemma ReopenedHappens()
    ensures GenuineRun(NEW_STATE, ANSWERED_MENU) && BooksOf(Reached(ANSWERED_MENU).core.trace, "c").reopened >= 1
  {
    hide Handle, BooksOf, Told;
    var call := Incoming(Ringing, Employee("c", 0), "101", []);
    var s1 := Handle(NEW_STATE, ANSWERED_MENU[0].world, ANSWERED_MENU[0].event).state;
    MenuArrives(MENU);
    var s2 := Handle(s1, ANSWERED_MENU[1].world, ANSWERED_MENU[1].event).state;
    CallersOwn(s1, call);
    CallerIsUp(s1, MENU, call, Told([CallStarted, MenuOpened]));
    var s3 := Handle(s2, ANSWERED_MENU[2].world, ANSWERED_MENU[2].event).state;
    var told := Told([CallStarted, MenuOpened]) + Told([CallBridged, CallAnswered]);
    ChoosesNothing(s2, Joined(call), told);
    ThreeSteps(ANSWERED_MENU);
    BooksAppend(told, Entry("c", Reopened), "c");
    BooksGrow(told + [Entry("c", Reopened)], s3.core.trace, "c");
  }

  /** A channel in no index is found by the record that names it. */
  lemma CallersOwn(s: State, call: Call)
    requires s.core.calls == map["c" := call] && s.core.order == ["c"] && CALLER !in s.legIndex
    requires call.customer == Some(CALLER)
    ensures CallForChannel(s, CALLER) == Some("c")
  {}

  /** A desk without a device is chosen on an answered call, and nothing follows. */
  lemma ChoosesNothing(s: State, call: Call, trace: seq<Entry>)
    requires s.core == Just(call, trace) && call.answered && call.endedAt.None?
    requires CALLER in s.sessions && s.sessions[CALLER] == Asking(MENU)
    ensures trace + [Entry("c", Reopened)] <= Handle(s, Setting(MENU, true), Dtmf(CALLER, "1")).state.core.trace
  {
    hide NoAnswer, DialChosen, Handle;
    Chooses(s, MENU, "104");
    var left := Leave(s, CALLER, Asking(MENU));
    DialsNothing(left, MENU, call, trace);
    MissedTells(left.(core := Just(call.(extension := "104"), trace + [Entry("c", Reopened)])), Setting(MENU, true), MENU.(destinations := ["104"]));
  }

  lemma ThreeSteps(steps: seq<Step>)
    requires |steps| == 3
    ensures var s1 := Handle(NEW_STATE, steps[0].world, steps[0].event).state;
            var s2 := Handle(s1, steps[1].world, steps[1].event).state;
            && Reached(steps[..2]) == s2
            && Reached(steps) == Handle(s2, steps[2].world, steps[2].event).state
            && (GenuineRun(NEW_STATE, steps) <==>
                Genuine([], steps[0].event) && Genuine(s1.log, steps[1].event) && Genuine(s2.log, steps[2].event))
  {
    hide Handle, Genuine;
    var s1 := Handle(NEW_STATE, steps[0].world, steps[0].event).state;
    var s2 := Handle(s1, steps[1].world, steps[1].event).state;
    var two := steps[..2];
    RunStep(NEW_STATE, steps);
    RunStep(s1, steps[1..]);
    RunStep(s2, steps[2..]);
    assert steps[1..][1..] == steps[2..] && steps[2..][1..] == [];
    RunNone(Handle(s2, steps[2].world, steps[2].event).state);
    RunStep(NEW_STATE, two);
    RunStep(s1, two[1..]);
    assert two[1..][1..] == [] && two[1..][0] == steps[1];
    RunNone(s2);
    assert GenuineRun(s2, steps[2..]) <==> Genuine(s2.log, steps[2].event);
    assert GenuineRun(s1, steps[1..]) <==> Genuine(s1.log, steps[1].event) && GenuineRun(s2, steps[2..]);
  }

  // ---------------------------------------------------------------- a caller left waiting

  /** One desk, and nothing to follow it. */
  const NOWHERE: Plan := Plan(false, ["101"], "", "", [], "", [], map[], [], 0, 0)

  const STUCK: seq<Step> := [
    Step(Setting(NOWHERE, true), Arrived(CALLER, true, LINE, "101", "x", "c")),
    Step(Setting(NOWHERE, false), Gone(Employee("c", 0)))]

  lemma OneArrives()
    ensures var t := Handle(NEW_STATE, STUCK[0].world, STUCK[0].event).state;
            && t.core == Just(Incoming(Ringing, Employee("c", 0), "101", [Desk(0, "101")]), Told([CallStarted, EmployeeRinging]))
            && t.legIndex == map[Employee("c", 0) := "c"] && t.sessions == map[]
  {
    hide RingEach, TargetsThrough;
    var w := Setting(NOWHERE, true);
    var told := NEW_STATE.(core := Note(Create(NEW_STATE.core, "c", Incoming(Ringing, Employee("c", 0), "101", [])), "c", EmployeeRinging));
    RingsOne(told, w);
    assert told.core.trace == Told([CallStarted, EmployeeRinging]);
  }

  lemma RingsOne(s: State, w: World)
    requires w == Setting(NOWHERE, true)
    ensures var r := RingEach(s, w, "c", TargetsThrough(w, ["101"], LINE, 0), ByPlace, []);
            r.legs == [Desk(0, "101")] && r.state.legIndex == s.legIndex[Employee("c", 0) := "c"]
  {
    var targets := TargetsThrough(w, ["101"], LINE, 0);
    assert ["101"][1..] == [] && TargetsThrough(w, ["101"][1..], LINE, 1) == [];
    assert targets == [Target("101", "101", 0)] && targets[1..] == [];
    RingsNext(s, w, targets, ByPlace, []);
  }

  /**
   * The desk rings out while Asterisk is gone: the console is told of a missed call, but the call is still
   * ringing, its record unchanged, and its one leg, whose only end this was, is forgotten.
   */
  lemma StuckHappens()
    ensures var s := Reached(STUCK);
            && "c" in s.core.calls && s.core.calls["c"] == Incoming(Ringing, Employee("c", 0), "101", [Desk(0, "101")])
            && Employee("c", 0) !in s.legIndex
  {
    hide Handle;
    var s1 := Handle(NEW_STATE, STUCK[0].world, STUCK[0].event).state;
    OneArrives();
    DeskLeavesCaller(s1);
    RunStep(NEW_STATE, STUCK);
    RunStep(s1, STUCK[1..]);
    assert STUCK[1..][1..] == [];
    RunNone(Handle(s1, STUCK[1].world, STUCK[1].event).state);
  }

  lemma DeskLeavesCaller(s: State)
    requires s.core == Just(Incoming(Ringing, Employee("c", 0), "101", [Desk(0, "101")]), Told([CallStarted, EmployeeRinging]))
    requires s.legIndex == map[Employee("c", 0) := "c"] && s.sessions == map[]
    ensures var t := Handle(s, Setting(NOWHERE, false), Gone(Employee("c", 0))).state;
            t.core.calls == s.core.calls && Employee("c", 0) !in t.legIndex
  {
    hide NoAnswer, StillRinging;
    var w, call, channel := Setting(NOWHERE, false), s.core.calls["c"], Employee("c", 0);
    assert Channels(call.Legs())[0] == channel;
    var left := s.(sessions := s.sessions - {channel}, legIndex := s.legIndex - {channel});
    assert StillRinging(left, w, "c", call, channel, true) == [] by { NoLegLeft(left, w, call, channel); }
    var listed := Ask(left, ListChannels);
    MissesTheCaller(listed, w, call);
  }

  lemma NoLegLeft(s: State, w: World, call: Call, channel: Channel)
    requires w == Setting(NOWHERE, false)
    ensures StillRinging(s, w, "c", call, channel, true) == []
  {
    CallLaws.OnlyNone(Channels(call.Legs()), c => c != channel && c in Alive(s, w));
  }

  lemma MissesTheCaller(s: State, w: World, call: Call)
    requires w == Setting(NOWHERE, false) && s.core.calls == map["c" := call]
    requires call == Incoming(Ringing, Employee("c", 0), "101", [Desk(0, "101")])
    ensures var t := NoAnswer(s, w, "c", JourneyOf(w, call)).state; t.core.calls == s.core.calls && t.legIndex == s.legIndex
  {
    hide Finalize;
    assert JourneyOf(w, call) == NOWHERE;
    assert CustomerOf(call) == [CALLER] && [CALLER][1..] == [];
  }
}
