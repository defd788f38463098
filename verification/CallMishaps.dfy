/** More runs of the call engine: a forward that is lost, and what events about channels that do not exist can do. */
module CallMishaps {
  import opened Wrappers
  import opened CallRecords
  import opened CallSteps
  import opened CallInvariants
  import opened CallRuns
  import opened CallFrames
  import opened CallGenuine
  import opened CallScenarios
  import opened CallRequests
  import CallLaws
  import CallEndings
  import IvrMenu

  const FAR: string := "+15550009999"

  /** Asterisk is asked for the forward leg. */
  const OUT: Request := Originate(Customer("c", 1), FAR)

  // ---------------------------------------------------------------- the forward leg

  /** A plan with nothing but a forward to follow. */
  predicate Forwards(plan: Plan) { plan.forward == FAR && plan.fallbacks == [] && plan.mailbox == "" }

  function Forwarded(call: Call): Call {
    call.(status := Forwarding, employee := Customer("c", 1), rung := [Leg(Customer("c", 1), call.extension)])
  }

  /** The last device gives up with nobody listed as alive: the caller is forwarded. */
  lemma GivesUpForwards(s: State, plan: Plan, call: Call, trace: seq<Entry>, channel: Channel)
    requires Forwards(plan) && s.core == Just(call, trace)
    requires call == Incoming(call.status, call.employee, call.extension, call.rung) && channel in Channels(call.Legs())
    requires call.status == Ringing || call.status == EmployeeAnswered
    requires CallForChannel(s, channel) == Some("c")
    ensures var t := Handle(s, Setting(plan, true), Gone(channel)).state;
            && t.core == Just(Forwarded(call), trace + [Entry("c", CallForwarding)])
            && t.sessions == s.sessions - {channel}
            && t.legIndex == (s.legIndex - {channel})[Customer("c", 1) := "c"]
            && t.log == s.log + [ListChannels] + [OUT]
  {
    hide RungOut, CallForChannel;
    var w := Setting(plan, true);
    var left := s.(sessions := s.sessions - {channel}, legIndex := s.legIndex - {channel});
    assert Handle(s, w, Gone(channel)) == RungOut(left, w, "c", channel, true);
    RungOutForwards(left, plan, call, trace, channel);
  }

  lemma RungOutForwards(s: State, plan: Plan, call: Call, trace: seq<Entry>, channel: Channel)
    requires Forwards(plan) && s.core == Just(call, trace)
    requires call == Incoming(call.status, call.employee, call.extension, call.rung)
    requires call.status == Ringing || call.status == EmployeeAnswered
    ensures RungOut(s, Setting(plan, true), "c", channel, true).state ==
            State(Just(Forwarded(call), trace + [Entry("c", CallForwarding)]), s.legIndex[Customer("c", 1) := "c"], s.sessions,
                  s.log + [ListChannels] + [OUT])
  {
    hide StillRinging;
    var w := Setting(plan, true);
    NobodyAlive(s, w, call, channel);
    assert JourneyOf(w, call) == plan;
  }

  // ---------------------------------------------------------------- a forward that is lost

  /** Two desks ring together, and a forward follows. */
  const LOST: Plan := Plan(false, ["101", "102"], "", FAR, [], "", [], map[], [], 0, 0)

  /** Both desks are switched off at once, and the ends of both legs arrive one after the other. */
  const LOST_FORWARD: seq<Step> := [
    Step(Setting(LOST, true), Arrived(CALLER, true, LINE, "101", "x", "c")),
    Step(Setting(LOST, true), Gone(Employee("c", 0))),
    Step(Setting(LOST, true), Gone(Employee("c", 1)))]

  const BOTH: seq<Request> := [Originate(Employee("c", 0), "101"), Originate(Employee("c", 1), "102")]

  lemma BothRing()
    ensures var t := Handle(NEW_STATE, LOST_FORWARD[0].world, LOST_FORWARD[0].event).state;
            && t.core == Just(Incoming(Ringing, Employee("c", 0), "101", [Desk(0, "101"), Desk(1, "102")]), Told([CallStarted, EmployeeRinging]))
            && t.legIndex == map[Employee("c", 0) := "c", Employee("c", 1) := "c"] && t.sessions == map[] && t.log == BOTH
  {
    hide RingEach, TargetsThrough;
    var w := Setting(LOST, true);
    var call := Incoming(Ringing, Employee("c", 0), "101", []);
    var told := NEW_STATE.(core := Note(Create(NEW_STATE.core, "c", call), "c", EmployeeRinging));
    RingsBoth(told, w, LOST);
    assert told.core.trace == Told([CallStarted, EmployeeRinging]);
  }

  /** The second leg is no longer in the record, and its end hangs up the forward leg. */
  lemma SecondEndLosesIt(s: State)
    requires CoreOk(s.core, None) && "c" in s.core.calls
    requires s.core.calls["c"] == Forwarded(Incoming(Ringing, Employee("c", 0), "101", [Desk(0, "101"), Desk(1, "102")]))
    requires Employee("c", 1) in s.legIndex && s.legIndex[Employee("c", 1)] == "c"
    ensures var t := Handle(s, Setting(LOST, true), Gone(Employee("c", 1))).state;
            && "c" in t.core.calls && t.core.calls["c"].status == Failed
            && |s.log| < |t.log| && t.log[|s.log|] == Hangup(Customer("c", 1))
  {
    hide CoreOk, HandleGone;
    var w, channel := Setting(LOST, true), Employee("c", 1);
    CallEndings.StaleEndsIff(s, w, "c", channel);
  }

  /**
   * The forward is lost: the end of the first leg forwards the caller, and the end of the second, no longer a
   * leg of the record but still in the leg index, hangs up the forward leg and fails the call.
   */
  lemma ForwardIsLost()
    ensures GenuineRun(NEW_STATE, LOST_FORWARD)
    ensures "c" in Reached(LOST_FORWARD[..2]).core.calls && Reached(LOST_FORWARD[..2]).core.calls["c"].status == Forwarding
    ensures "c" in Reached(LOST_FORWARD).core.calls && Reached(LOST_FORWARD).core.calls["c"].status == Failed
    ensures Hangup(Customer("c", 1)) in Reached(LOST_FORWARD).log
  {
    hide Handle, CoreOk;
    var s1 := Handle(NEW_STATE, LOST_FORWARD[0].world, LOST_FORWARD[0].event).state;
    BothRing();
    var s2 := Handle(s1, LOST_FORWARD[1].world, LOST_FORWARD[1].event).state;
    var rung := [Desk(0, "101"), Desk(1, "102")];
    assert Channels(rung)[0] == Employee("c", 0);
    GivesUpForwards(s1, LOST, Incoming(Ringing, Employee("c", 0), "101", rung), Told([CallStarted, EmployeeRinging]), Employee("c", 0));
    ThreeSteps(LOST_FORWARD);
    ReachedIsOk(LOST_FORWARD[..2]);
    SecondEndLosesIt(s2);
    BothAsked(s2.log);
  }

  lemma BothAsked(log: seq<Request>)
    requires log == BOTH + [ListChannels] + [OUT]
    ensures Originated(BOTH, Employee("c", 0)) && Originated(log, Employee("c", 1))
  {
    assert BOTH[..1] == [Originate(Employee("c", 0), "101")] && BOTH[..1][..0] == [];
    assert Originated(BOTH[..1], Employee("c", 0));
    assert log[..3] == BOTH + [ListChannels] && log[..3][..2] == BOTH;
    assert Originated(log[..3], Employee("c", 1));
  }

  // ---------------------------------------------------------------- events about channels nobody asked for

  /** A menu on whose key 1 a desk with two devices answers; a forward follows. */
  const TWO_DEVICES: Plan := Plan(true, [], "", FAR, [], "", [], map["1" := "105"], [], 0, 0)

  /** The end of a leg nobody asked for forwards the caller of a menu, who then rings a desk after all. */
  const TWO_FORWARDS: seq<Step> := [
    Step(Setting(TWO_DEVICES, true), Arrived(CALLER, true, LINE, "101", "x", "c")),
    Step(Setting(TWO_DEVICES, true), Gone(Employee("c", 0))),
    Step(Setting(TWO_DEVICES, true), Dtmf(CALLER, "1")),
    Step(Setting(TWO_DEVICES, false), WentUp(Employee("c", 0))),
    Step(Setting(TWO_DEVICES, true), Gone(Employee("c", 0)))]

  const PAIR: seq<Leg> := [Desk(0, "105"), Desk(1, "105")]

  lemma RingsPair(s: State, w: World)
    requires w == Setting(TWO_DEVICES, true)
    ensures var r := RingEach(s, w, "c", TargetsOf("105", ["105a", "105b"], 0), ByPlace, []);
            r.legs == PAIR && r.state.legIndex == s.legIndex[Employee("c", 0) := "c"][Employee("c", 1) := "c"]
  {
    var targets := TargetsOf("105", ["105a", "105b"], 0);
    assert targets == [Target("105", "105a", 0), Target("105", "105b", 1)];
    RingsNext(s, w, targets, ByPlace, []);
    var a := Ask(s, Originate(Employee("c", 0), "105a")).(legIndex := s.legIndex[Employee("c", 0) := "c"]);
    assert targets[1..] == [Target("105", "105b", 1)] && targets[1..][1..] == [];
    RingsNext(a, w, targets[1..], ByPlace, [Desk(0, "105")]);
  }

  function Paired(call: Call): Call { call.(extension := "105", employee := Employee("c", 0), rung := PAIR) }

  /** When a chosen key's devices ring, they are written down. */
  lemma DialsLegs(s: State, w: World, session: MenuSession, key: string, call: Call, trace: seq<Entry>)
    requires s.core == Just(call, trace) && session.call == "c"
    requires w.desk(session.plan.(destinations := [key]), [key], session.number, OfExtension(key)).destinations != []
    ensures var targets := TargetsOf(key, w.endpoints(key, session.number), 0);
            var round := RingEach(s.(core := Just(call.(extension := key), trace)), w, "c", targets, ByPlace, []);
            round.legs != [] ==>
              var t := DialChosen(s, w, session, key).state;
              && t.core == Just(call.(extension := key, employee := round.legs[0].channel, rung := round.legs), trace + [Entry("c", MenuSelected)])
              && t.legIndex == round.state.legIndex
  {
    hide RingEach, NoAnswer, TargetsOf, Just, Put, Note;
    JustPut(call, trace, call.(extension := key));
    var round := RingEach(s.(core := Just(call.(extension := key), trace)), w, "c", TargetsOf(key, w.endpoints(key, session.number), 0), ByPlace, []);
    if round.legs != [] {
      JustPut(call.(extension := key), trace, call.(extension := key, employee := round.legs[0].channel, rung := round.legs));
    }
    JustHas(call, trace);
  }

  lemma JustPut(call: Call, trace: seq<Entry>, d: Call)
    ensures Put(Just(call, trace), "c", d) == Just(d, trace)
    ensures Note(Just(d, trace), "c", MenuSelected) == Just(d, trace + [Entry("c", MenuSelected)])
  {
    assert map["c" := call]["c" := d] == map["c" := d];
  }

  lemma JustHas(call: Call, trace: seq<Entry>)
    ensures "c" in Just(call, trace).calls && Just(call, trace).calls["c"] == call
  {}

  lemma DialsPair(s: State, call: Call, trace: seq<Entry>)
    requires s.core == Just(call, trace)
    ensures var t := DialChosen(s, Setting(TWO_DEVICES, true), Asking(TWO_DEVICES), "105").state;
            && t.core == Just(Paired(call), trace + [Entry("c", MenuSelected)])
            && Employee("c", 0) in t.legIndex && t.legIndex[Employee("c", 0)] == "c"
  {
    hide RingEach, DialChosen, TargetsOf;
    var w := Setting(TWO_DEVICES, true);
    assert w.endpoints("105", LINE) == ["105a", "105b"];
    DialsLegs(s, w, Asking(TWO_DEVICES), "105", call, trace);
    RingsPair(s.(core := Just(call.(extension := "105"), trace)), w);
  }

  /** The forwarded caller chooses the desk, whose two devices ring. */
  lemma ChoosesPair(s: State, call: Call, trace: seq<Entry>)
    requires s.core == Just(call, trace) && CALLER in s.sessions && s.sessions[CALLER] == Asking(TWO_DEVICES)
    ensures var t := Handle(s, Setting(TWO_DEVICES, true), Dtmf(CALLER, "1")).state;
            && t.core == Just(Paired(call), trace + [Entry("c", MenuSelected)])
            && Employee("c", 0) in t.legIndex && t.legIndex[Employee("c", 0)] == "c"
  {
    hide Handle, DialChosen, Paired;
    Chooses(s, TWO_DEVICES, "105");
    DialsPair(Leave(s, CALLER, Asking(TWO_DEVICES)), call, trace);
  }

  /** The first device picks up, and Asterisk is gone when the other is to be stopped. */
  lemma PairCutShort(s: State, call: Call, trace: seq<Entry>)
    requires s.core == Just(call, trace) && call == Incoming(Forwarding, Employee("c", 0), "105", PAIR)
    requires Employee("c", 0) in s.legIndex && s.legIndex[Employee("c", 0)] == "c"
    ensures var t := Handle(s, Setting(TWO_DEVICES, false), WentUp(Employee("c", 0))).state;
            && t.core == Just(Incoming(EmployeeAnswered, Employee("c", 0), "105", PAIR), trace + [Entry("c", EmployeePickedUp)] + [Entry("c", PickUpInterrupted)])
            && t.legIndex == s.legIndex
  {
    hide Join, Only, AllReached;
    var w, channel := Setting(TWO_DEVICES, false), Employee("c", 0);
    var channels := Channels(call.Legs());
    assert channels[0] == channel && channels[1] == Employee("c", 1);
    OnlyKeeps(channels, c => c != channel);
    FirstHangupFails(s, w, Without(channels, channel)) by { assert Employee("c", 1) in Without(channels, channel); }
    PickUpIsCutShortIff(s, w, "c", channel);
    assert Handle(s, w, WentUp(channel)) == PickUp(s, w, "c", channel);
  }

  lemma TwoForwardsTrace()
    ensures Reached(TWO_FORWARDS).core.trace ==
            Told([CallStarted, MenuOpened]) + [Entry("c", CallForwarding)] + [Entry("c", MenuSelected)]
            + [Entry("c", EmployeePickedUp)] + [Entry("c", PickUpInterrupted)] + [Entry("c", CallForwarding)]
  {
    hide Handle, Told, GenuineRun;
    var asked := Incoming(Ringing, Employee("c", 0), "101", []);
    var s1 := Handle(NEW_STATE, TWO_FORWARDS[0].world, TWO_FORWARDS[0].event).state;
    MenuArrives(TWO_DEVICES);
    UnaskedLeg(s1, asked);
    var t1 := Told([CallStarted, MenuOpened]);
    var s2 := Handle(s1, TWO_FORWARDS[1].world, TWO_FORWARDS[1].event).state;
    GivesUpForwards(s1, TWO_DEVICES, asked, t1, Employee("c", 0));
    var t2 := t1 + [Entry("c", CallForwarding)];
    var s3 := Handle(s2, TWO_FORWARDS[2].world, TWO_FORWARDS[2].event).state;
    ChoosesPair(s2, Forwarded(asked), t2);
    var t3 := t2 + [Entry("c", MenuSelected)];
    var s4 := Handle(s3, TWO_FORWARDS[3].world, TWO_FORWARDS[3].event).state;
    PairCutShort(s3, Incoming(Forwarding, Employee("c", 0), "105", PAIR), t3);
    var t4 := t3 + [Entry("c", EmployeePickedUp)] + [Entry("c", PickUpInterrupted)];
    assert Channels(PAIR)[0] == Employee("c", 0);
    GivesUpForwards(s4, TWO_DEVICES, Incoming(EmployeeAnswered, Employee("c", 0), "105", PAIR), t4, Employee("c", 0));
    FiveSteps(TWO_FORWARDS);
  }

  /**
   * Two forwards of one call: the first follows the end of a leg nobody asked for while the caller is in the
   * menu, the second a pick-up of the menu's choice that was cut short. So the run cannot be a genuine one.
   */
  lemma TwoForwardsHappen()
    ensures var b := BooksOf(Reached(TWO_FORWARDS).core.trace, "c"); b.forwards == 2 && b.interrupted == 1 && b.reopened == 0
    ensures !GenuineRun(NEW_STATE, TWO_FORWARDS)
  {
    hide Reached, BooksOf, Told, GenuineRun;
    TwoForwardsTrace();
    var t1 := Told([CallStarted, MenuOpened]);
    var t3 := t1 + [Entry("c", CallForwarding)] + [Entry("c", MenuSelected)];
    CountsForwards(t1, t1 + [Entry("c", CallForwarding)], t3, t3 + [Entry("c", EmployeePickedUp)] + [Entry("c", PickUpInterrupted)]);
    CountedIsACall(TWO_FORWARDS, CallForwarding);
    if GenuineRun(NEW_STATE, TWO_FORWARDS) { GenuineLadder(TWO_FORWARDS, "c"); }
  }

  /** The record names an employee's leg before any is asked for. */
  lemma UnaskedLeg(s: State, call: Call)
    requires s.core.calls == map["c" := call] && s.core.order == ["c"] && s.legIndex == map[]
    requires call == Incoming(Ringing, Employee("c", 0), "101", [])
    ensures CallForChannel(s, Employee("c", 0)) == Some("c") && Employee("c", 0) in Channels(call.Legs())
  {
    assert Channels(call.Legs())[0] == Employee("c", 0);
  }

  lemma CountsForwards(t1: seq<Entry>, t2: seq<Entry>, t3: seq<Entry>, t4: seq<Entry>)
    requires t1 == Told([CallStarted, MenuOpened]) && t2 == t1 + [Entry("c", CallForwarding)] && t3 == t2 + [Entry("c", MenuSelected)]
    requires t4 == t3 + [Entry("c", EmployeePickedUp)] + [Entry("c", PickUpInterrupted)]
    ensures var b := BooksOf(t4 + [Entry("c", CallForwarding)], "c"); b.forwards == 2 && b.interrupted == 1 && b.reopened == 0
  {
    hide BooksOf;
    StartedBooks();
    BooksAppend(t1, Entry("c", CallForwarding), "c");
    BooksAppend(t2, Entry("c", MenuSelected), "c");
    BooksAppend(t3, Entry("c", EmployeePickedUp), "c");
    BooksAppend(t3 + [Entry("c", EmployeePickedUp)], Entry("c", PickUpInterrupted), "c");
    BooksAppend(t4, Entry("c", CallForwarding), "c");
  }

  lemma StartedBooks()
    ensures BooksOf(Told([CallStarted, MenuOpened]), "c") == BLANK.(menus := 1)
  {
    hide BooksOf;
    NothingTold();
    assert [] + [CallStarted] == [CallStarted] && [CallStarted] + [MenuOpened] == [CallStarted, MenuOpened];
    BooksTold([], CallStarted);
    BooksTold([CallStarted], MenuOpened);
  }

  lemma FiveSteps(steps: seq<Step>)
    requires |steps| == 5
    ensures var s1 := Handle(NEW_STATE, steps[0].world, steps[0].event).state;
            var s2 := Handle(s1, steps[1].world, steps[1].event).state;
            var s3 := Handle(s2, steps[2].world, steps[2].event).state;
            var s4 := Handle(s3, steps[3].world, steps[3].event).state;
            Reached(steps) == Handle(s4, steps[4].world, steps[4].event).state
  {
    hide Handle;
    var s1 := Handle(NEW_STATE, steps[0].world, steps[0].event).state;
    var s2 := Handle(s1, steps[1].world, steps[1].event).state;
    var s3 := Handle(s2, steps[2].world, steps[2].event).state;
    var s4 := Handle(s3, steps[3].world, steps[3].event).state;
    RunStep(NEW_STATE, steps);
    RunStep(s1, steps[1..]);
    RunStep(s2, steps[2..]);
    RunStep(s3, steps[3..]);
    RunStep(s4, steps[4..]);
    assert steps[1..][1..] == steps[2..] && steps[2..][1..] == steps[3..] && steps[3..][1..] == steps[4..] && steps[4..][1..] == [];
    RunNone(Handle(s4, steps[4].world, steps[4].event).state);
  }

  // ---------------------------------------------------------------- a round too many

  /** A menu on whose key 1 is a desk without a device; another desk is the fallback. */
  const NO_DEVICE: Plan := Plan(true, [], "", "", ["103"], "", [], map["1" := "104"], [], 0, 0)

  /** The same with rounds: no pick-up is cut short, but the caller's own channel answers the call. */
  const STRAY_ROUND: seq<Step> := [
    Step(Setting(NO_DEVICE, true), Arrived(CALLER, true, LINE, "101", "x", "c")),
    Step(Setting(NO_DEVICE, true), Gone(Employee("c", 0))),
    Step(Setting(NO_DEVICE, true), WentUp(CALLER)),
    Step(Setting(NO_DEVICE, true), Dtmf(CALLER, "1"))]

  /** The choice on the answered call rings nothing, and a round follows. */
  lemma ChoosesARound(s: State, call: Call, trace: seq<Entry>)
    requires s.core == Just(call, trace) && call.answered && call.endedAt.None? && call.status == Answered && call.number == LINE
    requires CALLER in s.sessions && s.sessions[CALLER] == Asking(NO_DEVICE)
    ensures Handle(s, Setting(NO_DEVICE, true), Dtmf(CALLER, "1")).state.core.trace ==
            trace + [Entry("c", Reopened)] + Told([FallbackRound, EmployeeRinging])
  {
    hide DialChosen, Handle, RingFallbacks;
    var w, plan := Setting(NO_DEVICE, true), NO_DEVICE.(destinations := ["104"]);
    Chooses(s, NO_DEVICE, "104");
    var left := Leave(s, CALLER, Asking(NO_DEVICE));
    DialsNothing(left, NO_DEVICE, call, trace);
    var entered := left.(core := Just(call.(extension := "104"), trace + [Entry("c", Reopened)]));
    FallsBack(entered, w, NO_DEVICE, plan, call.(extension := "104"), trace + [Entry("c", Reopened)]);
  }

  lemma StrayRoundTrace()
    ensures Reached(STRAY_ROUND).core.trace ==
            Told([CallStarted, MenuOpened]) + Told([FallbackRound, EmployeeRinging]) + Told([CallBridged, CallAnswered])
            + [Entry("c", Reopened)] + Told([FallbackRound, EmployeeRinging])
  {
    hide Handle, Told, GenuineRun, Joined, FallenBack, Originated;
    var asked := Incoming(Ringing, Employee("c", 0), "101", []);
    var s1 := Handle(NEW_STATE, STRAY_ROUND[0].world, STRAY_ROUND[0].event).state;
    MenuArrives(NO_DEVICE);
    UnaskedLeg(s1, asked);
    var t1 := Told([CallStarted, MenuOpened]);
    var s2 := Handle(s1, STRAY_ROUND[1].world, STRAY_ROUND[1].event).state;
    DeskGivesUp(s1, NO_DEVICE, asked, t1, Employee("c", 0));
    var t2 := t1 + Told([FallbackRound, EmployeeRinging]);
    FallenIs(asked);
    var s3 := Handle(s2, STRAY_ROUND[2].world, STRAY_ROUND[2].event).state;
    CallerStillFound(s2, FallenBack(asked));
    CallerIsUp(s2, NO_DEVICE, FallenBack(asked), t2);
    JoinedIs(FallenBack(asked));
    ChoosesARound(s3, Joined(FallenBack(asked)), t2 + Told([CallBridged, CallAnswered]));
    FourSteps(STRAY_ROUND);
  }

  lemma FallenIs(call: Call)
    requires call == Incoming(Ringing, Employee("c", 0), "101", [])
    ensures FallenBack(call) == Incoming(RingingFallback, Employee("c", 10), "103", [Desk(10, "103")])
  {
    assert [] + [Desk(10, "103")] == [Desk(10, "103")];
  }

  lemma JoinedIs(call: Call)
    ensures var d := Joined(call); d.answered && d.status == Answered && d.endedAt == call.endedAt && d.number == call.number
  {}

  /**
   * Two fallback rounds of one call without any pick-up cut short: the first follows the end of a leg nobody
   * asked for while the caller is in the menu, the second the caller's choice. So the run cannot be a genuine one.
   */
  lemma StrayRoundHappens()
    ensures var b := BooksOf(Reached(STRAY_ROUND).core.trace, "c"); b.rounds == 2 && b.interrupted == 0 && b.reopened == 1
    ensures !GenuineRun(NEW_STATE, STRAY_ROUND)
  {
    hide Reached, BooksOf, Told, GenuineRun;
    StrayRoundTrace();
    var t1 := Told([CallStarted, MenuOpened]);
    var t2 := t1 + Told([FallbackRound, EmployeeRinging]);
    CountsRounds(t1, t2, t2 + Told([CallBridged, CallAnswered]));
    CountedIsACall(STRAY_ROUND, FallbackRound);
    if GenuineRun(NEW_STATE, STRAY_ROUND) { GenuineLadder(STRAY_ROUND, "c"); }
  }

  /** What is counted was told of a call. */
  lemma CountedIsACall(steps: seq<Step>, kind: Kind)
    requires Counted(kind) && Count(BooksOf(Reached(steps).core.trace, "c"), kind) >= 1
    ensures "c" in Reached(steps).core.calls
  {
    hide Reached, BooksOf, Count;
    CountedWasTold(Reached(steps).core.trace, "c", kind);
    var i :| ToldAt(Reached(steps).core.trace, i, "c", kind);
    ToldCallExists(steps, "c", i, kind);
  }

  lemma CallerStillFound(s: State, call: Call)
    requires s.core.calls == map["c" := call] && s.core.order == ["c"] && call.customer == Some(CALLER)
    requires call.rung == [Desk(10, "103")]
    ensures CallForChannel(s, CALLER) == Some("c") && CALLER !in Channels(call.Legs())
  {
    assert ["c"][..0] == [];
  }

  lemma TwoTold(trace: seq<Entry>, a: Kind, b: Kind)
    ensures BooksOf(trace + Told([a, b]), "c") == After(After(BooksOf(trace, "c"), a), b)
  {
    hide BooksOf, After;
    BooksAppend(trace, Entry("c", a), "c");
    BooksAppend(trace + [Entry("c", a)], Entry("c", b), "c");
    assert trace + Told([a, b]) == trace + [Entry("c", a)] + [Entry("c", b)];
  }

  lemma CountsRounds(t1: seq<Entry>, t2: seq<Entry>, t3: seq<Entry>)
    requires t1 == Told([CallStarted, MenuOpened]) && t2 == t1 + Told([FallbackRound, EmployeeRinging])
    requires t3 == t2 + Told([CallBridged, CallAnswered])
    ensures var b := BooksOf(t3 + [Entry("c", Reopened)] + Told([FallbackRound, EmployeeRinging]), "c");
            b.rounds == 2 && b.interrupted == 0 && b.reopened == 1
  {
    hide BooksOf;
    StartedBooks();
    TwoTold(t1, FallbackRound, EmployeeRinging);
    TwoTold(t2, CallBridged, CallAnswered);
    BooksAppend(t3, Entry("c", Reopened), "c");
    TwoTold(t3 + [Entry("c", Reopened)], FallbackRound, EmployeeRinging);
  }
}
