/** What each way of starting, dialling and tidying comes to, read from the tables and from Asterisk's replies. */
module CallOutcomes {
  import opened Wrappers
  import opened CallRecords
  import opened CallSteps
  import opened CallInvariants
  import opened CallLaws
  import opened CallLadder
  import CallRequests

  // ---------------------------------------------------------------- devices rung

  /** The i-th device of a round that starts now can be rung. */
  predicate Rings(s: State, w: World, id: CallId, targets: seq<Target>, i: nat)
    requires i < |targets|
  {
    w.reply(|s.log| + i, Originate(Employee(id, targets[i].index), targets[i].endpoint)).Done?
  }

  predicate AnyRings(s: State, w: World, id: CallId, targets: seq<Target>) {
    exists i: nat :: i < |targets| && Rings(s, w, id, targets, i)
  }

  /** The legs of a round are exactly the devices that can be rung, each under its own place. */
  ghost predicate RingsExactly(s: State, w: World, id: CallId, targets: seq<Target>, legs: seq<Leg>) {
    forall leg :: leg in legs <==> RungAs(s, w, id, targets, leg)
  }

  /** This leg is one of the devices that can be rung, under that device's place. */
  predicate RungAs(s: State, w: World, id: CallId, targets: seq<Target>, leg: Leg) {
    exists i: nat :: i < |targets| && Rings(s, w, id, targets, i) && leg == Leg(Employee(id, targets[i].index), targets[i].extension)
  }

  /** The first leg stands for the call until a device picks up. */
  predicate OnFirstLeg(c: Call) { c.rung != [] && c.employee == c.rung[0].channel }

  lemma {:induction false} RungAre(s: State, w: World, id: CallId, targets: seq<Target>, legs: seq<Leg>)
    ensures var r := RingEach(s, w, id, targets, ByPlace, legs);
            && |r.state.log| == |s.log| + |targets|
            && legs <= r.legs
            && (forall leg :: leg in r.legs <==> (leg in legs || RungAs(s, w, id, targets, leg)))
    decreases |targets|
  {
    if targets != [] {
      var t := targets[0];
      var channel := Employee(id, t.index);
      var asked := Ask(s, Originate(channel, t.endpoint));
      var rung := ReplyTo(s, w, Originate(channel, t.endpoint)).Done?;
      var next := if rung then asked.(legIndex := asked.legIndex[channel := id]) else asked;
      var longer := if rung then legs + [Leg(channel, t.extension)] else legs;
      RungAre(next, w, id, targets[1..], longer);
      var r := RingEach(s, w, id, targets, ByPlace, legs);
      assert r == RingEach(next, w, id, targets[1..], ByPlace, longer);
      RungShift(s, next, w, id, targets);
      forall leg ensures leg in r.legs <==> (leg in legs || RungAs(s, w, id, targets, leg)) {
        if leg in longer && leg !in legs { assert Rings(s, w, id, targets, 0); }
        if i: nat :| i < |targets[1..]| && Rings(next, w, id, targets[1..], i) && leg == Leg(Employee(id, targets[1..][i].index), targets[1..][i].extension) {
          assert Rings(s, w, id, targets, i + 1);
        }
        if i: nat :| i < |targets| && Rings(s, w, id, targets, i) && leg == Leg(Employee(id, targets[i].index), targets[i].extension) {
          if i > 0 { assert Rings(next, w, id, targets[1..], i - 1); }
        }
      }
    }
  }

  lemma RungShift(s: State, next: State, w: World, id: CallId, targets: seq<Target>)
    requires targets != [] && |next.log| == |s.log| + 1
    ensures forall i: nat :: i < |targets| - 1 ==> (Rings(next, w, id, targets[1..], i) <==> Rings(s, w, id, targets, i + 1))
  {}

  /** A round rings exactly what can be rung, and nothing exactly when nothing can. */
  lemma RoundOutcome(s: State, w: World, id: CallId, targets: seq<Target>)
    ensures var r := RingEach(s, w, id, targets, ByPlace, []);
            && RingsExactly(s, w, id, targets, r.legs)
            && (r.legs != [] <==> AnyRings(s, w, id, targets))
            && |r.state.log| == |s.log| + |targets|
  {
    hide Rings;
    var r := RingEach(s, w, id, targets, ByPlace, []);
    RungAre(s, w, id, targets, []);
    if r.legs != [] { assert r.legs[0] in r.legs; }
    if i: nat :| i < |targets| && Rings(s, w, id, targets, i) {
      assert Leg(Employee(id, targets[i].index), targets[i].extension) in r.legs;
    }
  }

  // ---------------------------------------------------------------- starting calls

  /**
   * A panel call rings exactly the endpoints of its extension that can be rung, and has failed exactly when
   * none can; a call that exists already is left alone.
   */
  lemma OutboundOutcome(s: State, w: World, id: CallId, extension: string, phone: string, number: string)
    ensures var r := StartOutbound(s, w, id, extension, phone, number);
            var targets := TargetsOf(extension, w.endpoints(extension, number), 0);
            if id in s.core.calls then r == Outcome(s, false)
            else
              && id in r.state.core.calls
              && var c := r.state.core.calls[id];
                 && (r.ok <==> AnyRings(s, w, id, targets))
                 && (if r.ok then c.status == Ringing && c.endedAt.None? && RingsExactly(s, w, id, targets, c.rung) && c.rung != []
                     else c.status == Failed && c.endedAt == Some(w.now))
                 && !c.inbound && c.customer.None? && c.employee == Employee(id, 0) && !c.answered && !c.bridged && c.recording == NoRecording && c.extension == extension && c.phone == phone && c.number == number
                 && r.state.core.trace == s.core.trace + [Entry(id, CallStarted), Entry(id, if r.ok then CallRinging else CallFailed)]
  {
    hide Rings, AnyRings, RingsExactly, RingEach;
    if id !in s.core.calls {
      var call := Call(false, extension, phone, number, Initiated, false, None, None, Employee(id, 0), [], None, false, false, NoRecording);
      var created := s.(core := Create(s.core, id, call));
      var targets := TargetsOf(extension, w.endpoints(extension, number), 0);
      RoundOutcome(created, w, id, targets);
      SameRinging(created, s, w, id, targets, RingEach(created, w, id, targets, ByPlace, []).legs);
    }
  }

  /** Which devices can be rung depends only on how many requests came before. */
  lemma SameRinging(s: State, t: State, w: World, id: CallId, targets: seq<Target>, legs: seq<Leg>)
    requires s.log == t.log
    ensures AnyRings(s, w, id, targets) <==> AnyRings(t, w, id, targets)
    ensures RingsExactly(s, w, id, targets, legs) <==> RingsExactly(t, w, id, targets, legs)
  {
    assert forall i: nat :: i < |targets| ==> (Rings(s, w, id, targets, i) <==> Rings(t, w, id, targets, i));
  }

  /** A call the tables do not admit leaves no record: its channel is hung up and nothing else happens. */
  lemma RefusedInbound(s: State, w: World, channel: Channel, did: string, extension: string, caller: string, id: CallId)
    requires w.admit(did, extension).None?
    ensures StartInbound(s, w, channel, did, extension, caller, id).state == Ask(s, Hangup(channel))
  {
    CallRequests.CancelOneAsks(s, w, channel);
  }

  /** A channel that is already some call's own starts nothing. */
  lemma RepeatedInbound(s: State, w: World, channel: Channel, did: string, extension: string, caller: string, id: CallId)
    requires w.admit(did, extension).Some? && exists k :: k in s.core.calls && k in s.core.order && s.core.calls[k].customer == Some(channel)
    ensures StartInbound(s, w, channel, did, extension, caller, id).state == s
  {
    var k :| k in s.core.calls && k in s.core.order && s.core.calls[k].customer == Some(channel);
    FoundByCustomer(s.core, s.core.order, channel, k);
  }

  lemma {:induction false} FoundByCustomer(core: Core, order: seq<CallId>, channel: Channel, k: CallId)
    requires k in core.calls && k in order && core.calls[k].customer == Some(channel)
    ensures FindByChannel(core, order, channel).Some?
  {
    assert order == order[..|order| - 1] + [order[|order| - 1]];
    if order[|order| - 1] != k { FoundByCustomer(core, order[..|order| - 1], channel, k); }
  }

  /** The record of a call that has just come in. */
  predicate CameIn(c: Call, line: Admission, channel: Channel, caller: string) {
    && c.inbound && c.customer == Some(channel) && c.number == line.number && c.extension == line.extension && c.phone == caller
    && c.status == Ringing && !c.answered && !c.bridged && c.endedAt.None? && c.recording == NoRecording
  }

  predicate NewCaller(s: State, w: World, channel: Channel, did: string, extension: string, id: CallId) {
    w.admit(did, extension).Some? && FindByChannel(s.core, s.core.order, channel).None? && id !in s.core.calls
  }

  /** A number whose journey is a menu rings nobody: the caller is answered, asked, and waited for. */
  lemma MenuInbound(s: State, w: World, channel: Channel, did: string, extension: string, caller: string, id: CallId)
    requires NewCaller(s, w, channel, did, extension, id)
    requires var line := w.admit(did, extension).value; w.journey(line.number, line.extension).menu
    ensures var line, r := w.admit(did, extension).value, StartInbound(s, w, channel, did, extension, caller, id).state;
            && id in r.core.calls && CameIn(r.core.calls[id], line, channel, caller) && r.core.calls[id].rung == []
            && channel in r.sessions && r.sessions[channel].call == id && r.sessions[channel].state.tries == 0
            && r.sessions[channel].state.digits == "" && r.sessions[channel].plan == w.journey(line.number, line.extension)
            && s.log <= r.log && (forall q :: q in r.log[|s.log|..] ==> q.Answer? || q.PlayPrompt?)
            && r.core.trace == s.core.trace + [Entry(id, CallStarted), Entry(id, MenuOpened)]
  {
    hide FindByChannel;
  }

  /** Where the devices of a number's journey are. */
  function GroupTargets(w: World, line: Admission): seq<Target> {
    TargetsThrough(w, w.journey(line.number, line.extension).destinations, line.number, 0)
  }

  /**
   * Any other number rings exactly the devices of its journey that can be rung, all at once; when none can,
   * the no-answer path has run, and the call is past ringing exactly when that path moves it on.
   */
  lemma GroupInbound(s: State, w: World, channel: Channel, did: string, extension: string, caller: string, id: CallId)
    requires Sane(s) && NewCaller(s, w, channel, did, extension, id)
    requires var line := w.admit(did, extension).value; !w.journey(line.number, line.extension).menu
    ensures var line, r := w.admit(did, extension).value, StartInbound(s, w, channel, did, extension, caller, id).state;
            var plan, targets := w.journey(line.number, line.extension), GroupTargets(w, line);
            && id in r.core.calls && r.sessions == s.sessions
            && if AnyRings(s, w, id, targets)
               then CameIn(r.core.calls[id], line, channel, caller) && RingsExactly(s, w, id, targets, r.core.calls[id].rung) && OnFirstLeg(r.core.calls[id])
               else r.core.calls[id].status != Ringing <==> MovesOnAt(w, |s.log| + |targets|, id, Newcomer(line, channel, caller, id), plan)
  {
    hide FindByChannel, RingInbound, CoreOk, SessionsOk, Rings, AnyRings, RingsExactly, MovesOnAt, Create, TargetsThrough;
    var line := w.admit(did, extension).value;
    var call := Newcomer(line, channel, caller, id);
    var created := s.(core := Create(s.core, id, call));
    CreateInboundKeeps(s, id, call);
    GroupRings(created, w, id, w.journey(line.number, line.extension));
    SameRinging(created, s, w, id, GroupTargets(w, line), RingInbound(created, w, id, w.journey(line.number, line.extension)).state.core.calls[id].rung);
  }

  /**
   * An arrival starts a call exactly when the tables admit it, no call names its channel and the id is fresh;
   * otherwise no record, menu or mark changes, and all that is ever asked is to hang up a channel the tables refuse.
   */
  lemma ArrivalIsNewIff(s: State, w: World, channel: Channel, did: string, extension: string, caller: string, id: CallId)
    requires Sane(s)
    ensures var r, starts := StartInbound(s, w, channel, did, extension, caller, id).state, NewCaller(s, w, channel, did, extension, id);
            && (id !in s.core.calls && id in r.core.calls <==> starts)
            && (!starts ==> r == s.(log := if w.admit(did, extension).None? then s.log + [Hangup(channel)] else s.log))
  {
    hide FindByChannel, RingInbound, OpenMenu, CancelEach, Sane;
    if w.admit(did, extension).None? {
      RefusedInbound(s, w, channel, did, extension, caller, id);
    } else if NewCaller(s, w, channel, did, extension, id) {
      var line := w.admit(did, extension).value;
      if w.journey(line.number, line.extension).menu { MenuInbound(s, w, channel, did, extension, caller, id); }
      else { GroupInbound(s, w, channel, did, extension, caller, id); }
    }
  }

  /** A leg of a known call that arrives makes a call that had only been created ring, and changes nothing of any other. */
  lemma KnownArrival(s: State, w: World, channel: Channel, inbound: bool, did: string, extension: string, caller: string, newId: CallId, id: CallId)
    requires CallForChannel(s, channel) == Some(id)
    ensures var c, t := s.core.calls[id], Handle(s, w, Arrived(channel, inbound, did, extension, caller, newId)).state;
            var rings := c.status == Initiated && (channel == c.employee || exists leg :: leg in c.Legs() && leg.channel == channel);
            t == if rings then s.(core := Save(s.core, id, c.(status := Ringing), EmployeeRinging)) else s
  {
    hide CallForChannel;
    var c := s.core.calls[id];
    assert channel in Channels(c.Legs()) <==> exists leg :: leg in c.Legs() && leg.channel == channel by {
      if channel in Channels(c.Legs()) {
        var i :| 0 <= i < |c.Legs()| && Channels(c.Legs())[i] == channel;
        assert c.Legs()[i] in c.Legs();
      }
      if leg :| leg in c.Legs() && leg.channel == channel {
        var i :| 0 <= i < |c.Legs()| && c.Legs()[i] == leg;
        assert Channels(c.Legs())[i] == channel;
      }
    }
  }

  lemma GroupRings(s: State, w: World, id: CallId, plan: Plan)
    requires Sane(s) && Unanswered(s.core, id) && s.core.calls[id].status == Ringing && s.core.calls[id].customer.Some?
    ensures var r := RingInbound(s, w, id, plan).state;
            var c, targets := s.core.calls[id], TargetsThrough(w, plan.destinations, s.core.calls[id].number, 0);
            && id in r.core.calls && r.sessions == s.sessions
            && if AnyRings(s, w, id, targets)
               then r.core.calls[id] == c.(employee := r.core.calls[id].employee, rung := r.core.calls[id].rung) && RingsExactly(s, w, id, targets, r.core.calls[id].rung) && OnFirstLeg(r.core.calls[id])
               else r.core.calls[id].status != Ringing <==> MovesOnAt(w, |s.log| + |targets|, id, c, plan)
  {
    hide RingEach, NoAnswer, CoreOk, SessionsOk, Rings, AnyRings, RingsExactly, MovesOnAt, TargetsThrough, BooksOf, Evolved, Keeps;
    var c, targets := s.core.calls[id], TargetsThrough(w, plan.destinations, s.core.calls[id].number, 0);
    PlainNote(s.core, id, EmployeeRinging, None);
    var told := s.(core := Note(s.core, id, EmployeeRinging));
    RoundOutcome(told, w, id, targets);
    var round := RingEach(told, w, id, targets, ByPlace, []);
    SameRinging(told, s, w, id, targets, round.legs);
    if round.legs == [] {
      StillOneRank(round.state, w, id, plan);
      SessionsStay(round.state, w, id, plan);
    }
  }

  lemma SessionsStay(s: State, w: World, id: CallId, plan: Plan)
    requires CoreOk(s.core, None) && Unanswered(s.core, id)
    ensures NoAnswer(s, w, id, plan).state.sessions == s.sessions
  {
    hide NoAnswer, CoreOk;
    UnansweredKeeps(s, w, id, plan);
  }

  function Newcomer(line: Admission, channel: Channel, caller: string, id: CallId): Call {
    Call(true, line.extension, caller, line.number, Ringing, false, None, None, Employee(id, 0), [], Some(channel), false, false, NoRecording)
  }

  lemma StillOneRank(s: State, w: World, id: CallId, plan: Plan)
    requires CoreOk(s.core, None) && Unanswered(s.core, id) && s.core.calls[id].status == Ringing && s.core.calls[id].customer.Some?
    ensures id in NoAnswer(s, w, id, plan).state.core.calls
    ensures NoAnswer(s, w, id, plan).state.core.calls[id].status != Ringing <==> MovesOn(s, w, id, plan)
  {
    hide NoAnswer, CoreOk, MovesOn;
    RankRisesIff(s, w, id, plan);
    UnansweredKeeps(s, w, id, plan) by { UnansweredFacts(s.core, id); }
  }

  // ---------------------------------------------------------------- the far side of a panel call

  /** The i-th far-side leg of a call can be placed, the first being the n-th request. */
  predicate PlacedAt(w: World, n: nat, id: CallId, targets: seq<string>, index: nat, i: nat)
    requires i < |targets|
  {
    w.reply(n + i, Originate(Customer(id, index + i), targets[i])).Done?
  }

  predicate AnyPlaced(w: World, n: nat, id: CallId, targets: seq<string>, index: nat) {
    exists i: nat :: i < |targets| && PlacedAt(w, n, id, targets, index, i)
  }

  lemma {:induction false} PlacesAny(s: State, w: World, id: CallId, targets: seq<string>, index: nat, placed: bool)
    ensures var r := PlaceEach(s, w, id, targets, index, placed);
            |r.state.log| == |s.log| + |targets| && (r.ok <==> placed || AnyPlaced(w, |s.log|, id, targets, index))
    decreases |targets|
  {
    if targets != [] {
      var request := Originate(Customer(id, index), targets[0]);
      var rest, next, n := targets[1..], index + 1, |s.log| + 1;
      PlacesAny(Ask(s, request), w, id, rest, next, placed || ReplyTo(s, w, request).Done?);
      if i: nat :| i < |targets| && PlacedAt(w, |s.log|, id, targets, index, i) {
        if i > 0 { assert PlacedAt(w, n, id, rest, next, i - 1); }
      }
      if i: nat :| i < |rest| && PlacedAt(w, n, id, rest, next, i) {
        assert PlacedAt(w, |s.log|, id, targets, index, i + 1);
      }
      if ReplyTo(s, w, request).Done? { assert PlacedAt(w, |s.log|, id, targets, index, 0); }
    }
  }

  /** Where the far side is rung: every endpoint of a platform extension, or the number itself over the carrier. */
  function FarTargets(w: World, call: Call): seq<string> {
    match w.route(call.phone)
    case Local(extension) => w.endpoints(extension, call.phone)
    case _ => [call.phone]
  }

  /**
   * A number out of service fails the call without ringing anybody. Any other is dialled once, and the call
   * goes on dialling when some leg could be placed; it has failed when none could, unless Asterisk was gone
   * when the employee was to be hung up.
   */
  lemma CustomerOutcome(s: State, w: World, id: CallId)
    requires id in s.core.calls && s.core.calls[id].customer.None? && !s.core.calls[id].Over()
    ensures var c, r := s.core.calls[id], StartCustomer(s, w, id).state;
            var targets := FarTargets(w, c);
            && id in r.core.calls
            && var d := r.core.calls[id];
               if w.route(c.phone).OutOfService?
               then d == c.(status := Failed, endedAt := Some(w.now)) && r.log == s.log + [Hangup(c.employee)]
               else
                 && d.customer == Some(Customer(id, 0))
                 && (d.status == Failed <==> !AnyPlaced(w, |s.log|, id, targets, 0) && !w.reply(|s.log| + |targets|, Hangup(c.employee)).Unreachable?)
                 && (d.status != Failed ==> d.status == DialingCustomer)
  {
    hide PlaceEach, CancelEach, AnyPlaced;
    var c := s.core.calls[id];
    if w.route(c.phone).OutOfService? {
      CallRequests.CancelOneAsks(s.(core := Save(s.core, id, c.(status := Failed, endedAt := Some(w.now)), CallFailed)), w, c.employee);
    } else {
      var dialling := Dialling(s, id);
      var targets := FarTargets(w, c);
      PlacesAny(dialling, w, id, targets, 0, false);
      var tried := PlaceEach(dialling, w, id, targets, 0, false);
      CancelsOne(tried.state, w, c.employee);
      assert StartCustomer(s, w, id) == Placed(tried, w, id);
    }
  }

  lemma CancelsOne(s: State, w: World, channel: Channel)
    ensures CancelEach(s, w, [channel]).ok <==> !ReplyTo(s, w, Hangup(channel)).Unreachable?
  {
    assert [channel][1..] == [];
  }

  // ---------------------------------------------------------------- what a menu's caller gets

  /** The plan under which a chosen extension rings: the rest of the journey, under that extension's own handling. */
  function ChosenPlan(w: World, session: MenuSession, key: string): Plan {
    w.desk(session.plan.(destinations := [key]), [key], session.number, OfExtension(key))
  }

  function ChosenTargets(w: World, session: MenuSession, key: string): seq<Target> {
    if ChosenPlan(w, session, key).destinations == [] then [] else TargetsOf(key, w.endpoints(key, session.number), 0)
  }

  /** A caller who is still unanswered, in a menu of theirs. */
  predicate Choosing(s: State, session: MenuSession) { CoreOk(s.core, None) && Unanswered(s.core, session.call) && SessionOk(s.core, session) }

  /**
   * The chosen extension rings on exactly its endpoints that can be rung, and the console hears of the choice;
   * when its own handling rings nothing, or nothing can be rung, the no-answer path runs under that handling.
   */
  lemma ChoiceOutcome(s: State, w: World, session: MenuSession, key: string)
    requires Choosing(s, session)
    ensures var id, c, r := session.call, s.core.calls[session.call], DialChosen(s, w, session, key).state;
            var targets := ChosenTargets(w, session, key);
            && id in r.core.calls && c.customer.Some?
            && if AnyRings(s, w, id, targets)
               then && r.core.calls[id] == c.(extension := key, employee := r.core.calls[id].employee, rung := r.core.calls[id].rung)
                    && RingsExactly(s, w, id, targets, r.core.calls[id].rung) && OnFirstLeg(r.core.calls[id])
                    && r.core.trace == s.core.trace + [Entry(id, MenuSelected)]
               else Rank(r.core.calls[id].status) > Rank(c.status)
                    <==> MovesOnAt(w, |s.log| + |targets|, id, c, ChosenPlan(w, session, key))
  {
    hide RingEach, NoAnswer, CoreOk, Rings, AnyRings, RingsExactly, MovesOnAt, BooksOf, Evolved, Keeps;
    var id, c := session.call, s.core.calls[session.call];
    UnansweredFacts(s.core, id);
    var chosen := s.(core := Put(s.core, id, c.(extension := key)));
    LegsKeepCore(s.core, id, c.(extension := key));
    var targets := ChosenTargets(w, session, key);
    RoundOutcome(chosen, w, id, targets);
    var round := RingEach(chosen, w, id, targets, ByPlace, []);
    SameRinging(chosen, s, w, id, targets, round.legs);
    if round.legs == [] {
      RankRisesIff(round.state, w, id, ChosenPlan(w, session, key));
      SameDecision(w, |s.log| + |targets|, id, c.(extension := key), c, ChosenPlan(w, session, key));
      StaysListed(round.state, w, id, ChosenPlan(w, session, key));
    }
  }

  lemma LegsKeepCore(core: Core, id: CallId, d: Call)
    requires CoreOk(core, None) && id in core.calls && SameButLegs(core.calls[id], d) && d.rung == core.calls[id].rung && BooksOf(core.trace, id).menus > 0
    ensures CoreOk(Put(core, id, d), None)
  {
    hide CoreOk, Evolved;
    LegsKeep(core, id, d, MenuSelected);
  }

  lemma StaysListed(s: State, w: World, id: CallId, plan: Plan)
    requires CoreOk(s.core, None) && Unanswered(s.core, id)
    ensures id in NoAnswer(s, w, id, plan).state.core.calls
  {
    hide NoAnswer, CoreOk;
    UnansweredKeeps(s, w, id, plan);
  }

  /** The decision does not look at which devices ring, or for whom. */
  lemma SameDecision(w: World, n: nat, id: CallId, c: Call, d: Call, plan: Plan)
    requires SameButLegs(c, d) && c.customer.Some?
    ensures MovesOnAt(w, n, id, c, plan) <==> MovesOnAt(w, n, id, d, plan)
  {}

  /**
   * A menu with a fallback key gives a caller who chose nothing what choosing that key would have given them,
   * one request later.
   */
  lemma FallbackKeyOutcome(s: State, w: World, session: MenuSession)
    requires Choosing(s, session) && session.plan.fallback != ""
    ensures var id, c, key, r := session.call, s.core.calls[session.call], session.plan.fallback, NoChoice(s, w, session).state;
            var asked := Ask(s, StopPrompt(id, session.state.tries));
            var targets := ChosenTargets(w, session, key);
            && id in r.core.calls && c.customer.Some?
            && if AnyRings(asked, w, id, targets)
               then && r.core.calls[id] == c.(extension := key, employee := r.core.calls[id].employee, rung := r.core.calls[id].rung)
                    && RingsExactly(asked, w, id, targets, r.core.calls[id].rung) && OnFirstLeg(r.core.calls[id])
                    && r.core.trace == s.core.trace + [Entry(id, MenuSelected)]
               else Rank(r.core.calls[id].status) > Rank(c.status)
                    <==> MovesOnAt(w, |s.log| + 1 + |targets|, id, c, ChosenPlan(w, session, key))
  {
    hide CoreOk, DialChosen, AnyRings, RingsExactly, MovesOnAt, SessionOk;
    ChoiceOutcome(Ask(s, StopPrompt(session.call, session.state.tries)), w, session, session.plan.fallback);
  }

  function RestPlan(w: World, session: MenuSession): Plan {
    var rest := session.plan.fallbackDestinations;
    w.desk(session.plan.(destinations := rest), rest, session.number, OfNumber(session.number))
  }

  function RestTargets(w: World, session: MenuSession): seq<Target> {
    TargetsThrough(w, RestPlan(w, session).destinations, session.number, 0)
  }

  /**
   * A menu without a fallback key rings the rest of its journey, under the number's handling: exactly the
   * devices that can be rung, or the no-answer path when there is none.
   */
  lemma NoChoiceOutcome(s: State, w: World, session: MenuSession)
    requires Choosing(s, session) && session.plan.fallback == ""
    ensures var id, c, r := session.call, s.core.calls[session.call], NoChoice(s, w, session).state;
            var targets := RestTargets(w, session);
            && id in r.core.calls && c.customer.Some?
            && if AnyRings(s, w, id, targets)
               then && RingsExactly(s, w, id, targets, r.core.calls[id].rung) && r.core.calls[id].rung != []
                    && r.core.calls[id] == c.(extension := r.core.calls[id].rung[0].extension, employee := r.core.calls[id].rung[0].channel, rung := r.core.calls[id].rung)
                    && r.core.trace == s.core.trace + [Entry(id, MenuFallback)]
               else Rank(r.core.calls[id].status) > Rank(c.status) <==> MovesOnAt(w, |s.log| + |targets|, id, c, RestPlan(w, session))
  {
    hide RingEach, NoAnswer, CoreOk, Rings, AnyRings, RingsExactly, MovesOnAt, BooksOf, Evolved, Keeps, TargetsThrough, DialChosen;
    var id := session.call;
    UnansweredFacts(s.core, id);
    var targets := RestTargets(w, session);
    RoundOutcome(s, w, id, targets);
    var round := RingEach(s, w, id, targets, ByPlace, []);
    if round.legs == [] {
      RankRisesIff(round.state, w, id, RestPlan(w, session));
      StaysListed(round.state, w, id, RestPlan(w, session));
    }
  }
}
