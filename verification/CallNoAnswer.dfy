/** What a caller gets when nobody answers: which devices ring next, who is asked for what, and what is written. */
module CallNoAnswer {
  import opened Wrappers
  import opened CallRecords
  import opened CallSteps
  import opened CallInvariants
  import opened CallLaws
  import opened CallLadder
  import opened CallRequests
  import CallEndings

  // ---------------------------------------------------------------- which devices a round rings

  /** How many of the requests from one on and before another Asterisk did. */
  function DoneBefore(w: World, log: seq<Request>, from: nat, k: nat): nat
    requires from <= k <= |log|
    decreases k
  {
    if k == from then 0 else DoneBefore(w, log, from, k - 1) + One(w.reply(k - 1, log[k - 1]).Done?)
  }

  lemma {:induction false} DoneBeforeIn(w: World, log: seq<Request>, longer: seq<Request>, from: nat, k: nat)
    requires from <= k <= |log| && log <= longer
    ensures DoneBefore(w, log, from, k) == DoneBefore(w, longer, from, k)
    decreases k
  {
    if k > from { DoneBeforeIn(w, log, longer, from, k - 1); }
  }

  lemma OneMoreDone(w: World, log: seq<Request>, request: Request, from: nat)
    requires from <= |log|
    ensures DoneBefore(w, log + [request], from, |log| + 1) == DoneBefore(w, log, from, |log|) + One(w.reply(|log|, request).Done?)
  {
    DoneBeforeIn(w, log, log + [request], from, |log|);
  }

  /**
   * The k-th request rings this device, as the leg numbered ten plus the legs made so far plus the device's own
   * place; when Asterisk does it, that leg is the next of the round.
   */
  predicate RungInTurn(w: World, log: seq<Request>, from: nat, k: nat, id: CallId, t: Target, legs: seq<Leg>)
    requires from <= k < |log|
  {
    var made := DoneBefore(w, log, from, k);
    var channel := Employee(id, 10 + made + t.index);
    log[k] == Originate(channel, t.endpoint) && (w.reply(k, log[k]).Done? ==> made < |legs| && legs[made] == Leg(channel, t.extension))
  }

  /** A fallback round asks for every device once, in order, and its legs are those that Asterisk could ring, in order. */
  predicate RoundIs(s: State, t: State, w: World, from: nat, id: CallId, targets: seq<Target>, legs: seq<Leg>)
    requires from <= |s.log|
  {
    && s.log <= t.log && |t.log| == |s.log| + |targets|
    && |legs| == DoneBefore(w, t.log, from, |t.log|)
    && forall i :: 0 <= i < |targets| ==> RungInTurn(w, t.log, from, |s.log| + i, id, targets[i], legs)
  }

  /** The request that rings the next device of the round. */
  function NextRequest(id: CallId, t: Target, legs: seq<Leg>): Request { Originate(Employee(id, 10 + |legs| + t.index), t.endpoint) }

  /** The round after one more device. */
  function OneRung(s: State, w: World, id: CallId, t: Target, legs: seq<Leg>): Round {
    var request := NextRequest(id, t, legs);
    var asked := Ask(s, request);
    if ReplyTo(s, w, request).Done?
    then Round(asked.(legIndex := asked.legIndex[request.channel := id]), legs + [Leg(request.channel, t.extension)])
    else Round(asked, legs)
  }

  lemma OneRungIs(s: State, w: World, id: CallId, t: Target, legs: seq<Leg>, from: nat)
    requires from <= |s.log| && |legs| == DoneBefore(w, s.log, from, |s.log|)
    ensures var r, request := OneRung(s, w, id, t, legs), NextRequest(id, t, legs);
            && r.state.log == s.log + [request] && legs <= r.legs
            && r.legs == (if w.reply(|s.log|, request).Done? then legs + [Leg(request.channel, t.extension)] else legs)
            && |r.legs| == DoneBefore(w, r.state.log, from, |r.state.log|)
  {
    hide DoneBefore;
    OneMoreDone(w, s.log, NextRequest(id, t, legs), from);
  }

  lemma RingsOne(s: State, w: World, id: CallId, targets: seq<Target>, legs: seq<Leg>)
    requires targets != []
    ensures var r := OneRung(s, w, id, targets[0], legs);
            RingEach(s, w, id, targets, ByRound, legs) == RingEach(r.state, w, id, targets[1..], ByRound, r.legs)
  {}

  lemma NothingRung(s: State, w: World, id: CallId, legs: seq<Leg>, from: nat)
    requires from <= |s.log| && |legs| == DoneBefore(w, s.log, from, |s.log|)
    ensures var r := RingEach(s, w, id, [], ByRound, legs); legs <= r.legs && RoundIs(s, r.state, w, from, id, [], r.legs)
  {
    hide DoneBefore;
  }

  lemma {:induction false} FallbackRoundIs(s: State, w: World, id: CallId, targets: seq<Target>, legs: seq<Leg>, from: nat)
    requires from <= |s.log| && |legs| == DoneBefore(w, s.log, from, |s.log|)
    ensures var r := RingEach(s, w, id, targets, ByRound, legs); legs <= r.legs && RoundIs(s, r.state, w, from, id, targets, r.legs)
    decreases |targets|
  {
    hide *;
    if targets == [] {
      NothingRung(s, w, id, legs, from);
    } else {
      var one := OneRung(s, w, id, targets[0], legs);
      OneRungIs(s, w, id, targets[0], legs, from);
      RingsOne(s, w, id, targets, legs);
      FallbackRoundIs(one.state, w, id, targets[1..], one.legs, from);
      var r := RingEach(one.state, w, id, targets[1..], ByRound, one.legs);
      RoundGrows(s, one.state, r.state, w, from, id, targets, legs, one.legs, r.legs);
    }
  }

  lemma RoundGrows(s: State, next: State, t: State, w: World, from: nat, id: CallId, targets: seq<Target>, legs: seq<Leg>, longer: seq<Leg>, all: seq<Leg>)
    requires targets != [] && from <= |s.log| && |legs| == DoneBefore(w, s.log, from, |s.log|)
    requires var request := NextRequest(id, targets[0], legs);
             && next.log == s.log + [request]
             && longer == (if w.reply(|s.log|, request).Done? then legs + [Leg(request.channel, targets[0].extension)] else legs)
    requires longer <= all && RoundIs(next, t, w, from, id, targets[1..], all)
    ensures RoundIs(s, t, w, from, id, targets, all)
  {
    DoneBeforeIn(w, s.log, t.log, from, |s.log|);
    hide DoneBefore, RungInTurn;
    FirstInTurn(s.log, next.log, t.log, w, from, id, targets[0], legs, longer, all);
    forall i | 0 <= i < |targets| ensures RungInTurn(w, t.log, from, |s.log| + i, id, targets[i], all) {
      if i > 0 { assert targets[i] == targets[1..][i - 1] && |next.log| + (i - 1) == |s.log| + i; }
    }
  }

  lemma FirstInTurn(log: seq<Request>, next: seq<Request>, all: seq<Request>, w: World, from: nat, id: CallId, t: Target, legs: seq<Leg>, longer: seq<Leg>, round: seq<Leg>)
    requires from <= |log| && next == log + [NextRequest(id, t, legs)] && next <= all && |legs| == DoneBefore(w, all, from, |log|)
    requires longer == if w.reply(|log|, NextRequest(id, t, legs)).Done? then legs + [Leg(NextRequest(id, t, legs).channel, t.extension)] else legs
    requires longer <= round
    ensures RungInTurn(w, all, from, |log|, id, t, round)
  {
    hide DoneBefore;
    assert next[|log|] == all[|log|];
    assert |longer| > |legs| ==> longer[|legs|] == round[|legs|];
  }

  lemma Regroup(a: seq<Target>, b: seq<Target>, c: seq<Target>)
    ensures a + (b + c) == (a + b) + c
  {}

  lemma TailOfSum(a: seq<string>, b: seq<string>)
    requires a != []
    ensures (a + b)[0] == a[0] && (a + b)[1..] == a[1..] + b
  {}

  lemma ApartUnrolls(w: World, a: seq<string>, number: string)
    requires a != []
    ensures TargetsApart(w, a, number) == TargetsOf(a[0], w.endpoints(a[0], number), 0) + TargetsApart(w, a[1..], number)
  {
    hide TargetsOf;
  }

  lemma ApartOfNothing(w: World, b: seq<string>, number: string)
    ensures TargetsApart(w, [] + b, number) == TargetsApart(w, [], number) + TargetsApart(w, b, number)
  {
    assert [] + b == b;
  }

  /** The devices of a list of desks are those of one desk after the other. */
  lemma {:induction false} ApartMeans(w: World, a: seq<string>, b: seq<string>, number: string)
    ensures TargetsApart(w, a + b, number) == TargetsApart(w, a, number) + TargetsApart(w, b, number)
    decreases |a|
  {
    hide *;
    if a == [] {
      ApartOfNothing(w, b, number);
    } else {
      ApartMeans(w, a[1..], b, number);
      TailOfSum(a, b);
      ApartUnrolls(w, a, number);
      ApartUnrolls(w, a + b, number);
      Regroup(TargetsOf(a[0], w.endpoints(a[0], number), 0), TargetsApart(w, a[1..], number), TargetsApart(w, b, number));
    }
  }

  lemma OneApart(w: World, d: string, number: string)
    ensures var t, e := TargetsApart(w, [d], number), w.endpoints(d, number);
            |t| == |e| && forall i :: 0 <= i < |e| ==> t[i] == Target(d, e[i], i)
  {
    assert TargetsApart(w, [d], number) == TargetsOf(d, w.endpoints(d, number), 0) + [];
  }

  lemma ThroughUnrolls(w: World, a: seq<string>, number: string, first: nat)
    requires a != []
    ensures var head := TargetsOf(a[0], w.endpoints(a[0], number), first);
            TargetsThrough(w, a, number, first) == head + TargetsThrough(w, a[1..], number, first + |head|)
  {
    hide TargetsOf;
  }

  lemma ThroughOfNothing(w: World, b: seq<string>, number: string, first: nat)
    ensures var t := TargetsThrough(w, [], number, first);
            TargetsThrough(w, [] + b, number, first) == t + TargetsThrough(w, b, number, first + |t|)
  {
    assert [] + b == b;
  }

  /** In a first round the places are counted through. */
  lemma {:induction false} ThroughMeans(w: World, a: seq<string>, b: seq<string>, number: string, first: nat)
    ensures var t := TargetsThrough(w, a, number, first);
            TargetsThrough(w, a + b, number, first) == t + TargetsThrough(w, b, number, first + |t|)
    decreases |a|
  {
    hide *;
    if a == [] {
      ThroughOfNothing(w, b, number, first);
    } else {
      var head := TargetsOf(a[0], w.endpoints(a[0], number), first);
      ThroughMeans(w, a[1..], b, number, first + |head|);
      TailOfSum(a, b);
      ThroughUnrolls(w, a, number, first);
      ThroughUnrolls(w, a + b, number, first);
      var tail := TargetsThrough(w, a[1..], number, first + |head|);
      Regroup(head, tail, TargetsThrough(w, b, number, first + |head| + |tail|));
    }
  }

  lemma OneThrough(w: World, d: string, number: string, first: nat)
    ensures var t, e := TargetsThrough(w, [d], number, first), w.endpoints(d, number);
            |t| == |e| && forall i :: 0 <= i < |e| ==> t[i] == Target(d, e[i], first + i)
  {
    assert TargetsThrough(w, [d], number, first) == TargetsOf(d, w.endpoints(d, number), first) + [];
  }

  // ---------------------------------------------------------------- the end of the path

  /** A caller still waits: nobody has answered, nothing was bridged or recorded, and the call runs. */
  predicate Waiting(c: Call) { c.customer.Some? && !c.answered && !c.bridged && !c.named && c.endedAt.None? && !c.Over() }

  /** One record is written, and this is told. */
  predicate Writes(a: Core, b: Core, id: CallId, d: Call, told: seq<Entry>) {
    b.order == a.order && b.calls == a.calls[id := d] && b.trace == a.trace + told
  }

  /** The call fails now, and this is told before. */
  predicate FailsNow(a: Core, b: Core, id: CallId, now: nat, told: seq<Entry>)
    requires id in a.calls
  {
    Writes(a, b, id, a.calls[id].(status := Failed, endedAt := Some(now)), told + [Entry(id, CallFailed)])
  }

  lemma WaitingEnds(s: State, w: World, id: CallId, keep: Option<Channel>)
    requires id in s.core.calls && Waiting(s.core.calls[id])
    ensures var r := Finalize(s, w, id, keep);
            && r.ok && r.state == s.(core := r.state.core, log := r.state.log) && FailsNow(s.core, r.state.core, id, w.now, [])
            && Follows(s, r.state) && NeverHangsUp(New(s, r.state), keep)
  {
    hide HangupCallChannels, HangsUpOwned, NeverHangsUp;
    FinalizeHangsUpAllButKept(s, w, id, keep);
  }

  /** After these requests the caller is hung up; the call then fails, unless Asterisk is gone. */
  predicate HangsUpCaller(s: State, w: World, id: CallId, t: State, asked: seq<Request>, told: seq<Entry>)
    requires id in s.core.calls && s.core.calls[id].customer.Some?
  {
    var caller := Hangup(s.core.calls[id].customer.value);
    && t == s.(core := t.core, log := t.log) && s.log + asked + [caller] <= t.log
    && if w.reply(|s.log| + |asked|, caller).Unreachable?
       then t.core == s.core.(trace := s.core.trace + told) && t.log == s.log + asked + [caller]
       else FailsNow(s.core, t.core, id, w.now, told)
  }

  /**
   * What is left once no round is due: the mailbox of the plan is offered the caller, who then is its own and is
   * not hung up; or else the phone of the plan is dialled, once, as the only leg; or else the call was missed.
   */
  predicate LastResort(s: State, w: World, id: CallId, plan: Plan, t: State)
    requires id in s.core.calls && s.core.calls[id].customer.Some?
  {
    var c, n := s.core.calls[id], |s.log|;
    var handover, leg := Continue(c.customer.value, plan.mailbox), Originate(Customer(id, 1), plan.forward);
    if plan.mailbox != "" then
      if w.reply(n, handover).Done? then
        && t == s.(core := t.core, log := t.log) && s.log + [handover] <= t.log && Hangup(c.customer.value) !in t.log[n..]
        && FailsNow(s.core, t.core, id, w.now, [Entry(id, CallVoicemail)])
      else HangsUpCaller(s, w, id, t, [handover], [])
    else if c.status != Forwarding && plan.forward != "" then
      if w.reply(n, leg).Done? then
        && t == s.(core := t.core, log := s.log + [leg], legIndex := s.legIndex[Customer(id, 1) := id])
        && Writes(s.core, t.core, id,
                  c.(status := Forwarding, employee := Customer(id, 1), rung := [Leg(Customer(id, 1), c.extension)]), [Entry(id, CallForwarding)])
      else HangsUpCaller(s, w, id, t, [leg], [Entry(id, CallMissed)])
    else HangsUpCaller(s, w, id, t, [], [Entry(id, CallMissed)])
  }

  lemma HangUpIs(s: State, w: World, id: CallId, asked: seq<Request>, u: State, told: seq<Entry>)
    requires id in s.core.calls && Waiting(s.core.calls[id])
    requires u == s.(core := s.core.(trace := s.core.trace + told), log := s.log + asked)
    ensures var gone := CancelEach(u, w, CustomerOf(s.core.calls[id]));
            HangsUpCaller(s, w, id, (if gone.ok then Finalize(gone.state, w, id, None) else gone).state, asked, told)
  {
    hide Finalize, NeverHangsUp;
    var caller := s.core.calls[id].customer.value;
    assert [caller][1..] == [];
    assert CancelEach(u, w, [caller]) == Outcome(Ask(u, Hangup(caller)), !ReplyTo(u, w, Hangup(caller)).Unreachable?);
    WaitingEnds(Ask(u, Hangup(caller)), w, id, None);
    assert u.core.trace + [Entry(id, CallFailed)] == s.core.trace + (told + [Entry(id, CallFailed)]);
    assert u.log + [Hangup(caller)] == s.log + asked + [Hangup(caller)];
  }

  lemma MailboxResort(s: State, w: World, id: CallId, plan: Plan)
    requires id in s.core.calls && Waiting(s.core.calls[id]) && plan.mailbox != ""
    ensures LastResort(s, w, id, plan, Voicemail(s, w, id, plan.mailbox).state)
  {
    hide Finalize, CancelEach, HangsUpCaller;
    var c := s.core.calls[id];
    var handover := Continue(c.customer.value, plan.mailbox);
    var asked := Ask(s, handover);
    if ReplyTo(s, w, handover).Done? {
      var told := asked.(core := Note(asked.core, id, CallVoicemail));
      WaitingEnds(told, w, id, c.customer);
      var t := Finalize(told, w, id, c.customer).state;
      assert t.log[|s.log|..] == [handover] + New(told, t);
      assert s.core.trace + [Entry(id, CallVoicemail)] + [Entry(id, CallFailed)] == s.core.trace + ([Entry(id, CallVoicemail)] + [Entry(id, CallFailed)]);
    } else {
      assert asked == s.(core := s.core.(trace := s.core.trace + []), log := s.log + [handover]);
      HangUpIs(s, w, id, [handover], asked, []);
    }
  }

  lemma MissedResort(s: State, w: World, id: CallId, asked: seq<Request>, u: State)
    requires id in s.core.calls && Waiting(s.core.calls[id]) && u == s.(log := s.log + asked)
    ensures HangsUpCaller(s, w, id, Missed(u, w, id).state, asked, [Entry(id, CallMissed)])
  {
    hide Finalize, CancelEach, HangsUpCaller;
    HangUpIs(s, w, id, asked, u.(core := Note(u.core, id, CallMissed)), [Entry(id, CallMissed)]);
  }

  /** Without a round to come, the path is the last resort. */
  lemma LastResortIs(s: State, w: World, id: CallId, plan: Plan)
    requires id in s.core.calls && Waiting(s.core.calls[id]) && !(MayFallBack(s, id) && plan.fallbacks != [])
    ensures LastResort(s, w, id, plan, NoAnswer(s, w, id, plan).state)
  {
    hide Voicemail, Missed, HangsUpCaller;
    if plan.mailbox != "" {
      MailboxResort(s, w, id, plan);
    } else if s.core.calls[id].status != Forwarding && plan.forward != "" {
      MissedResort(s, w, id, [Originate(Customer(id, 1), plan.forward)], Ask(s, Originate(Customer(id, 1), plan.forward)));
    } else {
      MissedResort(s, w, id, [], s);
    }
  }

  // ---------------------------------------------------------------- the fallback round

  /** The plan of the round: the desk's own fallback desks, under the handling of the first of them. */
  function RoundPlan(w: World, c: Call, plan: Plan): Plan
    requires plan.fallbacks != []
  {
    w.desk(plan.(destinations := plan.fallbacks), plan.fallbacks, c.number, OfExtension(plan.fallbacks[0]))
  }

  function RoundTargets(w: World, c: Call, plan: Plan): seq<Target>
    requires plan.fallbacks != []
  {
    TargetsApart(w, RoundPlan(w, c, plan).destinations, c.number)
  }

  /** The round rings: its legs join those that rang before, its first is the device of the call, and only its own legs lead to the call. */
  ghost predicate RoundRings(s: State, w: World, id: CallId, plan: Plan, t: State, legs: seq<Leg>)
    requires id in s.core.calls && plan.fallbacks != []
  {
    var c := s.core.calls[id];
    && legs != [] && RoundIs(s, t, w, |s.log|, id, RoundTargets(w, c, plan), legs) && t.sessions == s.sessions
    && Writes(s.core, t.core, id,
              c.(status := RingingFallback, employee := legs[0].channel, extension := legs[0].extension, rung := c.rung + legs),
              [Entry(id, FallbackRound), Entry(id, EmployeeRinging)])
    && (forall x :: x in t.legIndex <==> (x in s.legIndex || x in Channels(legs)) && x !in Channels(c.Legs()))
    && forall x :: x in t.legIndex ==> t.legIndex[x] == if x in Channels(legs) then id else s.legIndex[x]
  }

  /** No device of the round can be rung: the first fallback desk answers for the call, and its last resort follows. */
  predicate RoundIsEmpty(s: State, w: World, id: CallId, plan: Plan, u: State, t: State)
    requires id in s.core.calls && s.core.calls[id].customer.Some? && plan.fallbacks != []
  {
    var c := s.core.calls[id];
    && RoundIs(s, u, w, |s.log|, id, RoundTargets(w, c, plan), []) && u == s.(core := u.core, log := u.log)
    && Writes(s.core, u.core, id, c.(extension := plan.fallbacks[0], status := RingingFallback), [Entry(id, FallbackRound)])
    && LastResort(u, w, id, RoundPlan(w, c, plan), t)
  }

  ghost predicate FallsBack(s: State, w: World, id: CallId, plan: Plan, t: State)
    requires id in s.core.calls && s.core.calls[id].customer.Some? && plan.fallbacks != []
  {
    (exists legs :: RoundRings(s, w, id, plan, t, legs)) || exists u :: RoundIsEmpty(s, w, id, plan, u, t)
  }

  lemma {:induction false} OnlyRungAreIndexed(s: State, w: World, id: CallId, targets: seq<Target>, numbering: Numbering, legs: seq<Leg>)
    ensures var r := RingEach(s, w, id, targets, numbering, legs);
            && legs <= r.legs && (forall x :: x in r.state.legIndex <==> x in s.legIndex || x in Channels(r.legs[|legs|..]))
            && forall x :: x in r.state.legIndex ==> r.state.legIndex[x] == if x in Channels(r.legs[|legs|..]) then id else s.legIndex[x]
    decreases |targets|
  {
    if targets != [] {
      var t := targets[0];
      var channel := Employee(id, LegNumber(numbering, |legs|, t.index));
      var asked := Ask(s, Originate(channel, t.endpoint));
      var r := RingEach(s, w, id, targets, numbering, legs);
      if ReplyTo(s, w, Originate(channel, t.endpoint)).Done? {
        var longer := legs + [Leg(channel, t.extension)];
        OnlyRungAreIndexed(asked.(legIndex := asked.legIndex[channel := id]), w, id, targets[1..], numbering, longer);
        assert r.legs[|legs|..] == [Leg(channel, t.extension)] + r.legs[|longer|..];
        ChannelsAdd(Leg(channel, t.extension), r.legs[|longer|..]);
      } else {
        OnlyRungAreIndexed(asked, w, id, targets[1..], numbering, legs);
      }
    }
  }

  lemma ChannelsAdd(leg: Leg, legs: seq<Leg>)
    ensures Channels([leg] + legs) == [leg.channel] + Channels(legs)
  {}

  lemma RoundIsGone(s: State, w: World, id: CallId, plan: Plan)
    requires id in s.core.calls && Waiting(s.core.calls[id]) && MayFallBack(s, id) && plan.fallbacks != []
    ensures FallsBack(s, w, id, plan, RingFallbacks(s, w, id, plan).state)
  {
    hide TargetsApart, RingEach, NoAnswer, RoundIs, LastResort, Channels, Forget;
    var c, next, targets := s.core.calls[id], RoundPlan(w, s.core.calls[id], plan), RoundTargets(w, s.core.calls[id], plan);
    var round := RingEach(s, w, id, targets, ByRound, []);
    FallbackRoundIs(s, w, id, targets, [], |s.log|);
    OnlyRungAreIndexed(s, w, id, targets, ByRound, []);
    assert round.legs[0..] == round.legs;
    var t := RingFallbacks(s, w, id, plan).state;
    if round.legs == [] {
      var u := round.state.(core := Save(s.core, id, c.(extension := plan.fallbacks[0], status := RingingFallback), FallbackRound));
      LastResortIs(u, w, id, next);
      NobodyIsIndexed(s.legIndex, round.state.legIndex);
      SameRound(s, round.state, u, w, id, targets, []);
      assert RoundIsEmpty(s, w, id, plan, u, t);
    } else {
      ForgetIs(round.state.legIndex, Channels(c.Legs()));
      SameRound(s, round.state, t, w, id, targets, round.legs);
      assert s.core.trace + [Entry(id, FallbackRound)] + [Entry(id, EmployeeRinging)] == s.core.trace + [Entry(id, FallbackRound), Entry(id, EmployeeRinging)];
      assert RoundRings(s, w, id, plan, t, round.legs);
    }
  }

  lemma SameRound(s: State, t: State, u: State, w: World, id: CallId, targets: seq<Target>, legs: seq<Leg>)
    requires RoundIs(s, t, w, |s.log|, id, targets, legs) && t.log == u.log
    ensures RoundIs(s, u, w, |s.log|, id, targets, legs)
  {}

  lemma ForgetIs(legIndex: map<Channel, CallId>, channels: seq<Channel>)
    ensures forall x :: x in Forget(legIndex, channels) <==> x in legIndex && x !in channels
    ensures forall x :: x in Forget(legIndex, channels) ==> Forget(legIndex, channels)[x] == legIndex[x]
  {}

  lemma NobodyIsIndexed(a: map<Channel, CallId>, b: map<Channel, CallId>)
    requires (forall x :: x in b <==> x in a) && forall x :: x in b ==> b[x] == a[x]
    ensures a == b
  {}

  /** The whole no-answer path of a caller who still waits: one round when one is due, and the last resort otherwise. */
  ghost predicate NobodyAnswered(s: State, w: World, id: CallId, plan: Plan, t: State)
    requires id in s.core.calls && s.core.calls[id].customer.Some?
  {
    var status := s.core.calls[id].status;
    if status != RingingFallback && status != Forwarding && plan.fallbacks != [] then FallsBack(s, w, id, plan, t)
    else LastResort(s, w, id, plan, t)
  }

  lemma NoAnswerOutcome(s: State, w: World, id: CallId, plan: Plan)
    requires id in s.core.calls && Waiting(s.core.calls[id])
    ensures NobodyAnswered(s, w, id, plan, NoAnswer(s, w, id, plan).state)
  {
    hide RingFallbacks, LastResort, FallsBack, Voicemail, Missed, Forward;
    if MayFallBack(s, id) && plan.fallbacks != [] { RoundIsGone(s, w, id, plan); } else { LastResortIs(s, w, id, plan); }
  }

  // ---------------------------------------------------------------- the last leg is gone

  /** Another leg of the call is still listed as alive. */
  predicate AnotherRings(s: State, w: World, c: Call, channel: Channel) {
    ReplyTo(s, w, ListChannels).Done? && exists l :: l in ReplyTo(s, w, ListChannels).live && l.channel != channel && l.channel in Channels(c.Legs())
  }

  lemma AnotherRingsIff(s: State, w: World, id: CallId, c: Call, channel: Channel)
    ensures StillRinging(s, w, id, c, channel, true) != [] <==> AnotherRings(s, w, c, channel)
  {
    var legs, alive := Channels(c.Legs()), Alive(s, w);
    var still := StillRinging(s, w, id, c, channel, true);
    assert still == Only(legs, x => x != channel && x in Alive(s, w));
    OnlyKeeps(legs, x => x != channel && x in Alive(s, w));
    if still != [] {
      assert still[0] in still;
      var i :| 0 <= i < |alive| && alive[i] == still[0];
      assert ReplyTo(s, w, ListChannels).live[i] in ReplyTo(s, w, ListChannels).live;
    }
    if AnotherRings(s, w, c, channel) {
      var live := ReplyTo(s, w, ListChannels).live;
      var i :| 0 <= i < |live| && live[i].channel != channel && live[i].channel in legs;
      assert alive[i] == live[i].channel;
      assert live[i].channel in still;
    }
  }

  /** What is remembered of a channel that is gone. */
  function Rid(s: State, channel: Channel): State { s.(sessions := s.sessions - {channel}, legIndex := s.legIndex - {channel}) }

  /** The journey of the number as it stands, under the desk's handling once a menu or a round has chosen a desk. */
  function PlanNow(w: World, c: Call): Plan {
    var journey := w.journey(c.number, c.extension);
    if journey.menu || c.status == RingingFallback then w.desk(journey, [c.extension], c.number, OfExtension(c.extension)) else journey
  }

  /**
   * A device of a waiting caller is gone: while another of its legs is listed alive nothing is written and
   * nothing more is asked; after the last one, or when Asterisk lists none, the no-answer path runs.
   */
  lemma LastLegOutcome(s: State, w: World, id: CallId, channel: Channel)
    requires CoreOk(s.core, None) && CallForChannel(s, channel) == Some(id) && Unanswered(s.core, id)
    requires channel in Channels(s.core.calls[id].Legs()) || channel == s.core.calls[id].employee
    ensures var c, t := s.core.calls[id], Handle(s, w, Gone(channel)).state;
            var listed := Ask(Rid(s, channel), ListChannels);
            && c.customer.Some?
            && if AnotherRings(s, w, c, channel) then t == listed else NobodyAnswered(listed, w, id, PlanNow(w, c), t)
  {
    hide CoreOk, CallForChannel, NoAnswer, StillRinging, AnotherRings, NobodyAnswered, Channels;
    UnansweredFacts(s.core, id);
    var c := s.core.calls[id];
    var left := Rid(s, channel);
    AnotherRingsIff(left, w, id, c, channel);
    assert AnotherRings(left, w, c, channel) <==> AnotherRings(s, w, c, channel) by { SameListing(s, left, w, c, channel); }
    NoAnswerOutcome(Ask(left, ListChannels), w, id, PlanNow(w, c));
    assert Handle(s, w, Gone(channel)) == HandleGone(s, w, channel) == RungOut(left, w, id, channel, true);
  }

  lemma SameListing(s: State, t: State, w: World, c: Call, channel: Channel)
    requires s.log == t.log
    ensures AnotherRings(t, w, c, channel) <==> AnotherRings(s, w, c, channel)
  {}

  /** A panel call's employee is gone before anybody answered: the call fails exactly when none of its other devices rings. */
  lemma PanelLegOutcome(s: State, w: World, id: CallId, channel: Channel)
    requires CoreOk(s.core, None) && CallForChannel(s, channel) == Some(id)
    requires !s.core.calls[id].inbound && !s.core.calls[id].answered && !s.core.calls[id].Over()
    requires channel in Channels(s.core.calls[id].Legs()) || channel == s.core.calls[id].employee
    ensures var c, t := s.core.calls[id], Handle(s, w, Gone(channel)).state;
            if AnotherRings(s, w, c, channel) then t == Ask(Rid(s, channel), ListChannels)
            else
              && id in t.core.calls && t.core.calls[id].status == Failed && t.core.calls[id].endedAt == Some(w.now)
              && Follows(s, t) && HangsUpOwned(New(s, t), c, None)
  {
    hide CoreOk, CallForChannel, StillRinging, AnotherRings, Channels, HangupCallChannels, Finalize, Forget, HangsUpOwned, NeverHangsUp, CallEndings.TearsDown;
    OverIsEnded(s.core, id);
    KeptAt(s.core, id, None);
    var c := s.core.calls[id];
    var left := Rid(s, channel);
    AnotherRingsIff(left, w, id, c, channel);
    SameListing(s, left, w, c, channel);
    var listed := Ask(left, ListChannels);
    var quiet := listed.(legIndex := Forget(listed.legIndex, Channels(c.Legs())));
    var hung := HangupCallChannels(quiet, w, id, c, Some(channel));
    HangupCallChannelsAsks(quiet, w, id, c, Some(channel));
    CallEndings.FinalizeEndsIff(hung, w, id, None);
    FinalizeHangsUpAllButKept(hung, w, id, None);
    assert Handle(s, w, Gone(channel)) == HandleGone(s, w, channel) == RungOut(left, w, id, channel, true);
    assert CallEndings.TearsDown(w, CallEndings.Before(hung, w, id, None), id, c) by { NothingToTearDown(w, CallEndings.Before(hung, w, id, None), id, c); }
    var t := Finalize(hung, w, id, None).state;
    NewThen(s, hung, t);
    LateIsStillAll(New(s, hung), New(hung, t), c, None);
  }

  lemma NothingToTearDown(w: World, n: nat, id: CallId, c: Call)
    requires !c.named && !c.bridged
    ensures CallEndings.TearsDown(w, n, id, c)
  {}
}
