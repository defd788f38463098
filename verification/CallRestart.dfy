/** What a restarted worker makes of each call it finds, from what Asterisk lists as alive. */
module CallRestart {
  import opened Wrappers
  import opened CallRecords
  import opened CallSteps
  import opened CallInvariants
  import opened CallLaws
  import opened CallOutcomes
  import opened CallPickUps
  import opened CallRecovery
  import CallRecordings

  /** The last line of a listing that names a channel. */
  predicate LastLine(live: seq<Live>, channel: Channel, i: int) {
    0 <= i < |live| && live[i].channel == channel && forall j :: i < j < |live| ==> live[j].channel != channel
  }

  /** That line alone says whether the channel is up. */
  lemma {:induction false} LastLineCounts(live: seq<Live>, channel: Channel)
    ensures forall i :: LastLine(live, channel, i) ==> StateIn(live, channel) == Some(live[i].up)
    ensures StateIn(live, channel).Some? ==> exists i :: LastLine(live, channel, i)
  {
    if live != [] {
      var last, shorter := |live| - 1, live[..|live| - 1];
      LastLineCounts(shorter, channel);
      if live[last].channel == channel {
        assert LastLine(live, channel, last);
      } else {
        forall i | LastLine(live, channel, i) ensures LastLine(shorter, channel, i) {}
        if i :| LastLine(shorter, channel, i) { assert LastLine(live, channel, i); }
      }
    }
  }

  // ---------------------------------------------------------------- one call

  predicate Unended(c: Call) { !c.Over() && c.endedAt.None? }

  /** The far side is dialled from the n-th request on, unless the number is out of service. */
  predicate DialsFarSide(w: World, n: nat, id: CallId, c: Call, d: Call) {
    var targets := FarTargets(w, c);
    if w.route(c.phone).OutOfService? then d == c.(status := Failed, endedAt := Some(w.now))
    else
      && d.employee == c.employee && d.customer == Some(Customer(id, 0))
      && (d.status == Failed <==> !AnyPlaced(w, n, id, targets, 0) && !w.reply(n + |targets|, Hangup(c.employee)).Unreachable?)
      && (d.status != Failed ==> d.status == DialingCustomer)
  }

  /** The two sides are joined from the n-th request on, or are joined already; either way the call is answered. */
  predicate JoinsSides(w: World, n: nat, id: CallId, c: Call, d: Call)
    requires c.customer.Some?
  {
    if !c.bridged then JoinedNow(w, n, id, c.employee, c.customer.value, d)
    else d == if c.answered then c else c.(status := Answered, answered := true, answeredAt := Some(w.now))
  }

  /**
   * A call without a live side fails now; one whose employee is up and that has no far side yet dials it; one
   * with both sides alive and the far side up is joined; any other is left as it was.
   */
  predicate RecoveredAt(w: World, n: nat, id: CallId, live: seq<Live>, c: Call, d: Call) {
    var employee := StateIn(live, c.employee);
    var customer := if c.customer.Some? then StateIn(live, c.customer.value) else None;
    if !Unended(c) then d == c
    else if employee.None? && customer.None? then d == c.(status := Failed, endedAt := Some(w.now))
    else if employee == Some(true) && c.customer.None? then DialsFarSide(w, n, id, c, d)
    else if employee.Some? && customer == Some(true) then JoinsSides(w, n, id, c, d)
    else d == c
  }

  lemma AnsweredIsBridged(core: Core, id: CallId)
    requires CoreOk(core, None) && id in core.calls && Unended(core.calls[id])
    ensures !core.calls[id].bridged ==> !core.calls[id].answered
  {
    KeptAt(core, id, None);
  }

  lemma JoinsAt(s: State, w: World, id: CallId)
    requires CoreOk(s.core, None) && id in s.core.calls && Unended(s.core.calls[id]) && s.core.calls[id].customer.Some?
    ensures var t := Join(s, w, id).state; id in t.core.calls && JoinsSides(w, |s.log|, id, s.core.calls[id], t.core.calls[id])
  {
    hide StartBridge, JoinedNow, CoreOk, Joins;
    AnsweredIsBridged(s.core, id);
    if s.core.calls[id].bridged { BridgedAlready(s, w, id); } else { JoinOutcome(s, w, id); }
  }

  lemma RecoverOneRecovers(s: State, w: World, live: seq<Live>, id: CallId)
    requires CoreOk(s.core, None) && id in s.core.calls
    ensures var t := RecoverOne(s, w, live, id).state; id in t.core.calls && RecoveredAt(w, |s.log|, id, live, s.core.calls[id], t.core.calls[id])
  {
    hide CoreOk, Join, StartCustomer, StateIn, Register, AnyPlaced, JoinsSides;
    var c := s.core.calls[id];
    var known := s.(legIndex := Register(s.legIndex, Channels(c.Legs()), id));
    if Unended(c) {
      if c.customer.Some? { JoinsAt(known, w, id); }
      else {
        CustomerOutcome(known, w, id);
        CustomerKeepsEmployee(known, w, id);
      }
    }
  }

  /** The legs of an unended call are entered, and nothing else of the leg index changes. */
  lemma RecoverOneRegisters(s: State, w: World, live: seq<Live>, id: CallId)
    ensures var t := RecoverOne(s, w, live, id).state;
            t.legIndex == if id in s.core.calls && Unended(s.core.calls[id]) then Register(s.legIndex, Channels(s.core.calls[id].Legs()), id) else s.legIndex
  {
    hide HangupCallChannels, BuildBridge, PlaceEach, CancelEach, StateIn, Register, Put, Save, Note;
  }

  // ---------------------------------------------------------------- the whole table

  /** What became of one call, at some point of the sweep. */
  ghost predicate Recovered(w: World, from: nat, id: CallId, live: seq<Live>, c: Call, d: Call) {
    exists n: nat :: from <= n && RecoveredAt(w, n, id, live, c, d)
  }

  /** An unended call has this channel as a leg. */
  ghost predicate LegOfUnended(core: Core, ids: seq<CallId>, channel: Channel, id: CallId) {
    id in ids && id in core.calls && Unended(core.calls[id]) && channel in Channels(core.calls[id].Legs())
  }

  lemma {:induction false} RecoverEachRecovers(s: State, w: World, live: seq<Live>, ids: seq<CallId>)
    requires CoreOk(s.core, None) && forall i, j :: 0 <= i < j < |ids| ==> ids[i] != ids[j]
    requires RecoverEach(s, w, live, ids).ok
    ensures var t := RecoverEach(s, w, live, ids).state;
            && t.core.calls.Keys == s.core.calls.Keys && |s.log| <= |t.log|
            && (forall id :: id in s.core.calls && id in ids ==> Recovered(w, |s.log|, id, live, s.core.calls[id], t.core.calls[id]))
            && (forall id :: id in s.core.calls && id !in ids ==> t.core.calls[id] == s.core.calls[id])
    decreases |ids|
  {
    if ids != [] {
      hide CoreOk, RecoverOne, RecoveredAt;
      var last, rest := ids[|ids| - 1], ids[..|ids| - 1];
      var next := RecoverOne(s, w, live, last).state;
      RecoverOneKeepsLive(s, w, live, last);
      RecoverOneKeeps(s, w, live, last);
      RecoverOneAsks(s, w, live, last);
      if last in s.core.calls { RecoverOneRecovers(s, w, live, last); }
      RecoverEachRecovers(next, w, live, rest);
      var t := RecoverEach(s, w, live, ids).state;
      assert ids == rest + [last] && last !in rest;
      forall id | id in s.core.calls && id in ids ensures Recovered(w, |s.log|, id, live, s.core.calls[id], t.core.calls[id]) {
        if id != last { LaterRecovered(w, |s.log|, |next.log|, id, live, s.core.calls[id], t.core.calls[id]); }
      }
    }
  }

  lemma LaterRecovered(w: World, from: nat, later: nat, id: CallId, live: seq<Live>, c: Call, d: Call)
    requires from <= later && Recovered(w, later, id, live, c, d)
    ensures Recovered(w, from, id, live, c, d)
  {}

  lemma RecoverOneAsks(s: State, w: World, live: seq<Live>, id: CallId)
    ensures |s.log| <= |RecoverOne(s, w, live, id).state.log|
  {
    CallRecordings.RecoverOneFollows(s, w, live, id);
  }

  /** The index leads to the unended calls whose legs it names, besides what it held before. */
  ghost predicate Registered(core: Core, ids: seq<CallId>, before: map<Channel, CallId>, after: map<Channel, CallId>) {
    && (forall x :: x in after <==> x in before || exists id :: LegOfUnended(core, ids, x, id))
    && (forall x :: x in after ==> LegOfUnended(core, ids, x, after[x]) || (x in before && after[x] == before[x]))
  }

  lemma {:induction false} RecoverEachRegisters(s: State, w: World, live: seq<Live>, ids: seq<CallId>)
    requires CoreOk(s.core, None) && forall i, j :: 0 <= i < j < |ids| ==> ids[i] != ids[j]
    requires RecoverEach(s, w, live, ids).ok
    ensures Registered(s.core, ids, s.legIndex, RecoverEach(s, w, live, ids).state.legIndex)
    decreases |ids|
  {
    if ids != [] {
      hide CoreOk, RecoverOne, Registered, LegOfUnended, Register;
      var last, rest := ids[|ids| - 1], ids[..|ids| - 1];
      var next := RecoverOne(s, w, live, last).state;
      RecoverOneKeepsLive(s, w, live, last);
      RecoverOneKeeps(s, w, live, last);
      RecoverOneRegisters(s, w, live, last);
      RecoverEachRegisters(next, w, live, rest);
      assert ids == rest + [last] && last !in rest;
      OthersAsBefore(s.core, next.core, rest, last);
      SameRegistered(s.core, next.core, rest, next.legIndex, RecoverEach(next, w, live, rest).state.legIndex);
      OneMoreRegistered(s.core, rest, last, s.legIndex, next.legIndex, RecoverEach(next, w, live, rest).state.legIndex);
    } else {
      NothingRegistered(s.core, s.legIndex);
    }
  }

  lemma NothingRegistered(core: Core, f: map<Channel, CallId>)
    ensures Registered(core, [], f, f)
  {}

  lemma SameRegistered(a: Core, b: Core, rest: seq<CallId>, f: map<Channel, CallId>, g: map<Channel, CallId>)
    requires forall x, id :: LegOfUnended(b, rest, x, id) <==> LegOfUnended(a, rest, x, id)
    requires Registered(b, rest, f, g)
    ensures Registered(a, rest, f, g)
  {
    hide LegOfUnended;
  }

  lemma OneMoreRegistered(core: Core, rest: seq<CallId>, last: CallId, f: map<Channel, CallId>, g: map<Channel, CallId>, h: map<Channel, CallId>)
    requires g == if last in core.calls && Unended(core.calls[last]) then Register(f, Channels(core.calls[last].Legs()), last) else f
    requires Registered(core, rest, g, h)
    ensures Registered(core, rest + [last], f, h)
  {
    hide Channels, Registered;
    var ids := rest + [last];
    RegisterIs(f, last, if last in core.calls && Unended(core.calls[last]) then Channels(core.calls[last].Legs()) else []);
    assert forall x, id :: LegOfUnended(core, ids, x, id) <==> LegOfUnended(core, rest, x, id) || (id == last && LegOfUnended(core, [last], x, id));
    assert forall x :: x in g <==> x in f || LegOfUnended(core, [last], x, last);
    assert forall x :: x in g ==> (LegOfUnended(core, [last], x, last) && g[x] == last) || (x in f && g[x] == f[x]);
    Merge(core, rest, last, f, g, h);
  }

  lemma RegisterIs(f: map<Channel, CallId>, id: CallId, channels: seq<Channel>)
    ensures forall x :: x in Register(f, channels, id) <==> x in f || x in channels
    ensures forall x :: x in Register(f, channels, id) ==> Register(f, channels, id)[x] == if x in channels then id else f[x]
  {}

  lemma Merge(core: Core, rest: seq<CallId>, last: CallId, f: map<Channel, CallId>, g: map<Channel, CallId>, h: map<Channel, CallId>)
    requires Registered(core, rest, g, h)
    requires forall x, id :: LegOfUnended(core, rest + [last], x, id) <==> LegOfUnended(core, rest, x, id) || (id == last && LegOfUnended(core, [last], x, id))
    requires forall x :: x in g <==> x in f || LegOfUnended(core, [last], x, last)
    requires forall x :: x in g ==> (LegOfUnended(core, [last], x, last) && g[x] == last) || (x in f && g[x] == f[x])
    ensures Registered(core, rest + [last], f, h)
  {
    hide LegOfUnended;
    forall x ensures x in h <==> x in f || exists id :: LegOfUnended(core, rest + [last], x, id) {
      if id :| LegOfUnended(core, rest, x, id) { assert LegOfUnended(core, rest + [last], x, id); }
      if LegOfUnended(core, [last], x, last) { assert LegOfUnended(core, rest + [last], x, last); }
    }
  }

  lemma OthersAsBefore(a: Core, b: Core, rest: seq<CallId>, last: CallId)
    requires Touches(a, b, last) && last !in rest
    ensures forall x, id :: LegOfUnended(b, rest, x, id) <==> LegOfUnended(a, rest, x, id)
  {}

  /** The state a recovery goes over, once recordings are reconciled and the live channels are read. */
  function Listed(s: State, w: World): State { Ask(ReconcileEach(s.(legIndex := map[], sessions := map[]), w, s.core.order), ListChannels) }

  /**
   * A restart that reads the live channels and is not cut short leaves every call as its live sides say, finds
   * exactly the legs of the unended calls, and has forgotten every menu.
   */
  lemma RestartRecovers(s: State, w: World, id: CallId)
    requires Sane(s) && id in s.core.calls && Listing(s, w).Done? && Handle(s, w, Restart).ok
    ensures var t, before := Handle(s, w, Restart).state, Listed(s, w);
            && t.sessions == map[] && id in before.core.calls && id in t.core.calls
            && before.core.calls[id] == s.core.calls[id].(recording := before.core.calls[id].recording)
            && Recovered(w, |before.log|, id, Listing(s, w).live, before.core.calls[id], t.core.calls[id])
            && Registered(before.core, before.core.order, map[], t.legIndex)
  {
    hide CoreOk, ReconcileEach, RecoverEach, StateIn, SessionsOk, Recovered, Registered, Sane;
    SaneParts(s);
    var bare := s.(legIndex := map[], sessions := map[]);
    ReconcileKeepsSides(bare, w, s.core.order);
    ReconcileKeeps(bare, w, s.core.order);
    EveryCallIsListed(Listed(s, w).core);
    ReconcileLeaves(bare, w, s.core.order);
    RecoverEachRecovers(Listed(s, w), w, Listing(s, w).live, Listed(s, w).core.order);
    RecoverEachRegisters(Listed(s, w), w, Listing(s, w).live, Listed(s, w).core.order);
    RecoverLeaves(Listed(s, w), w, Listing(s, w).live, Listed(s, w).core.order);
  }

  lemma {:induction false} ReconcileLeaves(s: State, w: World, ids: seq<CallId>)
    ensures var t := ReconcileEach(s, w, ids); t.legIndex == s.legIndex && t.sessions == s.sessions
    decreases |ids|
  {
    if ids != [] { ReconcileLeaves(ReconcileOne(s, w, ids[|ids| - 1]), w, ids[..|ids| - 1]); }
  }

  lemma {:induction false} RecoverLeaves(s: State, w: World, live: seq<Live>, ids: seq<CallId>)
    ensures RecoverEach(s, w, live, ids).state.sessions == s.sessions
    decreases |ids|
  {
    if ids != [] {
      var next := RecoverOne(s, w, live, ids[|ids| - 1]);
      RecoverOneLeaves(s, w, live, ids[|ids| - 1]);
      hide RecoverOne;
      if next.ok { RecoverLeaves(next.state, w, live, ids[..|ids| - 1]); }
    }
  }

  lemma RecoverOneLeaves(s: State, w: World, live: seq<Live>, id: CallId)
    ensures RecoverOne(s, w, live, id).state.sessions == s.sessions
  {
    hide HangupCallChannels, BuildBridge, PlaceEach, CancelEach, StateIn, Register, Put, Save, Note;
  }
}
