/** The legs a call rings: which devices they are, how they are named, and that the engine can find them again. */
module CallLegs {
  import opened Wrappers
  import opened CallRecords
  import opened CallSteps

  /** Every leg a round made is found again by its channel, and is one of this call's own. */
  lemma {:induction false} RungLegsAreIndexed(s: State, w: World, id: CallId, targets: seq<Target>, numbering: Numbering, legs: seq<Leg>)
    requires forall leg :: leg in legs ==> leg.channel in s.legIndex && s.legIndex[leg.channel] == id
    ensures var r := RingEach(s, w, id, targets, numbering, legs);
            && (forall leg :: leg in r.legs ==> leg.channel in r.state.legIndex && r.state.legIndex[leg.channel] == id)
            && legs <= r.legs
            && (forall i :: |legs| <= i < |r.legs| ==> r.legs[i].channel.Employee? && r.legs[i].channel.call == id)
    decreases |targets|
  {
    if targets != [] {
      var t := targets[0];
      var channel := Employee(id, LegNumber(numbering, |legs|, t.index));
      var asked := Ask(s, Originate(channel, t.endpoint));
      if ReplyTo(s, w, Originate(channel, t.endpoint)).Done? {
        RungLegsAreIndexed(asked.(legIndex := asked.legIndex[channel := id]), w, id, targets[1..], numbering, legs + [Leg(channel, t.extension)]);
      } else {
        RungLegsAreIndexed(asked, w, id, targets[1..], numbering, legs);
      }
    }
  }

  /** The places of the targets, in order, are larger than any place before them. */
  predicate Climbing(targets: seq<Target>, first: nat) {
    && (forall i :: 0 <= i < |targets| ==> targets[i].index >= first)
    && (forall i, j :: 0 <= i < j < |targets| ==> targets[i].index < targets[j].index)
  }

  lemma {:induction false} ThroughClimbs(w: World, destinations: seq<string>, number: string, first: nat)
    ensures Climbing(TargetsThrough(w, destinations, number, first), first)
    decreases |destinations|
  {
    if destinations != [] {
      var targets := TargetsOf(destinations[0], w.endpoints(destinations[0], number), first);
      ThroughClimbs(w, destinations[1..], number, first + |targets|);
    }
  }

  predicate NamesDiffer(legs: seq<Leg>) { forall i, j :: 0 <= i < j < |legs| ==> legs[i].channel != legs[j].channel }

  /** Legs numbered by place never share a name. */
  lemma {:induction false} PlacedLegsDiffer(s: State, w: World, id: CallId, targets: seq<Target>, legs: seq<Leg>, first: nat)
    requires Climbing(targets, first) && NamesDiffer(legs)
    requires forall leg :: leg in legs ==> leg.channel.Employee? && leg.channel.index < first
    ensures NamesDiffer(RingEach(s, w, id, targets, ByPlace, legs).legs)
    decreases |targets|
  {
    if targets != [] {
      var t := targets[0];
      var channel := Employee(id, t.index);
      var asked := Ask(s, Originate(channel, t.endpoint));
      assert Climbing(targets[1..], t.index + 1);
      if ReplyTo(s, w, Originate(channel, t.endpoint)).Done? {
        PlacedLegsDiffer(asked.(legIndex := asked.legIndex[channel := id]), w, id, targets[1..], legs + [Leg(channel, t.extension)], t.index + 1);
      } else {
        PlacedLegsDiffer(asked, w, id, targets[1..], legs, t.index + 1);
      }
    }
  }

  /** The first round of an incoming call rings every device under a name of its own. */
  lemma FirstRoundLegsDiffer(s: State, w: World, id: CallId, destinations: seq<string>, number: string)
    ensures NamesDiffer(RingEach(s, w, id, TargetsThrough(w, destinations, number, 0), ByPlace, []).legs)
  {
    ThroughClimbs(w, destinations, number, 0);
    PlacedLegsDiffer(s, w, id, TargetsThrough(w, destinations, number, 0), [], 0);
  }

  lemma {:induction false} LegsAre(s: State, w: World, id: CallId, targets: seq<Target>, legs: seq<Leg>)
    requires forall n: nat, r: Request :: w.reply(n, r).Done?
    ensures var r := RingEach(s, w, id, targets, ByRound, legs).legs;
            && |r| == |legs| + |targets| && legs <= r
            && forall i :: 0 <= i < |targets| ==> r[|legs| + i].channel == Employee(id, 10 + |legs| + i + targets[i].index)
    decreases |targets|
  {
    if targets != [] {
      var t := targets[0];
      var channel := Employee(id, 10 + |legs| + t.index);
      var asked := Ask(s, Originate(channel, t.endpoint));
      var longer := legs + [Leg(channel, t.extension)];
      LegsAre(asked.(legIndex := asked.legIndex[channel := id]), w, id, targets[1..], longer);
      var r := RingEach(s, w, id, targets, ByRound, legs).legs;
      forall i | 0 <= i < |targets| ensures r[|legs| + i].channel == Employee(id, 10 + |legs| + i + targets[i].index) {
        if i > 0 { assert targets[1..][i - 1] == targets[i]; } else { assert r[|legs|] == longer[|legs|]; }
      }
    }
  }

  /**
   * A fallback round in which everything rings names two legs alike exactly when two targets agree on their
   * place in the round plus their place in their own desk.
   */
  lemma FallbackNamesClashIff(s: State, w: World, id: CallId, targets: seq<Target>)
    requires forall n: nat, r: Request :: w.reply(n, r).Done?
    ensures NamesDiffer(RingEach(s, w, id, targets, ByRound, []).legs) <==>
            forall i, j :: 0 <= i < j < |targets| ==> i + targets[i].index != j + targets[j].index
  {
    hide RingEach, NamesDiffer;
    LegsAre(s, w, id, targets, []);
    var r := RingEach(s, w, id, targets, ByRound, []).legs;
    forall i | 0 <= i < |targets| ensures r[i].channel == Employee(id, 10 + i + targets[i].index) { assert r[0 + i] == r[i]; }
    NumbersDiffer(r, id, targets);
  }

  lemma NumbersDiffer(legs: seq<Leg>, id: CallId, targets: seq<Target>)
    requires |legs| == |targets|
    requires forall i :: 0 <= i < |targets| ==> legs[i].channel == Employee(id, 10 + i + targets[i].index)
    ensures NamesDiffer(legs) <==> forall i, j :: 0 <= i < j < |targets| ==> i + targets[i].index != j + targets[j].index
  {}

  /** So a desk on two endpoints followed by another desk already makes two legs of one name. */
  lemma TwoEndpointsThenOneClash(s: State, w: World, id: CallId, first: string, second: string, a: string, b: string, c: string)
    requires forall n: nat, r: Request :: w.reply(n, r).Done?
    ensures !NamesDiffer(RingEach(s, w, id, TargetsOf(first, [a, b], 0) + TargetsOf(second, [c], 0), ByRound, []).legs)
  {
    var targets := TargetsOf(first, [a, b], 0) + TargetsOf(second, [c], 0);
    FallbackNamesClashIff(s, w, id, targets);
    assert 1 + targets[1].index == 2 + targets[2].index;
  }
}
