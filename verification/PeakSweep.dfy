/** The most calls in progress at once, found by sweeping over their starts and ends. */
module PeakSweep {

  datatype Interval = Interval(start: int, end: int)

  /** A call begins or ends at some instant. */
  datatype Edge = Edge(at: int, begins: bool)

  function Delta(e: Edge): int { if e.begins then 1 else -1 }

  /** Earlier edges first, and at one instant beginnings before ends. */
  predicate Precedes(a: Edge, b: Edge) { a.at < b.at || (a.at == b.at && (a.begins || !b.begins)) }

  predicate Sorted(s: seq<Edge>) { forall i, j :: 0 <= i < j < |s| ==> Precedes(s[i], s[j]) }

  function Insert(e: Edge, s: seq<Edge>): seq<Edge> {
    if s == [] then [e] else if Precedes(e, s[0]) then [e] + s else [s[0]] + Insert(e, s[1..])
  }

  function Sort(s: seq<Edge>): seq<Edge> { if s == [] then [] else Insert(s[0], Sort(s[1..])) }

  /** The two edges of every call. */
  function Edges(calls: seq<Interval>): seq<Edge> {
    if calls == [] then [] else [Edge(calls[0].start, true), Edge(calls[0].end, false)] + Edges(calls[1..])
  }

  predicate Contains(c: Interval, t: int) { c.start <= t <= c.end }

  /** How many calls are in progress at an instant, both ends counted. */
  function InProgress(calls: seq<Interval>, t: int): nat {
    if calls == [] then 0 else (if Contains(calls[0], t) then 1 else 0) + InProgress(calls[1..], t)
  }

  function Live(s: seq<Edge>): int { if s == [] then 0 else Live(s[..|s| - 1]) + Delta(s[|s| - 1]) }

  /** This edge has happened by the time all calls beginning at `t` are in progress and none ending then has left. */
  predicate Happened(e: Edge, t: int) { e.at < t || (e.at == t && e.begins) }

  function LiveAt(s: seq<Edge>, t: int): int {
    if s == [] then 0 else (if Happened(s[0], t) then Delta(s[0]) else 0) + LiveAt(s[1..], t)
  }

  /** The sweep's peak: the highest running count, and zero before the first edge. */
  function Highest(s: seq<Edge>): int {
    if s == [] then 0 else
      var before, now := Highest(s[..|s| - 1]), Live(s);
      if now > before then now else before
  }

  /** Sort the edges and sweep over them. */
  method Peak(calls: seq<Interval>) returns (peak: int)
    ensures peak == Highest(Sort(Edges(calls)))
    ensures (forall c :: c in calls ==> c.start <= c.end) ==>
              (forall t :: InProgress(calls, t) <= peak) && (calls != [] ==> exists t :: InProgress(calls, t) == peak)
    ensures calls == [] ==> peak == 0
  {
    var edges := Sort(Edges(calls));
    var live := 0;
    peak := 0;
    for i := 0 to |edges|
      invariant live == Live(edges[..i]) && peak == Highest(edges[..i])
    {
      assert edges[..i + 1][..i] == edges[..i] && edges[..i + 1][i] == edges[i];
      live := live + Delta(edges[i]);
      peak := if live > peak then live else peak;
    }
    assert edges[..|edges|] == edges;
    if forall c :: c in calls ==> c.start <= c.end { PeakIsTheMaximum(calls); }
  }

  // ---------------------------------------------------------------- sorting

  lemma {:induction false} InsertSorts(e: Edge, s: seq<Edge>)
    requires Sorted(s)
    ensures Sorted(Insert(e, s)) && forall x :: x in Insert(e, s) <==> x == e || x in s
  {
    if s != [] {
      assert s == [s[0]] + s[1..];
      if !Precedes(e, s[0]) {
        InsertSorts(e, s[1..]);
        var rest := Insert(e, s[1..]);
        forall i | 0 <= i < |rest| ensures Precedes(s[0], rest[i]) {
          assert rest[i] in rest;
          if rest[i] != e { var j :| 0 <= j < |s[1..]| && s[1..][j] == rest[i]; }
        }
      } else {
        forall i | 0 <= i < |s| ensures Precedes(e, s[i]) {}
      }
    }
  }

  lemma {:induction false} SortSorts(s: seq<Edge>)
    ensures Sorted(Sort(s))
  {
    if s != [] {
      SortSorts(s[1..]);
      InsertSorts(s[0], Sort(s[1..]));
    }
  }

  lemma {:induction false} InsertCounts(e: Edge, s: seq<Edge>, t: int)
    ensures LiveAt(Insert(e, s), t) == (if Happened(e, t) then Delta(e) else 0) + LiveAt(s, t)
  {
    if s != [] && !Precedes(e, s[0]) {
      InsertCounts(e, s[1..], t);
      assert ([s[0]] + Insert(e, s[1..]))[1..] == Insert(e, s[1..]);
    } else {
      assert ([e] + s)[1..] == s;
    }
  }

  lemma {:induction false} SortCounts(s: seq<Edge>, t: int)
    ensures LiveAt(Sort(s), t) == LiveAt(s, t)
  {
    if s != [] {
      SortCounts(s[1..], t);
      InsertCounts(s[0], Sort(s[1..]), t);
    }
  }

  // ---------------------------------------------------------------- counting

  /** Counting edges that have happened is counting the closed intervals that contain the instant. */
  lemma {:induction false} EdgesCount(calls: seq<Interval>, t: int)
    requires forall c :: c in calls ==> c.start <= c.end
    ensures LiveAt(Edges(calls), t) == InProgress(calls, t)
  {
    if calls != [] {
      EdgesCount(calls[1..], t);
      var first, rest := [Edge(calls[0].start, true), Edge(calls[0].end, false)], Edges(calls[1..]);
      assert (first + rest)[1..] == [first[1]] + rest && ([first[1]] + rest)[1..] == rest;
      assert calls[0] in calls;
    }
  }

  lemma {:induction false} LiveTogether(a: seq<Edge>, b: seq<Edge>)
    ensures Live(a + b) == Live(a) + Live(b)
    decreases |b|
  {
    if b == [] {
      assert a + b == a;
    } else {
      LiveTogether(a, b[..|b| - 1]);
      assert (a + b)[..|a + b| - 1] == a + b[..|b| - 1];
    }
  }

  lemma {:induction false} LiveAtTogether(a: seq<Edge>, b: seq<Edge>, t: int)
    ensures LiveAt(a + b, t) == LiveAt(a, t) + LiveAt(b, t)
  {
    if a == [] {
      assert a + b == b;
    } else {
      LiveAtTogether(a[1..], b, t);
      assert (a + b)[1..] == a[1..] + b;
    }
  }

  lemma {:induction false} AllHappened(s: seq<Edge>, t: int)
    requires forall i :: 0 <= i < |s| ==> Happened(s[i], t)
    ensures LiveAt(s, t) == Live(s)
  {
    if s != [] {
      AllHappened(s[1..], t);
      LiveTogether([s[0]], s[1..]);
      assert s == [s[0]] + s[1..] && [s[0]][..0] == [];
      assert Live([s[0]]) == Delta(s[0]);
    }
  }

  lemma {:induction false} NoneHappened(s: seq<Edge>, t: int)
    requires forall i :: 0 <= i < |s| ==> !Happened(s[i], t)
    ensures LiveAt(s, t) == 0
  {
    if s != [] { NoneHappened(s[1..], t); }
  }

  lemma {:induction false} OnlyBeginnings(s: seq<Edge>, t: int)
    requires forall i :: 0 <= i < |s| && Happened(s[i], t) ==> s[i].begins
    ensures LiveAt(s, t) >= 0
  {
    if s != [] { OnlyBeginnings(s[1..], t); }
  }

  // ---------------------------------------------------------------- the sweep meets every instant

  /** In sorted order the edges that have happened come first; `k` is how many there are. */
  lemma {:induction false} HappenedIsAPrefix(s: seq<Edge>, t: int) returns (k: nat)
    requires Sorted(s)
    ensures k <= |s| && (forall i :: 0 <= i < k ==> Happened(s[i], t)) && (forall i :: k <= i < |s| ==> !Happened(s[i], t))
  {
    k := 0;
    while k < |s| && Happened(s[k], t)
      invariant k <= |s| && forall i :: 0 <= i < k ==> Happened(s[i], t)
    {
      k := k + 1;
    }
  }

  lemma {:induction false} HighestBounds(s: seq<Edge>, k: nat)
    requires k <= |s|
    ensures Live(s[..k]) <= Highest(s)
    decreases |s|
  {
    if k < |s| {
      HighestBounds(s[..|s| - 1], k);
      assert s[..|s| - 1][..k] == s[..k];
    } else {
      assert s[..k] == s;
    }
  }

  /** No instant has more calls in progress than the peak. */
  lemma NoInstantIsHigher(calls: seq<Interval>, t: int)
    requires forall c :: c in calls ==> c.start <= c.end
    ensures InProgress(calls, t) <= Highest(Sort(Edges(calls)))
  {
    var s := Sort(Edges(calls));
    SortSorts(Edges(calls));
    SortCounts(Edges(calls), t);
    EdgesCount(calls, t);
    var k := HappenedIsAPrefix(s, t);
    assert s == s[..k] + s[k..];
    LiveAtTogether(s[..k], s[k..], t);
    AllHappened(s[..k], t);
    NoneHappened(s[k..], t);
    HighestBounds(s, k);
  }

  /** The running count after a beginning is no more than the calls in progress at that instant. */
  lemma BeginningIsCovered(s: seq<Edge>, k: nat)
    requires Sorted(s) && k < |s| && s[k].begins
    ensures Live(s[..k + 1]) <= LiveAt(s, s[k].at)
  {
    var t := s[k].at;
    assert s == s[..k + 1] + s[k + 1..];
    LiveAtTogether(s[..k + 1], s[k + 1..], t);
    AllHappened(s[..k + 1], t);
    var rest := s[k + 1..];
    forall i | 0 <= i < |rest| && Happened(rest[i], t) ensures rest[i].begins {
      assert rest[i] == s[k + 1 + i] && Precedes(s[k], s[k + 1 + i]);
    }
    OnlyBeginnings(rest, t);
  }

  /** A positive peak is reached just after some beginning. */
  lemma {:induction false} HighestIsABeginning(s: seq<Edge>) returns (k: nat)
    requires Highest(s) > 0
    ensures k < |s| && s[k].begins && Live(s[..k + 1]) == Highest(s)
    decreases |s|
  {
    var shorter := s[..|s| - 1];
    HighestBounds(shorter, |shorter|);
    assert shorter[..|shorter|] == shorter;
    if Live(s) > Highest(shorter) {
      k := |s| - 1;
      assert s[..k + 1] == s;
    } else {
      k := HighestIsABeginning(shorter);
      assert shorter[..k + 1] == s[..k + 1];
    }
  }

  /** The peak is the maximum, over all instants, of the number of calls in progress. */
  lemma PeakIsTheMaximum(calls: seq<Interval>)
    requires forall c :: c in calls ==> c.start <= c.end
    ensures forall t :: InProgress(calls, t) <= Highest(Sort(Edges(calls)))
    ensures calls != [] ==> exists t :: InProgress(calls, t) == Highest(Sort(Edges(calls)))
  {
    var s := Sort(Edges(calls));
    forall t ensures InProgress(calls, t) <= Highest(s) { NoInstantIsHigher(calls, t); }
    if calls != [] {
      var first := calls[0].start;
      assert Contains(calls[0], first) && InProgress(calls, first) >= 1;
      var k := HighestIsABeginning(s);
      SortSorts(Edges(calls));
      BeginningIsCovered(s, k);
      SortCounts(Edges(calls), s[k].at);
      EdgesCount(calls, s[k].at);
    }
  }
}
