/** Where, among the tokens, a block is opened and closed. */
module NginxParts {
  import opened Wrappers
  import opened NginxLexer
  import opened NginxLexerLaws
  import opened NginxBlocks

  lemma FollowingTail(ts: seq<Token>, hi: nat)
    requires Following(ts, hi) && ts != []
    ensures Following(ts[1..], ts[0].end)
  {
  }

  lemma FeedAllPrefix(m: Machine, ts: seq<Token>, k: nat)
    requires m.Ok() && k < |ts| && Feed(m, ts[0]).Some?
    ensures FeedAll(m, ts[..k + 1]) == FeedAll(Feed(m, ts[0]).value, ts[1..][..k])
  {
    hide Feed;
    assert ts[..k + 1][1..] == ts[1..][..k];
  }

  /** The token that closes block `v`: there `v` is the innermost open block and no word is pending. */
  lemma {:induction false} CloserOf(m: Machine, hi: nat, ts: seq<Token>, v: nat) returns (c: nat)
    requires Shape(m, hi) && Following(ts, hi) && FeedAll(m, ts).Some?
    requires v < |m.found| ==> Open(m.found[v])
    requires v < |FeedAll(m, ts).value.found| && !Open(FeedAll(m, ts).value.found[v])
    ensures c < |ts| && Closes(ts[c]) && FeedAll(m, ts[..c]).Some?
    ensures var mc, b := FeedAll(m, ts[..c]).value, FeedAll(m, ts).value.found[v];
            && mc.stack != [] && mc.stack[|mc.stack| - 1] == v && mc.pending == []
            && b.closing == ts[c].start && b.end == ts[c].end
    decreases |ts|
  {
    hide Spans, Parents, StackIsOpen, Waiting, Feed, FeedAll;
    if ts == [] {
      FeedAllNone(m);
      assert false;
    }
    FeedAllStep(m, ts);
    FeedKeepsShape(m, hi, ts[0]);
    FollowingTail(ts, hi);
    var m1 := Feed(m, ts[0]).value;
    FeedAllIsLater(m1, ts[0].end, ts[1..]);
    if v < |m1.found| && !Open(m1.found[v]) {
      c := 0;
      FeedAllNone(m);
      ClosedHere(m, hi, ts[0], v);
      assert Matures(m1.found[v], FeedAll(m, ts).value.found[v], ts[0].end);
    } else {
      var c' := CloserOf(m1, ts[0].end, ts[1..], v);
      c := c' + 1;
      FeedAllPrefix(m, ts, c');
    }
  }

  lemma FeedAllNone(m: Machine)
    requires m.Ok()
    ensures FeedAll(m, []) == Some(m)
  {
  }

  lemma ClosedHere(m: Machine, hi: nat, t: Token, v: nat)
    requires Shape(m, hi) && Feed(m, t).Some?
    requires v < |m.found| ==> Open(m.found[v])
    requires v < |Feed(m, t).value.found| && !Open(Feed(m, t).value.found[v])
    ensures Closes(t) && m.stack != [] && m.stack[|m.stack| - 1] == v && m.pending == []
    ensures var b := Feed(m, t).value.found[v]; b.closing == t.start && b.end == t.end
  {
    hide Spans, Parents, Waiting;
  }

  /** The token that opens block `v`. */
  lemma {:induction false} OpenerOf(m: Machine, ts: seq<Token>, v: nat) returns (o: nat)
    requires m.Ok() && FeedAll(m, ts).Some?
    requires |m.found| <= v < |FeedAll(m, ts).value.found|
    ensures o < |ts| && Opens(ts[o]) && FeedAll(m, ts[..o]).Some?
    ensures |FeedAll(m, ts[..o]).value.found| == v
    decreases |ts|
  {
    hide Feed, FeedAll;
    if ts == [] {
      FeedAllNone(m);
      assert false;
    }
    FeedAllStep(m, ts);
    FeedAllNone(m);
    GrowsByOne(m, ts[0]);
    var m1 := Feed(m, ts[0]).value;
    if v < |m1.found| {
      o := 0;
    } else {
      var o' := OpenerOf(m1, ts[1..], v);
      o := o' + 1;
      FeedAllPrefix(m, ts, o');
    }
  }

  lemma GrowsByOne(m: Machine, t: Token)
    requires m.Ok() && Feed(m, t).Some?
    ensures var m' := Feed(m, t).value;
            if Opens(t) then |m'.found| == |m.found| + 1 else |m'.found| == |m.found|
  {
  }

  predicate IsWord(t: Token) {
    !Opens(t) && !Closes(t) && !Ends(t)
  }

  /** The pending words are the last tokens read, and nothing else happened since they began. */
  ghost predicate WordsAreTail(ts: seq<Token>, m: Machine) {
    && m.Ok() && |m.pending| <= |ts| && m.pending == ts[|ts| - |m.pending|..]
    && FeedAll(START, ts[..|ts| - |m.pending|]) == Some(m.(pending := []))
    && forall i :: 0 <= i < |m.pending| ==> IsWord(m.pending[i])
  }

  lemma NoWordsIsTail(ts: seq<Token>, m: Machine)
    requires FeedAll(START, ts) == Some(m) && m.pending == []
    ensures WordsAreTail(ts, m)
  {
    hide FeedAll;
    assert ts[..|ts|] == ts;
    assert m.(pending := []) == m;
  }

  lemma OneMoreWordIsTail(ts: seq<Token>, m: Machine, t: Token)
    requires WordsAreTail(ts, m) && IsWord(t)
    ensures WordsAreTail(ts + [t], m.(pending := m.pending + [t]))
  {
    hide FeedAll;
    var us, k := ts + [t], |ts| - |m.pending|;
    assert us[k..] == ts[k..] + [t] && us[..k] == ts[..k];
  }

  lemma {:induction false} PendingIsTail(ts: seq<Token>)
    requires FeedAll(START, ts).Some?
    ensures WordsAreTail(ts, FeedAll(START, ts).value)
    decreases |ts|
  {
    hide FeedAll, Opened, Closed, Ended, WordsAreTail;
    FeedAllNone(START);
    if ts == [] {
      NoWordsIsTail(ts, START);
    } else {
      var ts', t := ts[..|ts| - 1], ts[|ts| - 1];
      assert ts == ts' + [t];
      FeedAllSum(START, ts', [t]);
      var m := FeedAll(START, ts').value;
      FeedOne(m, t);
      if IsWord(t) {
        PendingIsTail(ts');
        OneMoreWordIsTail(ts', m, t);
      } else {
        LeavesNoWords(m, t);
        EndedHasNoWords(m);
        NoWordsIsTail(ts, FeedAll(START, ts).value);
      }
    }
  }

  lemma EndedHasNoWords(m: Machine)
    requires m.Ok()
    ensures Ended(m).pending == []
  {
  }

  /** While block `x` stays open, the stack below it and the blocks before it do not change. */
  lemma {:induction false} WhileOpen(m: Machine, hi: nat, ts: seq<Token>, below: seq<nat>, x: nat)
    requires Shape(m, hi) && Following(ts, hi) && FeedAll(m, ts).Some?
    requires below + [x] <= m.stack && x in FeedAll(m, ts).value.stack
    ensures below + [x] <= FeedAll(m, ts).value.stack
    ensures x <= |m.found| && x <= |FeedAll(m, ts).value.found|
    ensures FeedAll(m, ts).value.found[..x] == m.found[..x]
    decreases |ts|
  {
    hide Spans, Parents, StackIsOpen, Waiting, Feed, FeedAll, Later;
    FeedAllNone(m);
    InStack(m, hi, below, x);
    if ts != [] {
      FeedAllStep(m, ts);
      FeedKeepsShape(m, hi, ts[0]);
      FollowingTail(ts, hi);
      GrowsByOne(m, ts[0]);
      var m1 := Feed(m, ts[0]).value;
      FeedAllKeepsShape(m1, ts[0].end, ts[1..]);
      FeedAllIsLater(m1, ts[0].end, ts[1..]);
      StillOpen(m1, ts[0].end, FeedAll(m, ts).value, LastEnd(ts[1..], ts[0].end), x);
      FeedBelow(m, hi, ts[0], below, x);
      WhileOpen(m1, ts[0].end, ts[1..], below, x);
    }
  }

  lemma InStack(m: Machine, hi: nat, below: seq<nat>, x: nat)
    requires Shape(m, hi) && below + [x] <= m.stack
    ensures x < |m.found| && x in m.stack && Open(m.found[x])
  {
    assert m.stack[|below|] == x;
  }

  lemma StillOpen(m: Machine, hi: nat, m': Machine, hi': nat, x: nat)
    requires StackIsOpen(m) && Shape(m', hi') && Later(m, m', hi) && x in m'.stack && x < |m.found|
    ensures x in m.stack
  {
    assert Open(m'.found[x]) && Matures(m.found[x], m'.found[x], hi);
  }

  lemma FeedBelow(m: Machine, hi: nat, t: Token, below: seq<nat>, x: nat)
    requires Shape(m, hi) && below + [x] <= m.stack && Feed(m, t).Some?
    requires x < |m.found| && x in Feed(m, t).value.stack
    ensures below + [x] <= Feed(m, t).value.stack
    ensures Feed(m, t).value.found[..x] == m.found[..x] && x < |Feed(m, t).value.found|
  {
    var top := m.stack[|m.stack| - 1];
    assert m.stack[|below|] == x;
    assert x <= top;
    assert x !in m.stack[..|below|];
  }
}
