/** Replacing a stretch of an nginx text: how the parsed blocks change.

    A splice replaces the `was` blocks from index `n` on by `now` others, and moves every later position
    from `source` to `target`. The laws say that the parser, run on the new text, finds exactly that. */
module NginxSplice {
  import opened Wrappers
  import opened NginxLexer
  import opened NginxBlocks

  datatype Splice = Splice(n: nat, was: nat, now: nat, source: nat, target: nat) {
    /** Where a block index goes. */
    function Index(i: nat): nat {
      if i < n + was then i else i - was + now
    }

    function OptionalIndex(i: Option<nat>): Option<nat> {
      match i
      case None => None
      case Some(k) => Some(Index(k))
    }

    /** Where a position that starts something goes. */
    function At(x: int): (y: int)
      ensures x >= 0 ==> y >= 0
    {
      if x >= source then x - source + target else x
    }

    /** Where a position that ends something goes. */
    function After(x: int): (y: int)
      ensures x >= 0 ==> y >= 0
    {
      if x > source then x - source + target else x
    }

    function Moved(b: Block): Block {
      Block(b.header, At(b.start), After(b.opening), At(b.closing), After(b.end), OptionalIndex(b.parent), b.directives)
    }

    function MovedAll(bs: seq<Block>): (r: seq<Block>)
      ensures |r| == |bs| && forall i :: 0 <= i < |bs| ==> r[i] == Moved(bs[i])
    {
      seq(|bs|, i requires 0 <= i < |bs| => Moved(bs[i]))
    }

    /** The blocks of the new text, from those of the old text and the new ones. */
    function Apply(found: seq<Block>, added: seq<Block>): seq<Block>
      requires n + was <= |found|
    {
      MovedAll(found[..n]) + added + MovedAll(found[n + was..])
    }

    // -------------------------------------------------------------- running both texts side by side

    ghost predicate Kept(i: nat) {
      i < n || n + was <= i
    }

    /** Machine `b` on the new text stands where machine `a` stands on the old one. */
    ghost predicate Mirrors(a: Machine, b: Machine, added: seq<Block>) {
      && n + was <= |a.found| && |added| == now && |b.found| == |a.found| - was + now
      && (forall i :: 0 <= i < |a.found| && Kept(i) ==> b.found[Index(i)] == Moved(a.found[i]))
      && b.found[n..n + now] == added
      && |b.stack| == |a.stack|
      && (forall k :: 0 <= k < |a.stack| ==>
            a.stack[k] < |a.found| && Kept(a.stack[k]) && b.stack[k] == Index(a.stack[k]))
    }

    /** The pending words are the same words, met at the moved positions. */
    predicate SameWords(a: Machine, b: Machine) {
      && Values(a.pending) == Values(b.pending)
      && (a.pending != [] ==> a.pending[0].start >= source && b.pending[0].start == At(a.pending[0].start))
    }

    ghost predicate Simulates(a: Machine, b: Machine, added: seq<Block>) {
      Mirrors(a, b, added) && SameWords(a, b) && a.Ok() && b.Ok()
    }

    lemma TopsMatch(a: Machine, b: Machine, added: seq<Block>)
      requires Mirrors(a, b, added)
      ensures b.Top() == OptionalIndex(a.Top())
      ensures a.stack == [] <==> b.stack == []
      ensures a.stack != [] ==>
                var i := a.stack[|a.stack| - 1];
                i < |a.found| && Kept(i) && b.stack[|b.stack| - 1] == Index(i) < |b.found|
                && b.found[Index(i)] == Moved(a.found[i])
    {
    }

    /** Changing one kept block on both sides keeps the mirror. */
    lemma UpdateMirrors(a: Machine, b: Machine, added: seq<Block>, i: nat, x: Block)
      requires Mirrors(a, b, added) && i < |a.found| && Kept(i)
      ensures Mirrors(a.(found := a.found[i := x]), b.(found := b.found[Index(i) := Moved(x)]), added)
    {
      var a', b' := a.(found := a.found[i := x]), b.(found := b.found[Index(i) := Moved(x)]);
      assert b'.found[n..n + now] == added by {
        assert forall k :: n <= k < n + now ==> b'.found[k] == b.found[k];
        assert forall k :: 0 <= k < now ==> b.found[n..n + now][k] == added[k];
      }
      forall k | 0 <= k < |a.found| && Kept(k)
        ensures b'.found[Index(k)] == Moved(a'.found[k])
      {
        assert b.found[Index(k)] == Moved(a.found[k]);
      }
    }

    lemma OpenedSimulates(a: Machine, b: Machine, added: seq<Block>, t: Token)
      requires Simulates(a, b, added) && Opens(t)
      ensures Opened(a, t.Shifted(source)).Some? <==> Opened(b, t.Shifted(target)).Some?
      ensures Opened(a, t.Shifted(source)).Some? && t.start < t.end ==>
                Simulates(Opened(a, t.Shifted(source)).value, Opened(b, t.Shifted(target)).value, added)
    {
      if a.pending == [] {
        assert Values(b.pending) == [];
      } else {
        TopsMatch(a, b, added);
        assert |Values(b.pending)| > 0;
        var a', b' := Opened(a, t.Shifted(source)).value, Opened(b, t.Shifted(target)).value;
        var k := |a.found|;
        if t.start < t.end {
          assert b'.found[Index(k)] == Moved(a'.found[k]);
          assert b'.found[n..n + now] == b.found[n..n + now];
        }
      }
    }

    lemma ClosedSimulates(a: Machine, b: Machine, added: seq<Block>, t: Token)
      requires Simulates(a, b, added) && Closes(t) && t.start < t.end
      ensures Closed(a, t.Shifted(source)).Some? <==> Closed(b, t.Shifted(target)).Some?
      ensures Closed(a, t.Shifted(source)).Some? ==>
                Simulates(Closed(a, t.Shifted(source)).value, Closed(b, t.Shifted(target)).value, added)
    {
      hide Mirrors;
      EmptyWords(a, b);
      TopsMatch(a, b, added);
      if a.stack != [] && a.pending == [] {
        var i := a.stack[|a.stack| - 1];
        var x := a.found[i].(closing := t.start + source, end := t.end + source);
        UpdateMirrors(a, b, added, i, x);
        MovedClosed(a.found[i], t.start, t.end);
        PopMirrors(a.(found := a.found[i := x]), b.(found := b.found[Index(i) := Moved(x)]), added);
      }
    }

    lemma EmptyWords(a: Machine, b: Machine)
      requires SameWords(a, b)
      ensures a.pending == [] <==> b.pending == []
    {
      assert a.pending == [] <==> Values(a.pending) == [];
      assert b.pending == [] <==> Values(b.pending) == [];
    }

    lemma MovedClosed(x: Block, lo: nat, hi: nat)
      requires lo < hi
      ensures Moved(x.(closing := lo + source, end := hi + source)) == Moved(x).(closing := lo + target, end := hi + target)
    {
    }

    lemma PopMirrors(a: Machine, b: Machine, added: seq<Block>)
      requires Mirrors(a, b, added) && a.stack != []
      ensures Mirrors(a.(stack := a.stack[..|a.stack| - 1], pending := []), b.(stack := b.stack[..|b.stack| - 1], pending := []), added)
    {
    }

    lemma EndedSimulates(a: Machine, b: Machine, added: seq<Block>)
      requires Simulates(a, b, added)
      ensures Simulates(Ended(a), Ended(b), added)
    {
      if a.stack != [] {
        TopsMatch(a, b, added);
        var i := a.stack[|a.stack| - 1];
        var x := a.found[i].(directives := a.found[i].directives + [Values(a.pending)]);
        UpdateMirrors(a, b, added, i, x);
      }
    }

    lemma WordSimulates(a: Machine, b: Machine, added: seq<Block>, t: Token)
      requires Simulates(a, b, added)
      ensures Simulates(a.(pending := a.pending + [t.Shifted(source)]), b.(pending := b.pending + [t.Shifted(target)]), added)
    {
      var p, q := a.pending + [t.Shifted(source)], b.pending + [t.Shifted(target)];
      assert Values(p) == Values(a.pending) + [t.value];
      assert Values(q) == Values(b.pending) + [t.value];
      assert a.pending == [] <==> Values(a.pending) == [];
      assert b.pending == [] <==> Values(b.pending) == [];
    }

    lemma FeedSimulates(a: Machine, b: Machine, added: seq<Block>, t: Token)
      requires Simulates(a, b, added) && t.start < t.end
      ensures Feed(a, t.Shifted(source)).Some? <==> Feed(b, t.Shifted(target)).Some?
      ensures Feed(a, t.Shifted(source)).Some? ==>
                Simulates(Feed(a, t.Shifted(source)).value, Feed(b, t.Shifted(target)).value, added)
    {
      hide Mirrors, SameWords, Opened, Closed, Ended;
      if Opens(t) {
        OpenedSimulates(a, b, added, t);
      } else if Closes(t) {
        ClosedSimulates(a, b, added, t);
      } else if Ends(t) {
        EndedSimulates(a, b, added);
      } else {
        WordSimulates(a, b, added, t);
      }
    }

    lemma {:induction false} FeedAllSimulates(a: Machine, b: Machine, added: seq<Block>, ts: seq<Token>)
      requires Simulates(a, b, added)
      requires forall i :: 0 <= i < |ts| ==> ts[i].start < ts[i].end
      ensures FeedAll(a, ShiftAll(ts, source)).Some? <==> FeedAll(b, ShiftAll(ts, target)).Some?
      ensures FeedAll(a, ShiftAll(ts, source)).Some? ==>
                Simulates(FeedAll(a, ShiftAll(ts, source)).value, FeedAll(b, ShiftAll(ts, target)).value, added)
      decreases |ts|
    {
      hide Mirrors, SameWords, Feed;
      if ts != [] {
        FeedSimulates(a, b, added, ts[0]);
        assert ShiftAll(ts, source)[1..] == ShiftAll(ts[1..], source);
        assert ShiftAll(ts, target)[1..] == ShiftAll(ts[1..], target);
        if Feed(a, ts[0].Shifted(source)).Some? {
          FeedAllSimulates(Feed(a, ts[0].Shifted(source)).value, Feed(b, ts[0].Shifted(target)).value, added, ts[1..]);
        }
      }
    }

    /** A mirrored result is the applied splice. */
    lemma MirrorIsApply(a: Machine, b: Machine, added: seq<Block>)
      requires Simulates(a, b, added)
      ensures b.found == Apply(a.found, added)
      ensures (a.stack == [] <==> b.stack == []) && (a.pending == [] <==> b.pending == [])
    {
      assert a.pending == [] <==> Values(a.pending) == [];
      assert b.pending == [] <==> Values(b.pending) == [];
      var r := Apply(a.found, added);
      forall i | 0 <= i < |b.found|
        ensures b.found[i] == r[i]
      {
        if i < n {
          assert b.found[Index(i)] == Moved(a.found[i]);
        } else if i < n + now {
          assert b.found[i] == b.found[n..n + now][i - n];
        } else {
          var j := i - now + was;
          assert b.found[Index(j)] == Moved(a.found[j]);
          assert a.found[n + was..][j - n - was] == a.found[j];
        }
      }
    }

    /** The rest of the text, read behind either stretch, finishes alike. */
    lemma RestIsSpliced(a: Machine, b: Machine, added: seq<Block>, ts: seq<Token>)
      requires Simulates(a, b, added)
      requires forall i :: 0 <= i < |ts| ==> ts[i].start < ts[i].end
      requires Finished(FeedAll(a, ShiftAll(ts, source))).Some?
      ensures n + was <= |Finished(FeedAll(a, ShiftAll(ts, source))).value|
      ensures Finished(FeedAll(b, ShiftAll(ts, target))) == Some(Apply(Finished(FeedAll(a, ShiftAll(ts, source))).value, added))
    {
      hide FeedAll, SameWords;
      FeedAllSimulates(a, b, added, ts);
      MirrorIsApply(FeedAll(a, ShiftAll(ts, source)).value, FeedAll(b, ShiftAll(ts, target)).value, added);
    }
  }

  // ---------------------------------------------------------------- a text read inside another

  function Lifted(b: Block, base: nat, top: Option<nat>, d: nat): Block {
    Block(b.header, b.start + d, b.opening + d,
          if b.closing < 0 then b.closing else b.closing + d, if b.end < 0 then b.end else b.end + d,
          match b.parent case None => top case Some(p) => Some(p + base), b.directives)
  }

  function LiftedAll(bs: seq<Block>, base: nat, top: Option<nat>, d: nat): (r: seq<Block>)
    ensures |r| == |bs| && forall i :: 0 <= i < |bs| ==> r[i] == Lifted(bs[i], base, top, d)
  {
    seq(|bs|, i requires 0 <= i < |bs| => Lifted(bs[i], base, top, d))
  }

  function LiftedStack(stack: seq<nat>, base: nat): (r: seq<nat>)
    ensures |r| == |stack| && forall i :: 0 <= i < |stack| ==> r[i] == stack[i] + base
  {
    seq(|stack|, i requires 0 <= i < |stack| => stack[i] + base)
  }

  /** Machine `m`, run from the start of its own text, as it stands inside `outer`. */
  function Lift(m: Machine, outer: Machine, d: nat): Machine {
    Machine(outer.found + LiftedAll(m.found, |outer.found|, outer.Top(), d),
            outer.stack + LiftedStack(m.stack, |outer.found|),
            ShiftAll(m.pending, d))
  }

  /** No directive ends outside the blocks of these tokens. */
  predicate KeepsInside(m: Machine, ts: seq<Token>)
    requires m.Ok()
    decreases |ts|
  {
    ts != [] ==>
      && (m.stack != [] || !Ends(ts[0]))
      && Feed(m, ts[0]).Some?
      && KeepsInside(Feed(m, ts[0]).value, ts[1..])
  }

  lemma LiftIsOk(m: Machine, outer: Machine, d: nat)
    requires m.Ok() && outer.Ok()
    ensures Lift(m, outer, d).Ok()
    ensures m.stack != [] ==> Lift(m, outer, d).Top() == Some(m.stack[|m.stack| - 1] + |outer.found|)
    ensures m.stack == [] ==> Lift(m, outer, d).Top() == outer.Top()
  {
  }

  lemma LiftUpdate(m: Machine, outer: Machine, d: nat, i: nat, x: Block)
    requires i < |m.found|
    ensures Lift(m.(found := m.found[i := x]), outer, d).found
         == Lift(m, outer, d).found[|outer.found| + i := Lifted(x, |outer.found|, outer.Top(), d)]
  {
  }

  lemma LiftValues(ts: seq<Token>, d: nat)
    ensures Values(ShiftAll(ts, d)) == Values(ts)
  {
  }

  lemma LiftGrows(bs: seq<Block>, x: Block, stack: seq<nat>, k: nat, base: nat, top: Option<nat>, d: nat)
    ensures LiftedAll(bs + [x], base, top, d) == LiftedAll(bs, base, top, d) + [Lifted(x, base, top, d)]
    ensures LiftedStack(stack + [k], base) == LiftedStack(stack, base) + [k + base]
  {
  }

  lemma LiftOpened(m: Machine, outer: Machine, d: nat, t: Token)
    requires m.Ok() && outer.Ok() && Opened(m, t).Some?
    ensures Opened(Lift(m, outer, d), t.Shifted(d)) == Some(Lift(Opened(m, t).value, outer, d))
  {
    hide LiftedAll, LiftedStack;
    LiftIsOk(m, outer, d);
    LiftValues(m.pending, d);
    var x := Block(Values(m.pending), m.pending[0].start, t.end, -1, -1, m.Top(), []);
    LiftGrows(m.found, x, m.stack, |m.found|, |outer.found|, outer.Top(), d);
    var l, r := Opened(Lift(m, outer, d), t.Shifted(d)).value, Lift(Opened(m, t).value, outer, d);
    assert l.found == r.found;
    assert l.stack == r.stack;
  }

  lemma LiftClosed(m: Machine, outer: Machine, d: nat, t: Token)
    requires m.Ok() && outer.Ok() && Closed(m, t).Some?
    ensures Lift(m, outer, d).Ok()
    ensures Closed(Lift(m, outer, d), t.Shifted(d)) == Some(Lift(Closed(m, t).value, outer, d))
  {
    LiftIsOk(m, outer, d);
    var i := m.stack[|m.stack| - 1];
    LiftUpdate(m, outer, d, i, m.found[i].(closing := t.start, end := t.end));
    var l, r := Closed(Lift(m, outer, d), t.Shifted(d)).value, Lift(Closed(m, t).value, outer, d);
    assert l.found == r.found;
    assert l.stack == r.stack;
    assert l.pending == r.pending;
  }

  lemma LiftEnded(m: Machine, outer: Machine, d: nat)
    requires m.Ok() && outer.Ok() && m.stack != []
    ensures Lift(m, outer, d).Ok()
    ensures Ended(Lift(m, outer, d)) == Lift(Ended(m), outer, d)
  {
    LiftIsOk(m, outer, d);
    LiftValues(m.pending, d);
    var i := m.stack[|m.stack| - 1];
    LiftUpdate(m, outer, d, i, m.found[i].(directives := m.found[i].directives + [Values(m.pending)]));
    var l, r := Ended(Lift(m, outer, d)), Lift(Ended(m), outer, d);
    assert l.found == r.found;
    assert l.stack == r.stack;
    assert l.pending == r.pending;
  }

  lemma LiftWord(m: Machine, outer: Machine, d: nat, t: Token)
    ensures Lift(m, outer, d).(pending := Lift(m, outer, d).pending + [t.Shifted(d)])
         == Lift(m.(pending := m.pending + [t]), outer, d)
  {
    assert ShiftAll(m.pending, d) + [t.Shifted(d)] == ShiftAll(m.pending + [t], d);
  }

  lemma LiftFeed(m: Machine, outer: Machine, d: nat, t: Token)
    requires m.Ok() && outer.Ok() && Feed(m, t).Some? && (m.stack != [] || !Ends(t))
    ensures Lift(m, outer, d).Ok()
    ensures Feed(Lift(m, outer, d), t.Shifted(d)) == Some(Lift(Feed(m, t).value, outer, d))
  {
    hide Lift, Opened, Closed, Ended;
    LiftIsOk(m, outer, d);
    if Opens(t) {
      LiftOpened(m, outer, d, t);
    } else if Closes(t) {
      LiftClosed(m, outer, d, t);
    } else if Ends(t) {
      LiftEnded(m, outer, d);
    } else {
      LiftWord(m, outer, d, t);
    }
  }

  /** A text whose directives all lie in its own blocks parses inside any other as it parses alone. */
  lemma {:induction false} LiftFeedAll(m: Machine, outer: Machine, d: nat, ts: seq<Token>)
    requires m.Ok() && outer.Ok() && KeepsInside(m, ts)
    ensures FeedAll(m, ts).Some? && Lift(m, outer, d).Ok()
    ensures FeedAll(Lift(m, outer, d), ShiftAll(ts, d)) == Some(Lift(FeedAll(m, ts).value, outer, d))
    decreases |ts|
  {
    hide Lift, Feed;
    LiftIsOk(m, outer, d);
    if ts != [] {
      LiftFeed(m, outer, d, ts[0]);
      assert ShiftAll(ts, d)[1..] == ShiftAll(ts[1..], d);
      LiftFeedAll(Feed(m, ts[0]).value, outer, d, ts[1..]);
    }
  }
}
