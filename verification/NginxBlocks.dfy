/** The block parser of scripts/install-softphone-proxy.py: a stack machine over the tokens.

    A block is named by its position in the list of found blocks, which is the order of the opening braces. */
module NginxBlocks {
  import opened Wrappers
  import opened NginxLexer
  import opened NginxLexerLaws

  /** `closing` and `end` are -1 while the block is open. */
  datatype Block = Block(
    header: seq<string>, start: nat, opening: nat, closing: int, end: int,
    parent: Option<nat>, directives: seq<seq<string>>)

  datatype Machine = Machine(found: seq<Block>, stack: seq<nat>, pending: seq<Token>) {
    /** The open blocks are found blocks. */
    predicate Ok() {
      forall k :: 0 <= k < |stack| ==> stack[k] < |found|
    }

    function Top(): Option<nat> {
      TopOf(stack)
    }
  }

  const START := Machine([], [], [])

  function TopOf(stack: seq<nat>): Option<nat> {
    if stack == [] then None else Some(stack[|stack| - 1])
  }

  function Values(ts: seq<Token>): (vs: seq<string>)
    ensures |vs| == |ts|
    ensures forall i :: 0 <= i < |ts| ==> vs[i] == ts[i].value
  {
    seq(|ts|, i requires 0 <= i < |ts| => ts[i].value)
  }

  predicate Opens(t: Token) { t.punctuation && t.value == "{" }
  predicate Closes(t: Token) { t.punctuation && t.value == "}" }
  predicate Ends(t: Token) { t.punctuation && t.value == ";" }

  function Opened(m: Machine, t: Token): Option<Machine> {
    if m.pending == [] then None
    else
      var b := Block(Values(m.pending), m.pending[0].start, t.end, -1, -1, m.Top(), []);
      Some(Machine(m.found + [b], m.stack + [|m.found|], []))
  }

  function Closed(m: Machine, t: Token): Option<Machine>
    requires m.Ok()
  {
    if m.stack == [] || m.pending != [] then None
    else
      var top := m.stack[|m.stack| - 1];
      Some(Machine(m.found[top := m.found[top].(closing := t.start, end := t.end)], m.stack[..|m.stack| - 1], []))
  }

  function Ended(m: Machine): Machine
    requires m.Ok()
  {
    if m.stack == [] then m.(pending := [])
    else
      var top := m.stack[|m.stack| - 1];
      var b := m.found[top];
      Machine(m.found[top := b.(directives := b.directives + [Values(m.pending)])], m.stack, [])
  }

  function Feed(m: Machine, t: Token): (r: Option<Machine>)
    requires m.Ok()
    ensures r.Some? ==> r.value.Ok()
  {
    if Opens(t) then Opened(m, t)
    else if Closes(t) then Closed(m, t)
    else if Ends(t) then Some(Ended(m))
    else Some(m.(pending := m.pending + [t]))
  }

  function FeedAll(m: Machine, ts: seq<Token>): (r: Option<Machine>)
    requires m.Ok()
    ensures r.Some? ==> r.value.Ok()
    decreases |ts|
  {
    if ts == [] then Some(m)
    else match Feed(m, ts[0])
         case None => None
         case Some(m') => FeedAll(m', ts[1..])
  }

  function Finished(m: Option<Machine>): Option<seq<Block>> {
    if m.Some? && m.value.stack == [] && m.value.pending == [] then Some(m.value.found) else None
  }

  function BlocksOf(text: string): Option<seq<Block>> {
    match Lex(text, 0)
    case None => None
    case Some(ts) => Finished(FeedAll(START, ts))
  }

  /** `blocks(text)`: the loop over the tokens with its stack and pending words. */
  method Blocks(text: string) returns (r: Option<seq<Block>>)
    ensures r == BlocksOf(text)
  {
    var tokens := Tokens(text);
    if tokens.None? {
      return None;
    }
    var found: seq<Block>, stack: seq<nat>, pending: seq<Token> := [], [], [];
    var i := 0;
    assert tokens.value[0..] == tokens.value;
    while i < |tokens.value|
      invariant i <= |tokens.value|
      invariant Machine(found, stack, pending).Ok()
      invariant FeedAll(START, tokens.value) == FeedAll(Machine(found, stack, pending), tokens.value[i..])
    {
      hide FeedAll;
      var token := tokens.value[i];
      ghost var before := Machine(found, stack, pending);
      FeedAllStep(before, tokens.value[i..]);
      assert tokens.value[i..][1..] == tokens.value[i + 1..];
      if token.punctuation && token.value == "{" {
        if pending == [] {
          return None;
        }
        var block := Block(Values(pending), pending[0].start, token.end, -1, -1, TopOf(stack), []);
        found, stack, pending := found + [block], stack + [|found|], [];
      } else if token.punctuation && token.value == "}" {
        if stack == [] || pending != [] {
          return None;
        }
        var top := stack[|stack| - 1];
        stack := stack[..|stack| - 1];
        found := found[top := found[top].(closing := token.start, end := token.end)];
      } else if token.punctuation && token.value == ";" {
        if stack != [] {
          var top := stack[|stack| - 1];
          found := found[top := found[top].(directives := found[top].directives + [Values(pending)])];
        }
        pending := [];
      } else {
        pending := pending + [token];
      }
      i := i + 1;
      assert Feed(before, token) == Some(Machine(found, stack, pending));
    }
    if stack != [] || pending != [] {
      return None;
    }
    return Some(found);
  }

  lemma FeedAllStep(m: Machine, ts: seq<Token>)
    requires m.Ok() && ts != []
    ensures FeedAll(m, ts) == match Feed(m, ts[0]) case None => None case Some(m') => FeedAll(m', ts[1..])
  {
    hide Feed;
  }

  lemma {:induction false} FeedAllSum(m: Machine, ts: seq<Token>, us: seq<Token>)
    requires m.Ok()
    ensures FeedAll(m, ts + us) ==
            match FeedAll(m, ts) case None => None case Some(m') => FeedAll(m', us)
    decreases |ts|
  {
    hide Feed;
    if ts == [] {
      assert ts + us == us;
    } else {
      assert (ts + us)[1..] == ts[1..] + us;
      if Feed(m, ts[0]).Some? {
        FeedAllSum(Feed(m, ts[0]).value, ts[1..], us);
      }
    }
  }

  // ---------------------------------------------------------------- the shape of the result

  predicate Open(b: Block) { b.closing == -1 }

  /** A block whose spans lie in order and end no later than `hi`. */
  predicate Spanned(b: Block, hi: nat) {
    && b.start < b.opening <= hi
    && (if Open(b) then b.end == -1 else b.opening <= b.closing < b.end <= hi)
  }

  /** Every block between the parent of `j` and `j` has ended before `j` starts. */
  predicate ParentIsNearest(found: seq<Block>, j: nat)
    requires j < |found|
  {
    && (found[j].parent.Some? ==> found[j].parent.value < j)
    && forall k :: 0 <= k < j && (found[j].parent.None? || found[j].parent.value < k) ==>
         !Open(found[k]) && found[k].end <= found[j].start
  }

  /** A block starts in the body of its parent and, once that body is closed, has ended in it. */
  predicate InsideParent(found: seq<Block>, j: nat)
    requires j < |found|
  {
    found[j].parent.Some? && found[j].parent.value < |found| ==>
      var p := found[found[j].parent.value];
      && p.opening <= found[j].start
      && (!Open(p) ==> !Open(found[j]) && found[j].end <= p.closing)
  }

  ghost predicate Spans(found: seq<Block>, hi: nat) {
    && (forall i :: 0 <= i < |found| ==> Spanned(found[i], hi))
    && (forall i, j :: 0 <= i < j < |found| ==> found[i].start < found[j].start)
  }

  ghost predicate Parents(found: seq<Block>) {
    forall j :: 0 <= j < |found| ==> ParentIsNearest(found, j) && InsideParent(found, j)
  }

  ghost predicate StackIsOpen(m: Machine) {
    && m.Ok()
    && (forall i :: 0 <= i < |m.found| ==> (Open(m.found[i]) <==> i in m.stack))
    && (forall k, l :: 0 <= k < l < |m.stack| ==> m.stack[k] < m.stack[l])
  }

  /** The pending words come after everything found so far. */
  ghost predicate Waiting(m: Machine, hi: nat) {
    m.pending != [] ==>
      && m.pending[0].start < hi
      && forall i :: 0 <= i < |m.found| ==>
           && m.found[i].opening <= m.pending[0].start
           && (!Open(m.found[i]) ==> m.found[i].end <= m.pending[0].start)
  }

  ghost predicate Shape(m: Machine, hi: nat) {
    m.Ok() && Spans(m.found, hi) && Parents(m.found) && StackIsOpen(m) && Waiting(m, hi)
  }

  lemma AboveTopIsClosed(m: Machine, i: nat)
    requires StackIsOpen(m) && i < |m.found| && (m.stack == [] || m.stack[|m.stack| - 1] < i)
    ensures !Open(m.found[i])
  {
  }

  lemma SpansWiden(found: seq<Block>, hi: nat, hi': nat)
    requires Spans(found, hi) && hi <= hi'
    ensures Spans(found, hi')
  {
    forall i | 0 <= i < |found|
      ensures Spanned(found[i], hi')
    {
      assert Spanned(found[i], hi);
    }
  }

  lemma OpenKeepsSpans(m: Machine, hi: nat, t: Token)
    requires Spans(m.found, hi) && Waiting(m, hi) && hi <= t.start < t.end && Opened(m, t).Some?
    ensures Spans(Opened(m, t).value.found, t.end)
  {
    SpansWiden(m.found, hi, t.end);
    var found' := Opened(m, t).value.found;
    assert forall i :: 0 <= i < |m.found| ==> found'[i] == m.found[i] && Spanned(m.found[i], t.end);
  }

  lemma OpenKeepsParents(m: Machine, hi: nat, t: Token)
    requires Parents(m.found) && StackIsOpen(m) && Waiting(m, hi) && Opened(m, t).Some?
    ensures Parents(Opened(m, t).value.found)
  {
    var found' := Opened(m, t).value.found;
    var n := |m.found|;
    forall i | 0 <= i < n && (m.stack == [] || m.stack[|m.stack| - 1] < i)
      ensures !Open(m.found[i])
    {
      AboveTopIsClosed(m, i);
    }
    assert ParentIsNearest(found', n) && InsideParent(found', n);
    forall j | 0 <= j < n
      ensures ParentIsNearest(found', j) && InsideParent(found', j)
    {
      assert ParentIsNearest(m.found, j) && InsideParent(m.found, j);
    }
  }

  lemma OpenKeepsStack(m: Machine, t: Token)
    requires StackIsOpen(m) && Opened(m, t).Some?
    ensures StackIsOpen(Opened(m, t).value)
  {
    var m' := Opened(m, t).value;
    forall i | 0 <= i < |m'.found|
      ensures Open(m'.found[i]) <==> i in m'.stack
    {
      if i < |m.found| {
        assert m'.found[i] == m.found[i];
      }
    }
  }

  lemma CloseKeepsSpans(m: Machine, hi: nat, t: Token)
    requires Spans(m.found, hi) && StackIsOpen(m) && hi <= t.start < t.end && Closed(m, t).Some?
    ensures Spans(Closed(m, t).value.found, t.end)
  {
    SpansWiden(m.found, hi, t.end);
    assert Spanned(m.found[m.stack[|m.stack| - 1]], hi);
  }

  lemma CloseKeepsParents(m: Machine, hi: nat, t: Token)
    requires Spans(m.found, hi) && Parents(m.found) && StackIsOpen(m) && hi <= t.start && Closed(m, t).Some?
    ensures Parents(Closed(m, t).value.found)
  {
    var found' := Closed(m, t).value.found;
    var top := m.stack[|m.stack| - 1];
    forall j | 0 <= j < |m.found|
      ensures ParentIsNearest(found', j) && InsideParent(found', j)
    {
      assert ParentIsNearest(m.found, j) && InsideParent(m.found, j);
      if m.found[j].parent == Some(top) {
        AboveTopIsClosed(m, j);
        assert Spanned(m.found[j], hi);
      }
    }
  }

  lemma CloseKeepsStack(m: Machine, t: Token)
    requires StackIsOpen(m) && Closed(m, t).Some?
    ensures StackIsOpen(Closed(m, t).value)
  {
    var m' := Closed(m, t).value;
    var last := |m.stack| - 1;
    assert m.stack == m'.stack + [m.stack[last]];
    assert m.stack[last] !in m'.stack;
  }

  lemma EndKeepsShape(m: Machine, hi: nat, hi': nat)
    requires Shape(m, hi) && hi <= hi'
    ensures Shape(Ended(m), hi')
  {
    var m' := Ended(m);
    SpansWiden(m.found, hi, hi');
    assert forall i :: 0 <= i < |m.found| ==> m'.found[i] == m.found[i].(directives := m'.found[i].directives);
    forall j | 0 <= j < |m.found|
      ensures ParentIsNearest(m'.found, j) && InsideParent(m'.found, j)
    {
      assert ParentIsNearest(m.found, j) && InsideParent(m.found, j);
    }
    forall i | 0 <= i < |m.found|
      ensures Spanned(m'.found[i], hi')
    {
      assert Spanned(m.found[i], hi');
    }
  }

  lemma WordKeepsShape(m: Machine, hi: nat, t: Token)
    requires Shape(m, hi) && hi <= t.start < t.end
    ensures Shape(m.(pending := m.pending + [t]), t.end)
  {
    var m' := m.(pending := m.pending + [t]);
    SpansWiden(m.found, hi, t.end);
    assert forall i :: 0 <= i < |m.found| ==> Spanned(m.found[i], hi);
    assert m.pending != [] ==> m'.pending[0] == m.pending[0];
  }

  lemma FeedKeepsShape(m: Machine, hi: nat, t: Token)
    requires Shape(m, hi) && hi <= t.start < t.end && Feed(m, t).Some?
    ensures Shape(Feed(m, t).value, t.end)
  {
    hide Spans, Parents, StackIsOpen, Closed, Opened, Ended;
    if Opens(t) {
      OpenKeepsSpans(m, hi, t);
      OpenKeepsParents(m, hi, t);
      OpenKeepsStack(m, t);
      LeavesNoWords(m, t);
    } else if Closes(t) {
      CloseKeepsSpans(m, hi, t);
      CloseKeepsParents(m, hi, t);
      CloseKeepsStack(m, t);
      LeavesNoWords(m, t);
    } else if Ends(t) {
      EndKeepsShape(m, hi, t.end);
    } else {
      WordKeepsShape(m, hi, t);
    }
  }

  lemma LeavesNoWords(m: Machine, t: Token)
    requires m.Ok()
    ensures Opened(m, t).Some? ==> Opened(m, t).value.pending == []
    ensures Closed(m, t).Some? ==> Closed(m, t).value.pending == []
  {
  }

  /** Tokens whose spans follow one another, none before `hi`. */
  ghost predicate Following(ts: seq<Token>, hi: nat) {
    && (forall i :: 0 <= i < |ts| ==> hi <= ts[i].start < ts[i].end)
    && (forall i, j :: 0 <= i < j < |ts| ==> ts[i].end <= ts[j].start)
  }

  function LastEnd(ts: seq<Token>, hi: nat): nat {
    if ts == [] then hi else ts[|ts| - 1].end
  }

  lemma {:induction false} FeedAllKeepsShape(m: Machine, hi: nat, ts: seq<Token>)
    requires Shape(m, hi) && Following(ts, hi) && FeedAll(m, ts).Some?
    ensures Shape(FeedAll(m, ts).value, LastEnd(ts, hi))
    decreases |ts|
  {
    hide Spans, Parents, StackIsOpen, Waiting, Feed;
    if ts != [] {
      FeedKeepsShape(m, hi, ts[0]);
      assert Following(ts[1..], ts[0].end);
      FeedAllKeepsShape(Feed(m, ts[0]).value, ts[0].end, ts[1..]);
    }
  }

  // ---------------------------------------------------------------- what the shape means

  predicate Encloses(outer: Block, inner: Block) {
    outer.opening <= inner.start && inner.end <= outer.closing
  }

  /** Well-formed blocks of a whole text. */
  ghost predicate WellNested(found: seq<Block>, n: nat) {
    && Spans(found, n) && Parents(found)
    && forall i :: 0 <= i < |found| ==> !Open(found[i])
  }

  /** Two blocks are nested, one in the body of the other, or disjoint. */
  lemma {:induction false} NestedOrDisjoint(found: seq<Block>, n: nat, i: nat, j: nat)
    requires WellNested(found, n) && i < j < |found|
    ensures found[i].end <= found[j].start || Encloses(found[i], found[j])
    decreases j
  {
    assert ParentIsNearest(found, j) && InsideParent(found, j);
    assert Spanned(found[i], n);
    if found[j].parent.Some? && i < found[j].parent.value {
      var p := found[j].parent.value;
      assert Spanned(found[p], n);
      NestedOrDisjoint(found, n, i, p);
    }
  }

  /** A block lies in its parent, and every block it lies in is its parent or encloses its parent. */
  lemma ParentIsSmallest(found: seq<Block>, n: nat, j: nat, k: nat)
    requires WellNested(found, n) && j < |found| && k < |found|
    ensures found[j].parent.Some? ==>
              found[j].parent.value < j && Encloses(found[found[j].parent.value], found[j])
    ensures Encloses(found[k], found[j]) ==>
              && found[j].parent.Some?
              && (k == found[j].parent.value || Encloses(found[k], found[found[j].parent.value]))
  {
    assert ParentIsNearest(found, j) && InsideParent(found, j);
    assert Spanned(found[j], n) && Spanned(found[k], n);
    if Encloses(found[k], found[j]) {
      assert k < j;
      assert found[j].parent.Some? && k <= found[j].parent.value;
      var p := found[j].parent.value;
      if k < p {
        assert Spanned(found[p], n);
        NestedOrDisjoint(found, n, k, p);
      }
    }
  }

  lemma StartIsShaped()
    ensures Shape(START, 0)
  {
  }

  lemma TokensFollow(text: string)
    requires Lex(text, 0).Some?
    ensures Following(Lex(text, 0).value, 0) && LastEnd(Lex(text, 0).value, 0) <= |text|
  {
    hide Lex;
    SpansInOrder(text, 0);
  }

  /** What `blocks` returns is well nested in the text. */
  lemma BlocksAreWellNested(text: string)
    requires BlocksOf(text).Some?
    ensures WellNested(BlocksOf(text).value, |text|)
  {
    hide Lex, FeedAll, Spans, Parents, Following;
    var ts := Lex(text, 0).value;
    TokensFollow(text);
    StartIsShaped();
    FeedAllKeepsShape(START, 0, ts);
    SpansWiden(BlocksOf(text).value, LastEnd(ts, 0), |text|);
    NoneOpen(FeedAll(START, ts).value);
  }

  lemma NoneOpen(m: Machine)
    requires StackIsOpen(m) && m.stack == []
    ensures forall i :: 0 <= i < |m.found| ==> !Open(m.found[i])
  {
  }

  // ---------------------------------------------------------------- what later tokens leave alone

  /** Block `b` as it may look later: its head is fixed, its directives only grow, a closed block is fixed. */
  predicate Matures(b: Block, b': Block, hi: nat) {
    && b'.header == b.header && b'.start == b.start && b'.opening == b.opening && b'.parent == b.parent
    && b.directives <= b'.directives
    && (!Open(b) ==> b' == b)
    && (Open(b) && !Open(b') ==> hi <= b'.closing)
  }

  /** Where the next block opened in `m` starts, at the earliest. */
  function NextStart(m: Machine, hi: nat): nat {
    if m.pending == [] then hi else m.pending[0].start
  }

  ghost predicate Later(m: Machine, m': Machine, hi: nat) {
    && |m.found| <= |m'.found|
    && (forall i :: 0 <= i < |m.found| ==> Matures(m.found[i], m'.found[i], hi))
    && (forall i :: |m.found| <= i < |m'.found| ==> NextStart(m, hi) <= m'.found[i].start)
  }

  lemma LaterComposes(m: Machine, m': Machine, m'': Machine, hi: nat, hi': nat)
    requires Later(m, m', hi) && Later(m', m'', hi') && hi <= hi'
    requires NextStart(m, hi) <= NextStart(m', hi')
    ensures Later(m, m'', hi)
  {}

  lemma FeedIsLater(m: Machine, hi: nat, t: Token)
    requires StackIsOpen(m) && Waiting(m, hi) && hi <= t.start < t.end && Feed(m, t).Some?
    ensures Later(m, Feed(m, t).value, hi)
    ensures NextStart(m, hi) <= NextStart(Feed(m, t).value, t.end)
  {
    var m' := Feed(m, t).value;
    if m.stack != [] {
      var top := m.stack[|m.stack| - 1];
      assert top in m.stack && Open(m.found[top]);
      assert m.found[top].directives <= m.found[top].directives + [Values(m.pending)];
    }
  }

  lemma {:induction false} FeedAllIsLater(m: Machine, hi: nat, ts: seq<Token>)
    requires Shape(m, hi) && Following(ts, hi) && FeedAll(m, ts).Some?
    ensures Later(m, FeedAll(m, ts).value, hi)
    decreases |ts|
  {
    hide Spans, Parents, StackIsOpen, Waiting, Feed, Later, NextStart;
    if ts == [] {
      LaterAtOnce(m, hi);
    } else {
      var m' := Feed(m, ts[0]).value;
      FeedKeepsShape(m, hi, ts[0]);
      FeedIsLater(m, hi, ts[0]);
      assert Following(ts[1..], ts[0].end);
      FeedAllIsLater(m', ts[0].end, ts[1..]);
      LaterComposes(m, m', FeedAll(m', ts[1..]).value, hi, ts[0].end);
    }
  }

  lemma LaterAtOnce(m: Machine, hi: nat)
    ensures Later(m, m, hi)
  {
  }

  /** The machine after the first `k` tokens of a text that parses, and what the rest leaves of it. */
  lemma HalfWay(text: string, k: nat)
    requires BlocksOf(text).Some? && k <= |Lex(text, 0).value|
    ensures var ts := Lex(text, 0).value;
            var half := FeedAll(START, ts[..k]);
            var hi := LastEnd(ts[..k], 0);
            && half.Some? && Shape(half.value, hi) && Following(ts[k..], hi)
            && FeedAll(half.value, ts[k..]) == FeedAll(START, ts)
            && Later(half.value, FeedAll(START, ts).value, hi)
  {
    hide Lex, FeedAll, Later, Shape;
    var ts := Lex(text, 0).value;
    TokensFollow(text);
    StartIsShaped();
    assert ts[..k] + ts[k..] == ts;
    FeedAllSum(START, ts[..k], ts[k..]);
    FollowingParts(ts, k);
    FeedAllKeepsShape(START, 0, ts[..k]);
    FeedAllIsLater(FeedAll(START, ts[..k]).value, LastEnd(ts[..k], 0), ts[k..]);
  }

  lemma FollowingParts(ts: seq<Token>, k: nat)
    requires Following(ts, 0) && k <= |ts|
    ensures Following(ts[..k], 0) && Following(ts[k..], LastEnd(ts[..k], 0))
  {
  }

  /** Position `x` lies in the body of the block. */
  predicate Holds(b: Block, x: nat) {
    b.opening <= x < b.closing
  }

  /** The directive that `;` token `k` ends goes to the innermost block whose body holds it, if there is one. */
  lemma DirectiveGoesInnermost(text: string, k: nat)
    requires BlocksOf(text).Some? && k < |Lex(text, 0).value| && Ends(Lex(text, 0).value[k])
    ensures FeedAll(START, Lex(text, 0).value[..k]).Some?
    ensures var ts, found := Lex(text, 0).value, BlocksOf(text).value;
            var m := FeedAll(START, ts[..k]).value;
            if m.stack == [] then
              forall i :: 0 <= i < |found| ==> !Holds(found[i], ts[k].start)
            else
              var b := m.stack[|m.stack| - 1];
              && b < |found| && Holds(found[b], ts[k].start)
              && (forall i :: 0 <= i < |found| && Holds(found[i], ts[k].start) ==>
                    i == b || Encloses(found[i], found[b]))
              && m.found[b].directives + [Values(m.pending)] <= found[b].directives
  {
    hide Lex, FeedAll, Shape, Feed;
    var ts, found := Lex(text, 0).value, BlocksOf(text).value;
    var t := ts[k];
    HalfWay(text, k);
    HalfWay(text, k + 1);
    BlocksAreWellNested(text);
    var m, m' := FeedAll(START, ts[..k]).value, FeedAll(START, ts[..k + 1]).value;
    assert ts[..k + 1] == ts[..k] + [t];
    FeedAllSum(START, ts[..k], [t]);
    FeedOne(m, t);
    EndedIs(m, t);
    assert LastEnd(ts[..k + 1], 0) == t.end;
    assert ts[k..][0] == t;
    StackHolds(m, m', found, |text|, LastEnd(ts[..k], 0), t);
    if m.stack != [] {
      var b := m.stack[|m.stack| - 1];
      forall i | 0 <= i < |found| && Holds(found[i], t.start) && i != b
        ensures Encloses(found[i], found[b])
      {
        assert i in m.stack;
        NestedOrDisjoint(found, |text|, i, b);
        assert Spanned(found[b], |text|) && Spanned(found[i], |text|);
      }
    }
  }

  lemma FeedOne(m: Machine, t: Token)
    requires m.Ok()
    ensures FeedAll(m, [t]) == Feed(m, t)
  {
    hide Feed;
    assert [t][1..] == [];
  }

  lemma EndedIs(m: Machine, t: Token)
    requires m.Ok() && Ends(t)
    ensures Feed(m, t) == Some(Ended(m))
  {
  }

  lemma StackHolds(m: Machine, m': Machine, found: seq<Block>, n: nat, hi: nat, t: Token)
    requires WellNested(found, n)
    requires Shape(m, hi) && hi <= t.start < t.end && m' == Ended(m)
    requires Later(m', Machine(found, [], []), t.end)
    ensures |m.found| <= |found|
    ensures forall i :: 0 <= i < |found| ==> (Holds(found[i], t.start) <==> i in m.stack)
    ensures m.stack != [] ==> forall i :: i in m.stack ==> i <= m.stack[|m.stack| - 1]
    ensures m.stack != [] ==>
              var b := m.stack[|m.stack| - 1];
              m.found[b].directives + [Values(m.pending)] <= found[b].directives
  {}
}
