/** What the block parser makes of a configuration, read as a tree of statements and blocks; and which texts are one. */
module NginxTrees {
  import opened Wrappers
  import opened NginxLexer
  import opened NginxBlocks

  // ---------------------------------------------------------------- configurations as trees

  datatype Item =
    | Statement(words: seq<Token>, ending: Token)
    | Nest(header: seq<Token>, opening: Token, body: seq<Item>, closing: Token)

  predicate IsMark(t: Token) { Opens(t) || Closes(t) || Ends(t) }

  predicate AreWords(ts: seq<Token>) { forall i :: 0 <= i < |ts| ==> !IsMark(ts[i]) }

  predicate Proper(items: seq<Item>)
    decreases items
  {
    items != [] ==>
      && Proper(items[1..])
      && match items[0]
         case Statement(words, ending) => AreWords(words) && Ends(ending)
         case Nest(header, opening, body, closing) => header != [] && AreWords(header) && Opens(opening) && Closes(closing) && Proper(body)
  }

  /** The tokens as they are written. */
  function Flat(items: seq<Item>): seq<Token>
    decreases items
  {
    if items == [] then []
    else
      (match items[0]
       case Statement(words, ending) => words + [ending]
       case Nest(header, opening, body, closing) => header + ([opening] + (Flat(body) + [closing]))) + Flat(items[1..])
  }

  /** The statements that stand directly among these items, in order. */
  function Own(items: seq<Item>): seq<seq<string>> {
    if items == [] then []
    else (if items[0].Statement? then [Values(items[0].words)] else []) + Own(items[1..])
  }

  /** The blocks among these items, each before those in it: its words, its spans, its parent and its own statements. */
  function Nested(items: seq<Item>, parent: Option<nat>, first: nat): seq<Block>
    requires Proper(items)
    decreases items
  {
    if items == [] then []
    else match items[0]
      case Statement(_, _) => Nested(items[1..], parent, first)
      case Nest(header, opening, body, closing) =>
        var inner := Nested(body, Some(first), first + 1);
        [Block(Values(header), header[0].start, opening.end, closing.start, closing.end, parent, Own(body))] + (inner +
          Nested(items[1..], parent, first + 1 + |inner|))
  }

  // ---------------------------------------------------------------- the machine reads the tree

  /** The directives of the innermost open block grow by these. */
  function Grown(found: seq<Block>, top: Option<nat>, more: seq<seq<string>>): (r: seq<Block>)
    requires top.Some? ==> top.value < |found|
    ensures |r| == |found|
  {
    if top.None? then found else found[top.value := found[top.value].(directives := found[top.value].directives + more)]
  }

  lemma {:induction false} WordsWait(m: Machine, words: seq<Token>)
    requires m.Ok() && AreWords(words)
    ensures FeedAll(m, words) == Some(m.(pending := m.pending + words))
    decreases |words|
  {
    if words != [] {
      var next := m.(pending := m.pending + [words[0]]);
      WordsWait(next, words[1..]);
      assert m.pending + [words[0]] + words[1..] == m.pending + words;
    } else {
      assert m.pending + words == m.pending;
    }
  }

  lemma StatementIsRead(m: Machine, words: seq<Token>, ending: Token)
    requires m.Ok() && m.pending == [] && AreWords(words) && Ends(ending)
    ensures FeedAll(m, words + [ending]) == Some(m.(found := Grown(m.found, m.Top(), [Values(words)])))
  {
    hide FeedAll, Feed;
    WordsWait(m, words);
    FeedAllSum(m, words, [ending]);
    assert m.pending + words == words;
    FeedOne(m.(pending := words), ending);
    EndedIs(m.(pending := words), ending);
    EndedGrows(m, words);
  }

  lemma EndedGrows(m: Machine, words: seq<Token>)
    requires m.Ok() && m.pending == []
    ensures Ended(m.(pending := words)) == m.(found := Grown(m.found, m.Top(), [Values(words)]))
  {}

  lemma HeaderIsRead(m: Machine, header: seq<Token>, opening: Token)
    requires m.Ok() && m.pending == [] && header != [] && AreWords(header) && Opens(opening)
    ensures FeedAll(m, header + [opening]) ==
              Some(Machine(m.found + [Block(Values(header), header[0].start, opening.end, -1, -1, m.Top(), [])], m.stack + [|m.found|], []))
  {
    hide FeedAll;
    WordsWait(m, header);
    FeedAllSum(m, header, [opening]);
    assert m.pending + header == header;
    FeedOne(m.(pending := m.pending + header), opening);
  }

  lemma ClosingIsRead(m: Machine, closing: Token)
    requires m.Ok() && m.pending == [] && m.stack != [] && Closes(closing)
    ensures var top := m.stack[|m.stack| - 1];
            FeedAll(m, [closing]) ==
              Some(Machine(m.found[top := m.found[top].(closing := closing.start, end := closing.end)], m.stack[..|m.stack| - 1], []))
  {
    hide FeedAll;
    FeedOne(m, closing);
  }

  lemma BlockFlat(header: seq<Token>, opening: Token, body: seq<Token>, closing: Token)
    ensures header + ([opening] + (body + [closing])) == header + [opening] + body + [closing]
  {}

  /** Reading one block, given how its body is read. */
  lemma NestIsRead(m: Machine, header: seq<Token>, opening: Token, body: seq<Token>, closing: Token, own: seq<seq<string>>, inner: seq<Block>)
    requires m.Ok() && m.pending == [] && header != [] && AreWords(header) && Opens(opening) && Closes(closing)
    requires var b := Block(Values(header), header[0].start, opening.end, -1, -1, m.Top(), []);
             FeedAll(Machine(m.found + [b], m.stack + [|m.found|], []), body) ==
               Some(Machine(Grown(m.found + [b], Some(|m.found|), own) + inner, m.stack + [|m.found|], []))
    ensures FeedAll(m, header + ([opening] + (body + [closing]))) ==
              Some(m.(found := m.found + ([Block(Values(header), header[0].start, opening.end, closing.start, closing.end, m.Top(), own)] + inner)))
  {
    hide FeedAll;
    var open := Block(Values(header), header[0].start, opening.end, -1, -1, m.Top(), []);
    var m1 := Machine(m.found + [open], m.stack + [|m.found|], []);
    var m2 := Machine(Grown(m.found + [open], Some(|m.found|), own) + inner, m.stack + [|m.found|], []);
    HeaderIsRead(m, header, opening);
    FeedAllSum(m, header + [opening], body);
    assert m2.Ok();
    ClosingIsRead(m2, closing);
    FeedAllSum(m, header + [opening] + body, [closing]);
    BlockFlat(header, opening, body, closing);
    BodyGrows(m.found, open, own, inner, closing);
    assert m2.stack[..|m.stack|] == m.stack;
  }

  lemma BodyGrows(found: seq<Block>, open: Block, own: seq<seq<string>>, inner: seq<Block>, closing: Token)
    requires open.directives == []
    ensures var grown := Grown(found + [open], Some(|found|), own) + inner;
            grown[|found| := grown[|found|].(closing := closing.start, end := closing.end)] ==
              found + ([open.(closing := closing.start, end := closing.end, directives := own)] + inner)
  {
    assert [] + own == own;
  }

  lemma GrownTwice(found: seq<Block>, top: Option<nat>, a: seq<seq<string>>, b: seq<seq<string>>, more: seq<Block>)
    requires top.Some? ==> top.value < |found|
    ensures Grown(Grown(found, top, a) + more, top, b) == Grown(found, top, a + b) + more
  {
    if top.Some? { assert found[top.value].directives + a + b == found[top.value].directives + (a + b); }
  }

  lemma GrownNot(found: seq<Block>, top: Option<nat>)
    requires top.Some? ==> top.value < |found|
    ensures Grown(found, top, []) == found
  {
    if top.Some? { assert found[top.value].directives + [] == found[top.value].directives; }
  }

  /** What follows the first item, read after it. */
  lemma ThenIsRead(m: Machine, ts: seq<Token>, us: seq<Token>, a: seq<seq<string>>, b: seq<seq<string>>, p: seq<Block>, q: seq<Block>)
    requires m.Ok() && m.pending == []
    requires FeedAll(m, ts) == Some(m.(found := Grown(m.found, m.Top(), a) + p))
    requires var next := m.(found := Grown(m.found, m.Top(), a) + p);
             FeedAll(next, us) == Some(next.(found := Grown(next.found, m.Top(), b) + q))
    ensures FeedAll(m, ts + us) == Some(m.(found := Grown(m.found, m.Top(), a + b) + (p + q)))
  {
    hide FeedAll, Grown;
    FeedAllSum(m, ts, us);
    GrownTwice(m.found, m.Top(), a, b, p);
    assert Grown(m.found, m.Top(), a + b) + p + q == Grown(m.found, m.Top(), a + b) + (p + q);
  }

  /** The machine after these items: the block they stand in has their statements, and their blocks are found. */
  predicate Read(m: Machine, items: seq<Item>)
    requires m.Ok() && Proper(items)
  {
    FeedAll(m, Flat(items)) == Some(m.(found := Grown(m.found, m.Top(), Own(items)) + Nested(items, m.Top(), |m.found|)))
  }

  lemma NothingToRead(m: Machine)
    requires m.Ok()
    ensures Read(m, [])
  {
    GrownNot(m.found, m.Top());
    assert m.found + [] == m.found;
  }

  /** The machine after a first statement, and inside and after a first block. */
  function AfterStatement(m: Machine, words: seq<Token>): Machine
    requires m.Ok()
  {
    m.(found := Grown(m.found, m.Top(), [Values(words)]))
  }

  function Inside(m: Machine, header: seq<Token>, opening: Token): Machine
    requires header != []
  {
    Machine(m.found + [Block(Values(header), header[0].start, opening.end, -1, -1, m.Top(), [])], m.stack + [|m.found|], [])
  }

  function AfterNest(m: Machine, item: Item): Machine
    requires item.Nest? && item.header != [] && Proper(item.body)
  {
    var n := |m.found|;
    m.(found := m.found + ([Block(Values(item.header), item.header[0].start, item.opening.end, item.closing.start, item.closing.end, m.Top(), Own(item.body))]
                           + Nested(item.body, Some(n), n + 1)))
  }

  lemma StatementStep(m: Machine, items: seq<Item>)
    requires m.Ok() && m.pending == [] && Proper(items) && items != [] && items[0].Statement?
    requires Read(AfterStatement(m, items[0].words), items[1..])
    ensures Read(m, items)
  {
    hide FeedAll, Grown, Values;
    var words, ending, rest := items[0].words, items[0].ending, items[1..];
    StatementIsRead(m, words, ending);
    var a := [Values(words)];
    assert Grown(m.found, m.Top(), a) + [] == Grown(m.found, m.Top(), a);
    ThenIsRead(m, words + [ending], Flat(rest), a, Own(rest), [], Nested(rest, m.Top(), |m.found|));
    assert [] + Nested(rest, m.Top(), |m.found|) == Nested(rest, m.Top(), |m.found|);
  }

  lemma NestStep(m: Machine, items: seq<Item>)
    requires m.Ok() && m.pending == [] && Proper(items) && items != [] && items[0].Nest?
    requires Read(Inside(m, items[0].header, items[0].opening), items[0].body)
    requires Read(AfterNest(m, items[0]), items[1..])
    ensures Read(m, items)
  {
    hide FeedAll, Grown, Values, Flat, Nested, Own, Proper;
    var item, rest := items[0], items[1..];
    ProperParts(items);
    NestUnrolls(items, m.Top(), |m.found|);
    var inner := Nested(item.body, Some(|m.found|), |m.found| + 1);
    NestIsRead(m, item.header, item.opening, Flat(item.body), item.closing, Own(item.body), inner);
    GrownNot(m.found, m.Top());
    var p := [Block(Values(item.header), item.header[0].start, item.opening.end, item.closing.start, item.closing.end, m.Top(), Own(item.body))] + inner;
    var q := Nested(rest, m.Top(), |m.found| + |p|);
    ThenIsRead(m, item.header + ([item.opening] + (Flat(item.body) + [item.closing])), Flat(rest), [], Own(rest), p, q);
    assert [] + Own(rest) == Own(rest);
  }

  lemma NestUnrolls(items: seq<Item>, parent: Option<nat>, first: nat)
    requires Proper(items) && items != [] && items[0].Nest?
    ensures var item := items[0];
            && item.header != [] && AreWords(item.header) && Opens(item.opening) && Closes(item.closing)
            && Flat(items) == item.header + ([item.opening] + (Flat(item.body) + [item.closing])) + Flat(items[1..])
            && Own(items) == Own(items[1..])
            && var p := [Block(Values(item.header), item.header[0].start, item.opening.end, item.closing.start, item.closing.end, parent, Own(item.body))]
                        + Nested(item.body, Some(first), first + 1);
               Nested(items, parent, first) == p + Nested(items[1..], parent, first + |p|)
  {
    hide Values, Proper, Own, AreWords, Flat;
    NestIsProper(items);
    NestIsFlat(items);
    NestOwnsNothing(items);
    var inner := Nested(items[0].body, Some(first), first + 1);
    Regroup(Block(Values(items[0].header), items[0].header[0].start, items[0].opening.end, items[0].closing.start, items[0].closing.end, parent, Own(items[0].body)),
            inner, Nested(items[1..], parent, first + 1 + |inner|));
  }

  lemma NestIsProper(items: seq<Item>)
    requires Proper(items) && items != [] && items[0].Nest?
    ensures var item := items[0];
            item.header != [] && AreWords(item.header) && Opens(item.opening) && Closes(item.closing) && Proper(item.body) && Proper(items[1..])
  {}

  lemma NestIsFlat(items: seq<Item>)
    requires items != [] && items[0].Nest?
    ensures Flat(items) == items[0].header + ([items[0].opening] + (Flat(items[0].body) + [items[0].closing])) + Flat(items[1..])
  {}

  lemma NestOwnsNothing(items: seq<Item>)
    requires items != [] && items[0].Nest?
    ensures Own(items) == Own(items[1..])
  {
    assert [] + Own(items[1..]) == Own(items[1..]);
  }

  lemma Regroup(b: Block, inner: seq<Block>, rest: seq<Block>)
    ensures [b] + (inner + rest) == ([b] + inner) + rest
  {}

  lemma ProperParts(items: seq<Item>)
    requires Proper(items) && items != []
    ensures Proper(items[1..]) && (items[0].Nest? ==> items[0].header != [] && Proper(items[0].body))
  {}

  lemma StillOk(m: Machine, items: seq<Item>)
    requires m.Ok() && m.pending == [] && Proper(items) && items != []
    ensures items[0].Statement? ==> AfterStatement(m, items[0].words).Ok() && AfterStatement(m, items[0].words).pending == []
    ensures items[0].Nest? ==> Inside(m, items[0].header, items[0].opening).Ok() && Inside(m, items[0].header, items[0].opening).pending == []
    ensures items[0].Nest? ==> AfterNest(m, items[0]).Ok() && AfterNest(m, items[0]).pending == []
  {}

  /**
   * The stack machine reads a configuration as its tree: every block once, in the order of the opening braces, with
   * the words before its brace, its spans, the block it stands in, and its own statements in their order.
   */
  lemma {:induction false} ItemsAreRead(m: Machine, items: seq<Item>)
    requires m.Ok() && m.pending == [] && Proper(items)
    ensures Read(m, items)
    decreases items
  {
    hide *;
    if items == [] {
      NothingToRead(m);
    } else {
      ProperParts(items);
      StillOk(m, items);
      if items[0].Statement? {
        ItemsAreRead(AfterStatement(m, items[0].words), items[1..]);
        StatementStep(m, items);
      } else {
        ItemsAreRead(Inside(m, items[0].header, items[0].opening), items[0].body);
        ItemsAreRead(AfterNest(m, items[0]), items[1..]);
        NestStep(m, items);
      }
    }
  }

  /** So a text whose tokens are those of a tree has just the blocks of that tree. */
  lemma BlocksAreNested(text: string, items: seq<Item>)
    requires Proper(items) && Lex(text, 0) == Some(Flat(items))
    ensures BlocksOf(text) == Some(Nested(items, None, 0))
  {
    hide FeedAll, Lex;
    ItemsAreRead(START, items);
    assert [] + Nested(items, None, 0) == Nested(items, None, 0);
  }

  // ---------------------------------------------------------------- which texts are configurations

  function Depth(ts: seq<Token>, k: nat): int
    requires k <= |ts|
  {
    if k == 0 then 0 else Depth(ts, k - 1) + (if Opens(ts[k - 1]) then 1 else if Closes(ts[k - 1]) then -1 else 0)
  }

  /** No words stand open before the k-th token. */
  predicate AtStart(ts: seq<Token>, k: nat)
    requires k <= |ts|
  {
    k == 0 || IsMark(ts[k - 1])
  }

  /** Every opening brace has words before it; every closing brace has none, and a block to close. */
  predicate Stands(ts: seq<Token>, k: nat)
    requires k < |ts|
  {
    (Opens(ts[k]) ==> !AtStart(ts, k)) && (Closes(ts[k]) ==> AtStart(ts, k) && Depth(ts, k) > 0)
  }

  /** The braces match, and nothing is left open. */
  predicate Balanced(ts: seq<Token>) {
    (forall k :: 0 <= k < |ts| ==> Stands(ts, k)) && Depth(ts, |ts|) == 0 && AtStart(ts, |ts|)
  }

  lemma {:induction false} ReadsSoFar(ts: seq<Token>, k: nat)
    requires k <= |ts|
    ensures FeedAll(START, ts[..k]).Some? <==> forall j :: 0 <= j < k ==> Stands(ts, j)
    ensures FeedAll(START, ts[..k]).Some? ==>
              var m := FeedAll(START, ts[..k]).value; |m.stack| == Depth(ts, k) && (m.pending == [] <==> AtStart(ts, k))
    decreases k
  {
    if k > 0 {
      hide FeedAll, Stands;
      ReadsSoFar(ts, k - 1);
      assert ts[..k] == ts[..k - 1] + [ts[k - 1]];
      FeedAllSum(START, ts[..k - 1], [ts[k - 1]]);
      if FeedAll(START, ts[..k - 1]).Some? {
        var m := FeedAll(START, ts[..k - 1]).value;
        FeedOne(m, ts[k - 1]);
        ReadsIff(m, ts, k - 1);
      }
    } else {
      assert ts[..0] == [];
    }
  }

  lemma ReadsIff(m: Machine, ts: seq<Token>, k: nat)
    requires k < |ts| && m.Ok() && |m.stack| == Depth(ts, k) && (m.pending == [] <==> AtStart(ts, k))
    ensures Feed(m, ts[k]).Some? <==> Stands(ts, k)
    ensures Feed(m, ts[k]).Some? ==>
              var next := Feed(m, ts[k]).value; |next.stack| == Depth(ts, k + 1) && (next.pending == [] <==> AtStart(ts, k + 1))
  {}

  /** A text is a configuration exactly when it is read as tokens whose braces match and stand where they may. */
  lemma ParsesIff(text: string)
    ensures BlocksOf(text).Some? <==> Lex(text, 0).Some? && Balanced(Lex(text, 0).value)
  {
    hide FeedAll, Lex, Stands;
    if Lex(text, 0).Some? {
      var ts := Lex(text, 0).value;
      ReadsSoFar(ts, |ts|);
      assert ts[..|ts|] == ts;
    }
  }
}
