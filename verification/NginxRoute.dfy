/** Choosing the HTTPS server and writing the `/ws` route into it: `https_servers` and `render_route` of
    scripts/install-softphone-proxy.py.

    The route template and its indentation are a parameter: `route` is the text of the location block as it is
    written after the leading indentation of its first line. */
module NginxRoute {
  import opened Wrappers
  import opened NginxLexer
  import opened NginxLexerLaws
  import opened NginxBlocks
  import opened NginxParts
  import opened NginxSplice

  const MARKER := "EngineerIP managed SIP WebSocket route"
  const EXACT_ROUTE := ["location", "=", "/ws"]

  // ---------------------------------------------------------------- choosing the blocks

  /** The indices below `n` at which `p` holds, in order. */
  function Where(n: nat, p: nat -> bool): (r: seq<nat>)
    ensures forall i: nat :: i in r <==> i < n && p(i)
    ensures forall k :: 0 <= k < |r| ==> r[k] < n
    ensures forall k, l :: 0 <= k < l < |r| ==> r[k] < r[l]
  {
    if n == 0 then [] else Where(n - 1, p) + if p(n - 1) then [n - 1] else []
  }

  function NamesIn(directives: seq<seq<string>>): seq<string> {
    if directives == [] then []
    else
      var d := directives[0];
      (if d != [] && d[0] == "server_name" then d[1..] else []) + NamesIn(directives[1..])
  }

  predicate EndsWith(s: string, suffix: string) {
    |suffix| <= |s| && s[|s| - |suffix|..] == suffix
  }

  predicate Secure(listen: seq<string>) {
    "ssl" in listen || exists v :: v in listen && (v == "443" || EndsWith(v, ":443"))
  }

  predicate IsHttpsServer(b: Block, domain: string) {
    && b.header == ["server"]
    && domain in NamesIn(b.directives)
    && exists d :: d in b.directives && d != [] && d[0] == "listen" && Secure(d[1..])
  }

  function HttpsServers(found: seq<Block>, domain: string): seq<nat> {
    Where(|found|, (i: nat) => i < |found| && IsHttpsServer(found[i], domain))
  }

  predicate IsExactRoute(found: seq<Block>, server: nat, i: nat) {
    && i < |found| && server < |found| && found[i].parent.Some? && found[i].parent.value < |found|
    && found[found[i].parent.value].start == found[server].start
    && found[i].header == EXACT_ROUTE
  }

  function ExactRoutes(found: seq<Block>, server: nat): seq<nat> {
    Where(|found|, (i: nat) => IsExactRoute(found, server, i))
  }

  predicate StandsAt(s: string, part: string, i: nat) {
    i + |part| <= |s| && s[i..i + |part|] == part
  }

  predicate Contains(s: string, part: string) {
    exists i: nat :: i <= |s| && StandsAt(s, part, i)
  }

  /** The new text, or None where the script raises and leaves the file alone. */
  function RenderRoute(text: string, domain: string, route: string): Option<string> {
    match BlocksOf(text)
    case None => None
    case Some(found) =>
      var servers := HttpsServers(found, domain);
      if |servers| != 1 then None
      else
        var exact := ExactRoutes(found, servers[0]);
        BlocksAreWellNested(text);
        assert servers[0] in servers && Spanned(found[servers[0]], |text|);
        if exact == [] then
          Some(Inserted(text, found[servers[0]].closing, route))
        else
          assert exact[0] in exact && Spanned(found[exact[0]], |text|);
          var present := found[exact[0]];
          if |exact| != 1 || !Contains(text[present.start..present.end], MARKER) then None
          else Some(text[..present.start] + route + text[present.end..])
  }

  function Inserted(text: string, at: nat, route: string): string
    requires at <= |text|
  {
    text[..at] + "\n    " + route + "\n" + text[at..]
  }

  /** The route is one well-formed, marked `location = /ws` block that fills its text and holds no server. */
  ghost predicate OneBlock(route: string) {
    && BlocksOf(route).Some? && Contains(route, MARKER)
    && var ts, found := Lex(route, 0).value, BlocksOf(route).value;
       && ts != [] && ts[|ts| - 1] == Token("}", |route| - 1, |route|, true)
       && KeepsInside(START, ts)
       && found != [] && found[0].header == EXACT_ROUTE && found[0].parent.None?
       && found[0].start == 0 && found[0].end == |route|
       && forall i :: 0 < i < |found| ==> found[i].parent.Some? && found[i].header != ["server"]
  }

  // ---------------------------------------------------------------- reading the new text

  /** A splice of the token list is a splice of the blocks. */
  lemma SpliceParses(text: string, text': string, h: nat, j: nat, q: nat, q': nat,
                     removed: seq<Block>, added: seq<Block>, tx: seq<Token>)
    requires BlocksOf(text).Some? && h <= j <= |Lex(text, 0).value|
    requires ReadsTo(text, q, 0, Lex(text, 0).value[..j])
    requires q' <= |text'| && text'[q'..] == text[q..] && ReadsTo(text', q', 0, Lex(text, 0).value[..h] + tx)
    requires var mh := FeedAll(START, Lex(text, 0).value[..h]);
             && mh.Some? && mh.value.pending == []
             && FeedAll(START, Lex(text, 0).value[..j]) ==
                Some(Machine(mh.value.found + removed, mh.value.stack, []))
             && FeedAll(mh.value, tx) == Some(Machine(mh.value.found + added, mh.value.stack, []))
             && forall i :: 0 <= i < |mh.value.found| ==> Before(mh.value.found[i], i, q)
    ensures var n := |FeedAll(START, Lex(text, 0).value[..h]).value.found|;
            && n + |removed| <= |BlocksOf(text).value|
            && BlocksOf(text') == Some(Splice(n, |removed|, |added|, q, q').Apply(BlocksOf(text).value, added))
  {
    hide Lex, FeedAll, Finished, ReadsTo, Before;
    var ts := Lex(text, 0).value;
    var mh := FeedAll(START, ts[..h]).value;
    var rest := RestOf(text, q, ts[..j]);
    var rest' := RestOf(text', q', ts[..h] + tx);
    FeedAllSum(START, ts[..j], ShiftAll(rest, q));
    FeedAllSum(START, ts[..h] + tx, ShiftAll(rest, q'));
    FeedAllSum(START, ts[..h], tx);
    var a := Machine(mh.found + removed, mh.stack, []);
    var b := Machine(mh.found + added, mh.stack, []);
    var sp := Splice(|mh.found|, |removed|, |added|, q, q');
    StartsMirrored(sp, mh, removed, added);
    sp.RestIsSpliced(a, b, added, rest);
  }

  /** Block number `i` lies before position `q`, as far as it has been read. */
  predicate Before(b: Block, i: nat, q: nat) {
    b.start < q && b.opening <= q && b.closing < q && b.end <= q && (b.parent.Some? ==> b.parent.value < i)
  }

  lemma StartsMirrored(sp: Splice, m: Machine, removed: seq<Block>, added: seq<Block>)
    requires m.Ok() && m.pending == []
    requires sp.n == |m.found| && sp.was == |removed| && sp.now == |added|
    requires forall i :: 0 <= i < |m.found| ==> Before(m.found[i], i, sp.source)
    ensures sp.Simulates(Machine(m.found + removed, m.stack, []), Machine(m.found + added, m.stack, []), added)
  {
    forall i | 0 <= i < |m.found|
      ensures sp.Moved(m.found[i]) == m.found[i]
    {
      assert Before(m.found[i], i, sp.source);
    }
  }

  /** The tokens behind a cut, placed at the start of their own text. */
  lemma RestOf(text: string, q: nat, head: seq<Token>) returns (rest: seq<Token>)
    requires ReadsTo(text, q, 0, head)
    ensures Lex(text[q..], 0).Some? <==> Lex(text, 0).Some?
    ensures Lex(text[q..], 0).Some? ==>
              && rest == Lex(text[q..], 0).value
              && Lex(text, 0).value == head + ShiftAll(rest, q)
              && forall i :: 0 <= i < |rest| ==> rest[i].start < rest[i].end
  {
    hide Lex;
    LexSplits(text, q, 0);
    LexShifts(text[q..], 0, q);
    rest := [];
    if Lex(text[q..], 0).Some? {
      rest := Lex(text[q..], 0).value;
      SpansInOrder(text[q..], 0);
    }
  }

  /** What the lexer needs of a route. */
  lemma RouteLexes(route: string)
    requires OneBlock(route)
    ensures BlocksOf(route).Some? && BlocksOf(route).value != [] && route != []
    ensures Lex(route, 0).Some? && Lex(route, 0).value != []
    ensures Lex(route, 0).value[|Lex(route, 0).value| - 1] == Token("}", |route| - 1, |route|, true)
  {
    hide Lex, FeedAll, KeepsInside, Finished, Contains;
  }

  /** The route reads alike whatever follows it. */
  lemma RouteReads(route: string, rest: string, off: nat)
    requires OneBlock(route)
    ensures Lex(route, 0).Some?
    ensures ReadsTo(route + rest, |route|, off, ShiftAll(Lex(route, 0).value, off))
  {
    hide Lex, OneBlock, ReadsTo, Agree;
    RouteLexes(route);
    var ts := Lex(route, 0).value;
    var last, k := |route| - 1, |ts| - 1;
    var s := route + rest;
    CutAtToken(route, 0, k);
    TokenAt(route, 0, k);
    BraceAgrees(route, rest);
    ReadsAgree(route, s, last, 0, ts[..k]);
    BraceReads(s[last..], last);
    ReadsOn(s, last, 1, 0, ts[..k], [ts[k]]);
    assert ts[..k] + [ts[k]] == ts;
    HeadShifts(s, |route|, 0, ts, off);
  }

  lemma BraceAgrees(route: string, rest: string)
    requires route != [] && route[|route| - 1] == '}'
    ensures Agree(route, route + rest, |route| - 1)
    ensures (route + rest)[|route| - 1..] == "}" + rest
  {
  }

  lemma ReadsAgree(s: string, s': string, x: nat, off: nat, ts: seq<Token>)
    requires ReadsTo(s, x, off, ts) && Agree(s, s', x)
    ensures ReadsTo(s', x, off, ts)
  {
    hide Cut, Head;
    CutTransfers(s, s', x, off);
  }

  lemma BraceReads(s: string, off: nat)
    requires s != [] && s[0] == '}'
    ensures ReadsTo(s, 1, off, [Token("}", off, off + 1, true)])
  {
    hide WordAt;
    ReadsNothing(s[1..], off + 1);
    assert Scan(s) == Punctuation;
    ReadsOneMore(s, 1, off, []);
    assert Yield(s, off) + [] == [Token("}", off, off + 1, true)];
  }

  /** The route, run where a machine waits for a header, adds its blocks and nothing else. */
  lemma RouteRuns(route: string, m: Machine, d: nat)
    requires OneBlock(route) && m.Ok() && m.pending == []
    ensures FeedAll(m, ShiftAll(Lex(route, 0).value, d)) ==
            Some(Machine(m.found + LiftedAll(BlocksOf(route).value, |m.found|, m.Top(), d), m.stack, []))
  {
    hide Lex, FeedAll, KeepsInside, LiftedAll, Contains;
    var ts := Lex(route, 0).value;
    LiftFeedAll(START, m, d, ts);
    LiftOfNothing(m, d);
    LiftOfDone(FeedAll(START, ts).value, m, d);
  }

  lemma LiftOfNothing(m: Machine, d: nat)
    requires m.pending == []
    ensures Lift(START, m, d) == m
  {
    var l := Lift(START, m, d);
    assert l.found == m.found && l.stack == m.stack && l.pending == [];
  }

  lemma LiftOfDone(r: Machine, m: Machine, d: nat)
    requires r.stack == [] && r.pending == []
    ensures Lift(r, m, d) == Machine(m.found + LiftedAll(r.found, |m.found|, m.Top(), d), m.stack, [])
  {
    var l := Lift(r, m, d);
    assert l.stack == m.stack && l.pending == [];
  }

  lemma ReadBefore(m: Machine, hi: nat, q: nat)
    requires Shape(m, hi) && hi <= q
    ensures forall i :: 0 <= i < |m.found| ==> Before(m.found[i], i, q)
  {
    forall i | 0 <= i < |m.found|
      ensures Before(m.found[i], i, q)
    {
      assert Spanned(m.found[i], hi) && ParentIsNearest(m.found, i);
    }
  }

  // ---------------------------------------------------------------- inserting the route

  /** The text up to the end of the inserted route and its newline. */
  lemma InsertedReads(text: string, at: nat, route: string, head: seq<Token>)
    requires OneBlock(route) && at < |text| && text[at] == '}' && ReadsTo(text, at, 0, head)
    ensures Lex(route, 0).Some?
    ensures var t, q := Inserted(text, at, route), at + |route| + 6;
            && q <= |t| && t[q..] == text[at..]
            && ReadsTo(t, q, 0, head + ShiftAll(Lex(route, 0).value, at + 5))
  {
    hide Lex, OneBlock, ReadsTo, Inserted, Agree, IsSpace, ShiftAll;
    InsertedParts(text, at, route);
    RouteReads(route, "\n" + text[at..], at + 5);
    var t, ts := Inserted(text, at, route), ShiftAll(Lex(route, 0).value, at + 5);
    ReadsAgree(text, t, at, 0, head);
    BlanksRead(t[at..], 5, at);
    ReadsOn(t, at, 5, 0, head, []);
    ReadsOn(t, at + 5, |route|, 0, head + [], ts);
    BlanksRead(t[at + 5 + |route|..], 1, at + 5 + |route|);
    ReadsOn(t, at + 5 + |route|, 1, 0, head + [] + ts, []);
    assert head + [] + ts + [] == head + ts;
  }

  lemma InsertedParts(text: string, at: nat, route: string)
    requires at < |text| && text[at] == '}'
    ensures var t := Inserted(text, at, route);
            && |t| == |text| + |route| + 6
            && Agree(text, t, at)
            && (forall i :: 0 <= i < 5 ==> IsSpace(t[at..][i]))
            && t[at + 5..] == route + ("\n" + text[at..])
            && |t[at + 5 + |route|..]| > 0 && IsSpace(t[at + 5 + |route|..][0])
            && t[at + 6 + |route|..] == text[at..]
  {
    var t := Inserted(text, at, route);
    assert t[..at] == text[..at];
    assert t[at] == '\n';
  }

  /** Behind block `v` closing at `at`, the new text has the old blocks moved and the route in `v`. */
  lemma InsertParses(text: string, v: nat, route: string) returns (n: nat)
    requires OneBlock(route) && BlocksOf(text).Some? && v < |BlocksOf(text).value|
    ensures var found, blocks := BlocksOf(text).value, BlocksOf(route).value;
            var at := found[v].closing;
            && 0 <= at < |text| && v < n <= |found|
            && (forall i :: 0 <= i < |found| ==> (i < n <==> found[i].start < at))
            && BlocksOf(Inserted(text, at, route)) ==
               Some(Splice(n, 0, |blocks|, at, at + |route| + 6)
                    .Apply(found, LiftedAll(blocks, n, Some(v), at + 5)))
  {
    hide Lex, FeedAll, Shape, OneBlock, Finished, ReadsTo, Before, Inserted, LiftedAll, Later;
    RouteLexes(route);
    var ts, found := Lex(text, 0).value, BlocksOf(text).value;
    var c, hi := CloserIn(text, v);
    var m := FeedAll(START, ts[..c]).value;
    n := |m.found|;
    CutAtToken(text, 0, c);
    TokenAt(text, 0, c);
    var at := ts[c].start;
    InsertedReads(text, at, route, ts[..c]);
    RouteRuns(route, m, at + 5);
    ReadBefore(m, hi, at);
    assert m.found + [] == m.found;
    SpliceParses(text, Inserted(text, at, route), c, c, at, at + |route| + 6, [],
                 LiftedAll(BlocksOf(route).value, n, Some(v), at + 5), ShiftAll(Lex(route, 0).value, at + 5));
  }

  /** The closing token of block `v`, with the machine that meets it. */
  lemma CloserIn(text: string, v: nat) returns (c: nat, hi: nat)
    requires BlocksOf(text).Some? && v < |BlocksOf(text).value|
    ensures var ts, found := Lex(text, 0).value, BlocksOf(text).value;
            && c < |ts| && Closes(ts[c]) && FeedAll(START, ts[..c]).Some?
            && found[v].closing == ts[c].start && found[v].end == ts[c].end
            && var m := FeedAll(START, ts[..c]).value;
               && m.Ok() && m.Top() == Some(v) && m.pending == [] && v < |m.found| <= |found|
               && Shape(m, hi) && hi <= ts[c].start < ts[c].end
               && FeedAll(START, ts[..c + 1]) == Closed(m, ts[c])
               && forall i :: 0 <= i < |found| ==>
                    if i < |m.found| then found[i].start < ts[c].start else ts[c].end <= found[i].start
  {
    hide Lex, FeedAll, Spans, Parents, StackIsOpen, Waiting, Later, Closed;
    var ts, found := Lex(text, 0).value, BlocksOf(text).value;
    TokensFollow(text);
    StartIsShaped();
    BlocksAreWellNested(text);
    c := CloserOf(START, 0, ts, v);
    var m := FeedAll(START, ts[..c]).value;
    HalfWay(text, c);
    HalfWay(text, c + 1);
    hi := LastEnd(ts[..c], 0);
    assert ts[c..][0] == ts[c];
    assert ts[..c + 1] == ts[..c] + [ts[c]];
    FeedAllSum(START, ts[..c], [ts[c]]);
    FeedOne(m, ts[c]);
    ClosedIs(m, ts[c]);
    StartsSplit(m, hi, Closed(m, ts[c]).value, FeedAll(START, ts).value, ts[c].start, ts[c].end);
  }

  lemma ClosedIs(m: Machine, t: Token)
    requires m.Ok() && Closes(t)
    ensures Feed(m, t) == Closed(m, t)
    ensures Closed(m, t).Some? ==> |Closed(m, t).value.found| == |m.found| && Closed(m, t).value.pending == []
  {
  }

  lemma StartsSplit(m: Machine, hi: nat, m1: Machine, m': Machine, at: nat, end: nat)
    requires Shape(m, hi) && Later(m, m', hi) && hi <= at
    requires |m1.found| == |m.found| && m1.pending == [] && Later(m1, m', end)
    ensures |m.found| <= |m'.found|
    ensures forall i :: 0 <= i < |m'.found| ==>
              if i < |m.found| then m'.found[i].start < at else end <= m'.found[i].start
  {
    forall i | 0 <= i < |m.found|
      ensures m'.found[i].start < at
    {
      assert Spanned(m.found[i], hi) && Matures(m.found[i], m'.found[i], hi);
    }
  }

  // ---------------------------------------------------------------- replacing a block

  /** The tokens of block `x`, with the machine that waits for its first word. */
  lemma TokensOf(text: string, x: nat) returns (h: nat, c: nat)
    requires BlocksOf(text).Some? && x < |BlocksOf(text).value|
    ensures var ts, found := Lex(text, 0).value, BlocksOf(text).value;
            && h <= c < |ts| && FeedAll(START, ts[..h]).Some? && FeedAll(START, ts[..c + 1]).Some?
            && ts[h].start == found[x].start && IsWord(ts[h]) && ts[c].end == found[x].end
            && var m, m' := FeedAll(START, ts[..h]).value, FeedAll(START, ts[..c + 1]).value;
               && m.Ok() && m.pending == [] && |m.found| == x && m.Top() == found[x].parent
               && m.found <= m'.found && m'.stack == m.stack && m'.pending == [] && x < |m'.found| <= |found|
               && (forall i :: 0 <= i < x ==> Before(m.found[i], i, found[x].start))
               && (forall i :: 0 <= i < |found| ==> (i < |m'.found| <==> found[i].start < found[x].end))
  {
    hide Lex, FeedAll, Shape, Later, Closed, Opened, Before, WordsAreTail;
    var ts, found := Lex(text, 0).value, BlocksOf(text).value;
    var o;
    h, o := OpenerIn(text, x);
    var hi;
    c, hi := CloserIn(text, x);
    var m, mo, mc := FeedAll(START, ts[..h]).value, FeedAll(START, ts[..o + 1]).value, FeedAll(START, ts[..c]).value;
    OpenedBeforeClosed(text, x, o, c);
    HalfWay(text, o + 1);
    BetweenPrefixes(ts, o + 1, c);
    ClosedStack(mo, LastEnd(ts[..o + 1], 0), ts[o + 1..c], mc, hi, m.stack, x);
    ClosedPops(mc, ts[c], m.stack, x);
  }

  /** The opening brace of block `x`, and the first word of its header. */
  lemma OpenerIn(text: string, x: nat) returns (h: nat, o: nat)
    requires BlocksOf(text).Some? && x < |BlocksOf(text).value|
    ensures var ts, found := Lex(text, 0).value, BlocksOf(text).value;
            && h < o < |ts| && FeedAll(START, ts[..h]).Some? && FeedAll(START, ts[..o + 1]).Some?
            && ts[h].start == found[x].start && IsWord(ts[h]) && Opens(ts[o])
            && var m, mo := FeedAll(START, ts[..h]).value, FeedAll(START, ts[..o + 1]).value;
               && m.Ok() && m.pending == [] && |m.found| == x && m.Top() == found[x].parent
               && mo.stack == m.stack + [x] && |mo.found| == x + 1 && mo.found[..x] == m.found
               && (forall i :: 0 <= i < x ==> Before(m.found[i], i, found[x].start))
  {
    hide Lex, FeedAll, Shape, Before, Opened;
    var ts, found := Lex(text, 0).value, BlocksOf(text).value;
    FeedAllNone(START);
    o := OpenerOf(START, ts, x);
    var mb := FeedAll(START, ts[..o]).value;
    PendingIsTail(ts[..o]);
    h := o - |mb.pending|;
    HalfWay(text, h);
    HalfWay(text, o + 1);
    assert ts[..o][..h] == ts[..h];
    assert ts[..o + 1] == ts[..o] + [ts[o]];
    FeedAllSum(START, ts[..o], [ts[o]]);
    FeedOne(mb, ts[o]);
    var m, mo := FeedAll(START, ts[..h]).value, FeedAll(START, ts[..o + 1]).value;
    OpenedIs(mb, ts[o], mo);
    assert mb.pending[0] == ts[..o][h..][0] == ts[h];
    assert Matures(mo.found[x], found[x], LastEnd(ts[..o + 1], 0));
    assert ts[h..][0] == ts[h];
    ReadBefore(m, LastEnd(ts[..h], 0), ts[h].start);
  }

  lemma OpenedIs(mb: Machine, t: Token, mo: Machine)
    requires mb.Ok() && Opens(t) && Feed(mb, t) == Some(mo)
    ensures mb.pending != [] && mo.stack == mb.stack + [|mb.found|] && |mo.found| == |mb.found| + 1
    ensures mo.found[..|mb.found|] == mb.found
    ensures mo.found[|mb.found|].start == mb.pending[0].start && mo.found[|mb.found|].parent == mb.Top()
  {
  }

  lemma OpenedBeforeClosed(text: string, x: nat, o: nat, c: nat)
    requires BlocksOf(text).Some? && o < |Lex(text, 0).value| && c < |Lex(text, 0).value|
    requires FeedAll(START, Lex(text, 0).value[..o + 1]).Some? && FeedAll(START, Lex(text, 0).value[..c]).Some?
    requires |FeedAll(START, Lex(text, 0).value[..o + 1]).value.found| == x + 1
    requires |FeedAll(START, Lex(text, 0).value[..c]).value.found| > x
    requires Opens(Lex(text, 0).value[o])
    ensures o < c
  {
    hide Lex, FeedAll, Shape, Later;
    var ts := Lex(text, 0).value;
    if c <= o {
      GrowsAlong(text, c, o);
      assert ts[..o + 1] == ts[..o] + [ts[o]];
      HalfWay(text, o);
      FeedAllSum(START, ts[..o], [ts[o]]);
      FeedOne(FeedAll(START, ts[..o]).value, ts[o]);
      GrowsByOne(FeedAll(START, ts[..o]).value, ts[o]);
      assert false;
    }
  }

  lemma GrowsAlong(text: string, k: nat, l: nat)
    requires BlocksOf(text).Some? && k <= l <= |Lex(text, 0).value|
    ensures var ts := Lex(text, 0).value;
            && FeedAll(START, ts[..k]).Some? && FeedAll(START, ts[..l]).Some?
            && |FeedAll(START, ts[..k]).value.found| <= |FeedAll(START, ts[..l]).value.found|
  {
    hide Lex, FeedAll, Shape;
    var ts := Lex(text, 0).value;
    HalfWay(text, k);
    HalfWay(text, l);
    BetweenPrefixes(ts, k, l);
    var m := FeedAll(START, ts[..k]).value;
    FeedAllIsLater(m, LastEnd(ts[..k], 0), ts[k..l]);
  }

  lemma BetweenPrefixes(ts: seq<Token>, k: nat, l: nat)
    requires k <= l <= |ts| && Following(ts[k..], LastEnd(ts[..k], 0))
    requires FeedAll(START, ts[..k]).Some?
    ensures FeedAll(START, ts[..l]) == FeedAll(FeedAll(START, ts[..k]).value, ts[k..l])
    ensures Following(ts[k..l], LastEnd(ts[..k], 0))
  {
    hide FeedAll;
    assert ts[..l] == ts[..k] + ts[k..l];
    FeedAllSum(START, ts[..k], ts[k..l]);
    assert forall i :: 0 <= i < l - k ==> ts[k..l][i] == ts[k..][i];
  }

  /** Where block `x` is innermost again, nothing below it has changed. */
  lemma ClosedStack(mo: Machine, ho: nat, ts: seq<Token>, mc: Machine, hi: nat, below: seq<nat>, x: nat)
    requires Shape(mo, ho) && Following(ts, ho) && FeedAll(mo, ts) == Some(mc) && Shape(mc, hi)
    requires mo.stack == below + [x] && mc.Top() == Some(x) && x < |mo.found|
    ensures mc.stack == below + [x] && x < |mc.found| && mc.found[..x] == mo.found[..x]
  {
    hide FeedAll, Spans, Parents, Waiting;
    assert mc.stack[|mc.stack| - 1] == x;
    WhileOpen(mo, ho, ts, below, x);
    assert mc.stack[|below|] == x;
  }

  lemma ClosedPops(mc: Machine, t: Token, below: seq<nat>, x: nat)
    requires mc.Ok() && mc.stack == below + [x] && mc.pending == []
    ensures Closed(mc, t).Some?
    ensures var m' := Closed(mc, t).value;
            m'.stack == below && m'.pending == [] && |m'.found| == |mc.found| && m'.found[..x] == mc.found[..x]
  {
  }

  function Replaced(text: string, b: Block, route: string): string
    requires b.start <= b.end <= |text|
  {
    text[..b.start] + route + text[b.end..]
  }

  lemma WordIsNoStop(text: string, h: nat)
    requires Lex(text, 0).Some? && h < |Lex(text, 0).value| && IsWord(Lex(text, 0).value[h])
    ensures var x := Lex(text, 0).value[h].start; x < |text| && !Stops(text[x])
  {
    hide Lex;
    TokenAt(text, 0, h);
  }

  lemma ReplacedReads(text: string, b: Block, route: string, head: seq<Token>)
    requires OneBlock(route) && b.start < b.end <= |text| && !Stops(text[b.start])
    requires ReadsTo(text, b.start, 0, head)
    ensures Lex(route, 0).Some?
    ensures var t, q := Replaced(text, b, route), b.start + |route|;
            && q <= |t| && t[q..] == text[b.end..]
            && ReadsTo(t, q, 0, head + ShiftAll(Lex(route, 0).value, b.start))
  {
    hide Lex, OneBlock, ReadsTo, ShiftAll;
    var t := Replaced(text, b, route);
    RouteLexes(route);
    assert t[..b.start] == text[..b.start];
    ReadsAgree(text, t, b.start, 0, head);
    assert t[b.start..] == route + text[b.end..];
    RouteReads(route, text[b.end..], b.start);
    ReadsOn(t, b.start, |route|, 0, head, ShiftAll(Lex(route, 0).value, b.start));
  }

  /** Writing the route over block `x` replaces `x` and the blocks inside it, and moves the rest. */
  lemma ReplaceParses(text: string, x: nat, route: string) returns (was: nat)
    requires OneBlock(route) && BlocksOf(text).Some? && x < |BlocksOf(text).value|
    ensures var found, blocks := BlocksOf(text).value, BlocksOf(route).value;
            var b := found[x];
            && 0 <= b.start < b.end <= |text| && 0 < was && x + was <= |found|
            && (forall i :: 0 <= i < |found| ==> (i < x + was <==> found[i].start < b.end))
            && BlocksOf(Replaced(text, b, route)) ==
               Some(Splice(x, was, |blocks|, b.end, b.start + |route|)
                    .Apply(found, LiftedAll(blocks, x, b.parent, b.start)))
  {
    hide Lex, FeedAll, OneBlock, Finished, ReadsTo, Before, Replaced, LiftedAll;
    RouteLexes(route);
    var ts, found := Lex(text, 0).value, BlocksOf(text).value;
    var b := found[x];
    BlocksAreWellNested(text);
    assert Spanned(b, |text|);
    var h, c := TokensOf(text, x);
    var m, m' := FeedAll(START, ts[..h]).value, FeedAll(START, ts[..c + 1]).value;
    var removed := m'.found[x..];
    was := |removed|;
    CutAtToken(text, 0, h);
    CutAtToken(text, 0, c);
    WordIsNoStop(text, h);
    ReplacedReads(text, b, route, ts[..h]);
    RouteRuns(route, m, b.start);
    BeforeWidens(m.found, b.start, b.end);
    assert m'.found == m.found + removed;
    SpliceParses(text, Replaced(text, b, route), h, c + 1, b.end, b.start + |route|, removed,
                 LiftedAll(BlocksOf(route).value, x, b.parent, b.start), ShiftAll(Lex(route, 0).value, b.start));
  }

  lemma BeforeWidens(found: seq<Block>, q: nat, q': nat)
    requires q <= q' && forall i :: 0 <= i < |found| ==> Before(found[i], i, q)
    ensures forall i :: 0 <= i < |found| ==> Before(found[i], i, q')
  {
    forall i | 0 <= i < |found|
      ensures Before(found[i], i, q')
    {
      assert Before(found[i], i, q);
    }
  }

  // ---------------------------------------------------------------- the laws of the installer

  /** Of a list, exactly the index `v` is chosen. */
  lemma OnlyOne(n: nat, p: nat -> bool, v: nat)
    ensures Where(n, p) == [v] <==> v < n && p(v) && forall i: nat :: i < n && p(i) ==> i == v
  {
    var r := Where(n, p);
    assert forall k :: 0 <= k < |r| ==> r[k] in r;
    if r == [v] {
      assert v in r;
      forall i: nat | i < n && p(i) ensures i == v { assert i in r; }
    }
    if v < n && p(v) && forall i: nat :: i < n && p(i) ==> i == v {
      assert v in r;
      OneEntry(r, v);
    }
  }

  /** Increasing and all the same: one entry. */
  lemma OneEntry(r: seq<nat>, v: nat)
    requires v in r && forall k :: 0 <= k < |r| ==> r[k] == v
    requires forall k, l :: 0 <= k < l < |r| ==> r[k] < r[l]
    ensures r == [v]
  {
    ClimbsByOne(r, |r| - 1);
  }

  lemma {:induction false} ClimbsByOne(r: seq<nat>, k: nat)
    requires k < |r| && forall i, j :: 0 <= i < j < |r| ==> r[i] < r[j]
    ensures r[k] >= r[0] + k
  {
    if k > 0 {
      ClimbsByOne(r, k - 1);
      assert r[k - 1] < r[k];
    }
  }

  /** The route stands in server `v` as block `n`, written at `d`; the other blocks are those of `found`. */
  ghost predicate Carries(found: seq<Block>, after: seq<Block>, sp: Splice, v: nat, route: string, d: nat) {
    && BlocksOf(route).Some? && v < sp.n && sp.n + sp.was <= |found|
    && after == sp.Apply(found, LiftedAll(BlocksOf(route).value, sp.n, Some(v), d))
    && sp.now == |BlocksOf(route).value|
  }

  /** Every block of the new text is a moved old block or a block of the route. */
  lemma EveryBlock(found: seq<Block>, after: seq<Block>, sp: Splice, v: nat, route: string, d: nat, i: nat)
    requires Carries(found, after, sp, v, route, d) && i < |after|
    ensures var blocks := BlocksOf(route).value;
            || (exists j: nat :: j < |found| && sp.Kept(j) && i == sp.Index(j) && after[i] == sp.Moved(found[j]))
            || (sp.n <= i < sp.n + sp.now && after[i] == Lifted(blocks[i - sp.n], sp.n, Some(v), d))
  {
    hide BlocksOf, LiftedAll;
    if i < sp.n {
      assert found[..sp.n][i] == found[i] && sp.Kept(i) && sp.Index(i) == i;
    } else if sp.n + sp.now <= i {
      var j := i - sp.now + sp.was;
      assert found[sp.n + sp.was..][j - sp.n - sp.was] == found[j];
      assert sp.Kept(j) && sp.Index(j) == i;
    }
  }

  lemma KeptBlock(found: seq<Block>, after: seq<Block>, sp: Splice, v: nat, route: string, d: nat, j: nat)
    requires Carries(found, after, sp, v, route, d) && j < |found| && sp.Kept(j)
    ensures sp.Index(j) < |after| && after[sp.Index(j)] == sp.Moved(found[j])
  {
    hide BlocksOf, LiftedAll;
    if j < sp.n {
      assert found[..sp.n][j] == found[j];
    } else {
      assert found[sp.n + sp.was..][j - sp.n - sp.was] == found[j];
    }
  }

  lemma RouteBlock(found: seq<Block>, after: seq<Block>, sp: Splice, v: nat, route: string, d: nat)
    requires Carries(found, after, sp, v, route, d) && OneBlock(route)
    ensures sp.n < |after|
    ensures var b := after[sp.n];
            b.header == EXACT_ROUTE && b.parent == Some(v) && b.start == d && b.end == d + |route|
  {
    hide Lex, FeedAll, KeepsInside, Contains, Finished;
    assert after[sp.n] == Lifted(BlocksOf(route).value[0], sp.n, Some(v), d);
  }

  /** The route's blocks are no servers, and only its first lies directly in the server. */
  lemma RouteBlocksAre(route: string, sp: Splice, v: nat, d: nat, k: nat)
    requires OneBlock(route) && k < |BlocksOf(route).value| && v < sp.n
    ensures var b := Lifted(BlocksOf(route).value[k], sp.n, Some(v), d);
            b.header != ["server"] && (b.parent == Some(v) <==> k == 0)
  {
    hide Lex, FeedAll, KeepsInside, Contains, Finished;
  }

  lemma ServerByContent(b: Block, b': Block, domain: string)
    requires b'.header == b.header && b'.directives == b.directives
    ensures IsHttpsServer(b', domain) == IsHttpsServer(b, domain)
    ensures IsHttpsServer(b, domain) ==> b.header == ["server"]
  {
  }

  lemma OnlyServer(found: seq<Block>, domain: string, v: nat)
    ensures HttpsServers(found, domain) == [v] <==>
            && v < |found| && IsHttpsServer(found[v], domain)
            && forall i: nat :: i < |found| && IsHttpsServer(found[i], domain) ==> i == v
  {
    hide IsHttpsServer;
    var p := (i: nat) => i < |found| && IsHttpsServer(found[i], domain);
    OnlyOne(|found|, p, v);
    assert forall i: nat :: p(i) <==> i < |found| && IsHttpsServer(found[i], domain);
  }

  /** The same single server is found again. */
  lemma SameServer(found: seq<Block>, after: seq<Block>, sp: Splice, v: nat, route: string, d: nat, domain: string)
    requires Carries(found, after, sp, v, route, d) && OneBlock(route)
    requires HttpsServers(found, domain) == [v]
    ensures HttpsServers(after, domain) == [v]
  {
    hide BlocksOf, OneBlock, Carries, IsHttpsServer, HttpsServers;
    OnlyServer(found, domain, v);
    VIsKept(found, after, sp, v, route, d);
    KeptBlock(found, after, sp, v, route, d, v);
    ServerByContent(found[v], after[v], domain);
    forall i: nat | i < |after| && IsHttpsServer(after[i], domain)
      ensures i == v
    {
      EveryBlock(found, after, sp, v, route, d, i);
      if j: nat :| j < |found| && sp.Kept(j) && i == sp.Index(j) && after[i] == sp.Moved(found[j]) {
        ServerByContent(found[j], after[i], domain);
      } else {
        VIsBefore(found, after, sp, v, route, d);
        RouteBlocksAre(route, sp, v, d, i - sp.n);
        ServerByContent(after[i], after[i], domain);
      }
    }
    OnlyServer(after, domain, v);
  }

  lemma VIsBefore(found: seq<Block>, after: seq<Block>, sp: Splice, v: nat, route: string, d: nat)
    requires Carries(found, after, sp, v, route, d)
    ensures v < sp.n && sp.now == |BlocksOf(route).value|
  {
  }

  lemma VIsKept(found: seq<Block>, after: seq<Block>, sp: Splice, v: nat, route: string, d: nat)
    requires Carries(found, after, sp, v, route, d)
    ensures v < |found| && sp.Kept(v) && sp.Index(v) == v
    ensures forall j: nat :: sp.Kept(j) && sp.Index(j) == v ==> j == v
  {
    hide BlocksOf, LiftedAll;
  }

  /** Starts name blocks, so a route of the server is a route whose parent is the server. */
  lemma ExactRouteIs(found: seq<Block>, n: nat, v: nat, i: nat)
    requires WellNested(found, n) && v < |found|
    ensures IsExactRoute(found, v, i) <==>
            i < |found| && found[i].parent == Some(v) && found[i].header == EXACT_ROUTE
  {
    if i < |found| && found[i].parent.Some? {
      assert ParentIsNearest(found, i);
      var p := found[i].parent.value;
      if p != v {
        assert found[p].start != found[v].start by {
          if p < v {
            assert found[p].start < found[v].start;
          } else {
            assert found[v].start < found[p].start;
          }
        }
      }
    }
  }

  /** The route is the server's only exact `/ws` route. */
  lemma OnlyRoute(found: seq<Block>, after: seq<Block>, sp: Splice, v: nat, route: string, d: nat, n: nat, n': nat)
    requires Carries(found, after, sp, v, route, d) && OneBlock(route)
    requires WellNested(found, n) && WellNested(after, n')
    requires forall i: nat :: sp.Kept(i) ==> !IsExactRoute(found, v, i)
    ensures ExactRoutes(after, v) == [sp.n]
  {
    hide BlocksOf, OneBlock, Carries, WellNested, IsExactRoute;
    VIsKept(found, after, sp, v, route, d);
    KeptBlock(found, after, sp, v, route, d, v);
    RouteBlock(found, after, sp, v, route, d);
    ExactRouteIs(after, n', v, sp.n);
    forall i: nat | i < |after| && IsExactRoute(after, v, i)
      ensures i == sp.n
    {
      ExactRouteIs(after, n', v, i);
      EveryBlock(found, after, sp, v, route, d, i);
      if j: nat :| j < |found| && sp.Kept(j) && i == sp.Index(j) && after[i] == sp.Moved(found[j]) {
        assert found[j].parent == Some(v);
        ExactRouteIs(found, n, v, j);
      } else {
        VIsBefore(found, after, sp, v, route, d);
        RouteBlocksAre(route, sp, v, d, i - sp.n);
      }
    }
    OnlyOne(|after|, (i: nat) => IsExactRoute(after, v, i), sp.n);
  }

  /** How a splice came about: into a server without the route, or over the server's one route. */
  ghost predicate WrittenAs(text: string, found: seq<Block>, out: string, sp: Splice, v: nat, route: string, d: nat) {
    if ExactRoutes(found, v) == [] then
      && v < |found| && 0 <= found[v].closing <= |text|
      && out == Inserted(text, found[v].closing, route)
      && sp.was == 0 && d == found[v].closing + 5
    else
      && ExactRoutes(found, v) == [sp.n] && sp.n < |found| && 0 <= found[sp.n].start <= found[sp.n].end <= |text|
      && out == Replaced(text, found[sp.n], route)
      && d == found[sp.n].start
      && sp.n + sp.was <= |found|
      && forall i :: sp.n < i < sp.n + sp.was ==> Encloses(found[sp.n], found[i])
  }

  lemma OnlyExactRoute(found: seq<Block>, v: nat)
    ensures forall x: nat :: ExactRoutes(found, v) == [x] ==>
              && IsExactRoute(found, v, x)
              && forall i: nat :: IsExactRoute(found, v, i) ==> i == x
    ensures ExactRoutes(found, v) == [] ==> forall i: nat :: !IsExactRoute(found, v, i)
  {
    hide IsExactRoute;
    var r := ExactRoutes(found, v);
    forall i: nat | IsExactRoute(found, v, i)
      ensures i in r
    {
      IndexInRange(found, v, i);
    }
    forall x: nat | r == [x]
      ensures IsExactRoute(found, v, x) && forall i: nat :: IsExactRoute(found, v, i) ==> i == x
    {
      assert x in r;
    }
  }

  lemma IndexInRange(found: seq<Block>, v: nat, i: nat)
    requires IsExactRoute(found, v, i)
    ensures i < |found|
  {
  }

  lemma InsertedIsWritten(text: string, found: seq<Block>, v: nat, route: string, sp: Splice)
    requires v < |found| && 0 <= found[v].closing <= |text| && ExactRoutes(found, v) == [] && sp.was == 0
    ensures WrittenAs(text, found, Inserted(text, found[v].closing, route), sp, v, route, found[v].closing + 5)
  {
    hide Inserted, ExactRoutes;
  }

  /** Inside a server: what the rendered text parses to. */
  lemma InsertLaw(text: string, v: nat, route: string) returns (sp: Splice, d: nat)
    requires OneBlock(route) && BlocksOf(text).Some? && v < |BlocksOf(text).value|
    requires ExactRoutes(BlocksOf(text).value, v) == []
    ensures var found := BlocksOf(text).value;
            && 0 <= found[v].closing <= |text|
            && var out := Inserted(text, found[v].closing, route);
               && BlocksOf(out).Some? && Carries(found, BlocksOf(out).value, sp, v, route, d)
               && WrittenAs(text, found, out, sp, v, route, d)
  {
    hide Lex, FeedAll, OneBlock, Finished, Inserted, LiftedAll, ExactRoutes, WellNested, Contains, WrittenAs, BlocksOf;
    var found := BlocksOf(text).value;
    RouteLexes(route);
    var n := InsertParses(text, v, route);
    var at := found[v].closing;
    sp := Splice(n, 0, |BlocksOf(route).value|, at, at + |route| + 6);
    d := at + 5;
    InsertedIsWritten(text, found, v, route, sp);
  }

  lemma ReplaceLaw(text: string, v: nat, x: nat, route: string) returns (sp: Splice, d: nat)
    requires OneBlock(route) && BlocksOf(text).Some? && v < |BlocksOf(text).value|
    requires ExactRoutes(BlocksOf(text).value, v) == [x]
    ensures var found := BlocksOf(text).value;
            && x < |found| && 0 <= found[x].start <= found[x].end <= |text|
            && var out := Replaced(text, found[x], route);
               && BlocksOf(out).Some? && Carries(found, BlocksOf(out).value, sp, v, route, d)
               && WrittenAs(text, found, out, sp, v, route, d) && sp.n == x && sp.was > 0
  {
    hide Lex, FeedAll, OneBlock, Finished, Replaced, LiftedAll, ExactRoutes, IsExactRoute, WellNested;
    var found := BlocksOf(text).value;
    BlocksAreWellNested(text);
    OnlyExactRoute(found, v);
    ExactRouteIs(found, |text|, v, x);
    ParentComesFirst(found, |text|, x);
    RouteLexes(route);
    var was := ReplaceParses(text, x, route);
    sp := Splice(x, was, |BlocksOf(route).value|, found[x].end, found[x].start + |route|);
    d := found[x].start;
    forall i | x < i < x + was
      ensures Encloses(found[x], found[i])
    {
      NestedOrDisjoint(found, |text|, x, i);
    }
  }

  lemma ParentComesFirst(found: seq<Block>, n: nat, x: nat)
    requires WellNested(found, n) && x < |found|
    ensures found[x].parent.Some? ==> found[x].parent.value < x
  {
    assert ParentIsNearest(found, x);
  }

  /** The splice law: what is written parses again, to the same blocks moved along and the route as the one
      exact `/ws` route of the same single HTTPS server. */
  lemma SpliceLaw(text: string, domain: string, route: string) returns (sp: Splice, v: nat, d: nat)
    requires OneBlock(route) && RenderRoute(text, domain, route).Some?
    ensures var out := RenderRoute(text, domain, route).value;
            && BlocksOf(text).Some? && BlocksOf(out).Some?
            && var found, after := BlocksOf(text).value, BlocksOf(out).value;
               && HttpsServers(found, domain) == [v] && HttpsServers(after, domain) == [v]
               && Carries(found, after, sp, v, route, d)
               && WrittenAs(text, found, out, sp, v, route, d)
               && ExactRoutes(after, v) == [sp.n]
  {
    hide Lex, FeedAll, OneBlock, Finished, Inserted, LiftedAll, HttpsServers, ExactRoutes, IsExactRoute, Carries, WrittenAs, WellNested, Contains;
    var found := BlocksOf(text).value;
    var out := RenderRoute(text, domain, route).value;
    v := HttpsServers(found, domain)[0];
    assert HttpsServers(found, domain) == [v];
    OnlyServer(found, domain, v);
    BlocksAreWellNested(text);
    OnlyExactRoute(found, v);
    if ExactRoutes(found, v) == [] {
      sp, d := InsertLaw(text, v, route);
    } else {
      var x := ExactRoutes(found, v)[0];
      assert ExactRoutes(found, v) == [x];
      sp, d := ReplaceLaw(text, v, x, route);
    }
    var after := BlocksOf(out).value;
    BlocksAreWellNested(out);
    SameServer(found, after, sp, v, route, d, domain);
    OnlyRoute(found, after, sp, v, route, d, |text|, |out|);
  }

  /** Whatever was installed last is what stands there: rendering twice is rendering once, with the second route. */
  lemma LastInstallWins(text: string, domain: string, first: string, second: string)
    requires OneBlock(first) && RenderRoute(text, domain, first).Some?
    ensures RenderRoute(RenderRoute(text, domain, first).value, domain, second) == RenderRoute(text, domain, second)
  {
    hide Lex, FeedAll, OneBlock, Finished, LiftedAll, HttpsServers, ExactRoutes, Carries, WellNested, Contains;
    var sp, v, d := SpliceLaw(text, domain, first);
    var found, out := BlocksOf(text).value, RenderRoute(text, domain, first).value;
    var after := BlocksOf(out).value;
    RouteBlock(found, after, sp, v, first, d);
    OneBlockIsMarked(first);
    if ExactRoutes(found, v) == [] {
      InsertedAgain(text, found[v].closing, first, second);
    } else {
      ReplacedAgain(text, found[sp.n], first, second);
    }
  }

  lemma OneBlockIsMarked(route: string)
    requires OneBlock(route)
    ensures Contains(route, MARKER)
  {
    hide BlocksOf;
  }

  lemma InsertedAgain(text: string, at: nat, first: string, second: string)
    requires at <= |text|
    ensures var t := Inserted(text, at, first);
            && at + 5 + |first| <= |t| && t[at + 5..at + 5 + |first|] == first
            && t[..at + 5] + second + t[at + 5 + |first|..] == Inserted(text, at, second)
  {
    var t := Inserted(text, at, first);
    assert t[..at + 5] == text[..at] + "\n    ";
    assert t[at + 5 + |first|..] == "\n" + text[at..];
  }

  lemma ReplacedAgain(text: string, b: Block, first: string, second: string)
    requires 0 <= b.start <= b.end <= |text|
    ensures var t := Replaced(text, b, first);
            && b.start + |first| <= |t| && t[b.start..b.start + |first|] == first
            && t[..b.start] + second + t[b.start + |first|..] == Replaced(text, b, second)
  {
    var t := Replaced(text, b, first);
    assert t[..b.start] == text[..b.start];
    assert t[b.start + |first|..] == text[b.end..];
  }

  /** Installing the same route again changes nothing. */
  lemma InstallIsIdempotent(text: string, domain: string, route: string)
    requires OneBlock(route) && RenderRoute(text, domain, route).Some?
    ensures var out := RenderRoute(text, domain, route).value;
            RenderRoute(out, domain, route) == Some(out)
  {
    hide RenderRoute, OneBlock;
    LastInstallWins(text, domain, route, route);
  }
}
