/** A route as the template renders it: its comment line, and one directive that passes on to the upstream. */
module NginxTemplate {
  import opened Wrappers
  import opened NginxLexer
  import opened NginxBlocks
  import opened NginxSplice
  import opened NginxRoute

  /** The lines after the comment. */
  function Body(upstream: string): string {
    "    " + ("proxy_pass" + (" " + (upstream + (";" + ("\n    " + ("}" + ""))))))
  }

  /** The header and what follows it. */
  function Headed(rest: string): string { "location" + (" " + ("=" + (" " + ("/ws" + (" " + rest))))) }

  /** The opening brace, a comment line and what follows them. */
  function Commented(line: string, rest: string): string { "{" + ("\n    " + ("#" + line + ("\n" + rest))) }

  function Template(upstream: string): string { Headed(Commented(" " + MARKER, Body(upstream))) }

  /** A word without quotes, variables or escapes. */
  predicate PlainWord(w: string) {
    w != "" && forall i :: 0 <= i < |w| ==> !Stops(w[i]) && !IsQuote(w[i]) && w[i] != '$' && w[i] != '\\'
  }

  // ---------------------------------------------------------------- lexing it

  lemma {:induction false} PlainWordAt(w: string, rest: string)
    requires PlainWord(w) && rest != "" && Stops(rest[0])
    ensures WordAt(w + rest) == Some(Chunk(w, |w|))
  {
    hide Stops, IsQuote, PartAt;
    var s, tail := w + rest, w[1..];
    assert s[1..] == tail + rest && [w[0]] + tail == w;
    PlainPartAt(s);
    if tail == "" {
      assert s[1..] == rest;
      assert WordAt(rest) == Some(Chunk("", 0));
    } else {
      PlainWordAt(tail, rest);
    }
  }

  lemma PlainPartAt(s: string)
    requires s != "" && !Stops(s[0]) && !IsQuote(s[0]) && s[0] != '$' && s[0] != '\\'
    ensures PartAt(s) == Some(Chunk([s[0]], 1))
  {
    hide Stops;
  }

  lemma WordLexes(w: string, rest: string, off: nat)
    requires PlainWord(w) && rest != "" && Stops(rest[0])
    ensures Lex(w + rest, off) == Join([Token(w, off, off + |w|, false)], Lex(rest, off + |w|))
  {
    hide WordAt;
    PlainWordAt(w, rest);
    assert (w + rest)[|w|..] == rest && (w + rest)[0] == w[0];
    assert Scan(w + rest) == Word(Chunk(w, |w|));
  }

  lemma {:induction false} BlanksLex(b: string, rest: string, off: nat)
    requires forall i :: 0 <= i < |b| ==> IsSpace(b[i])
    ensures Lex(b + rest, off) == Lex(rest, off + |b|)
  {
    hide WordAt, IsSpace;
    if b == "" { assert b + rest == rest; }
    else {
      BlanksLex(b[1..], rest, off + 1);
      assert (b + rest)[1..] == b[1..] + rest && (b + rest)[0] == b[0];
      NothingJoins(Lex(b[1..] + rest, off + 1));
      assert Scan(b + rest) == Blank(1);
    }
  }

  lemma NothingJoins(r: Option<seq<Token>>)
    ensures Join([], r) == r
  {
    JoinNothing(r);
  }

  lemma PunctuationLexes(c: char, rest: string, off: nat)
    requires IsPunctuation(c)
    ensures Lex([c] + rest, off) == Join([Token([c], off, off + 1, true)], Lex(rest, off + 1))
  {
    hide WordAt;
    assert ([c] + rest)[1..] == rest && ([c] + rest)[0] == c;
    assert Scan([c] + rest) == Punctuation;
  }

  lemma {:induction false} LineLengthIs(line: string, rest: string)
    requires '\n' !in line
    ensures LineLength(line + ("\n" + rest)) == |line| + 1
  {
    var s := line + ("\n" + rest);
    if line == "" { assert s[0] == '\n'; }
    else {
      LineLengthIs(line[1..], rest);
      assert s[1..] == line[1..] + ("\n" + rest) && s[0] == line[0];
      assert s[0] in line;
    }
  }

  lemma CommentLexes(line: string, rest: string, off: nat)
    requires '\n' !in line
    ensures Lex("#" + line + ("\n" + rest), off) == Lex(rest, off + |line| + 2)
  {
    hide WordAt, LineLength;
    var s := "#" + line + ("\n" + rest);
    assert '\n' !in "#" + line;
    LineLengthIs("#" + line, rest);
    assert s[|line| + 2..] == rest;
    assert Scan(s) == Blank(|line| + 2);
    NothingJoins(Lex(rest, off + |line| + 2));
  }

  /** The tokens of the lines after the comment, which start at `d`. */
  function BodyTokens(u: string, d: nat): seq<Token> {
    [Token("proxy_pass", d + 4, d + 14, false)] + ([Token(u, d + 15, d + 15 + |u|, false)] + FootTokens(d + 15 + |u|))
  }

  function FootTokens(d: nat): seq<Token> { [Token(";", d, d + 1, true)] + ([Token("}", d + 6, d + 7, true)] + []) }

  lemma BodyLexes(u: string, d: nat)
    requires PlainWord(u)
    ensures Lex(Body(u), d) == Some(BodyTokens(u, d))
  {
    hide Lex;
    var close := "}" + "";
    var stop := ";" + ("\n    " + close);
    var pass := "proxy_pass" + (" " + (u + stop));
    LexOfEmpty(d + 22 + |u|);
    PunctuationLexes('}', "", d + 21 + |u|);
    BlanksLex("\n    ", close, d + 16 + |u|);
    PunctuationLexes(';', "\n    " + close, d + 15 + |u|);
    WordLexes(u, stop, d + 15);
    BlanksLex(" ", u + stop, d + 14);
    assert PlainWord("proxy_pass");
    WordLexes("proxy_pass", " " + (u + stop), d + 4);
    BlanksLex("    ", pass, d);
  }

  lemma LexOfEmpty(off: nat)
    ensures Lex("", off) == Some([])
  {}

  function HeadTokens(): seq<Token> {
    [Token("location", 0, 8, false)] + ([Token("=", 9, 10, false)] + [Token("/ws", 11, 14, false)])
  }

  lemma HeadLexes(rest: string)
    ensures Lex(Headed(rest), 0) == Join(HeadTokens(), Lex(rest, 15))
  {
    hide Lex;
    var path := "/ws" + (" " + rest);
    var equals := "=" + (" " + path);
    BlanksLex(" ", rest, 14);
    assert PlainWord("/ws") && PlainWord("=") && PlainWord("location");
    WordLexes("/ws", " " + rest, 11);
    BlanksLex(" ", path, 10);
    WordLexes("=", " " + path, 9);
    BlanksLex(" ", equals, 8);
    WordLexes("location", " " + equals, 0);
    var location, eq, ws := Token("location", 0, 8, false), Token("=", 9, 10, false), Token("/ws", 11, 14, false);
    JoinAssociates([eq], [ws], Lex(rest, 15));
    JoinAssociates([location], [eq] + [ws], Lex(rest, 15));
  }

  lemma CommentedLexes(line: string, rest: string)
    requires '\n' !in line
    ensures Lex(Commented(line, rest), 15) == Join([Token("{", 15, 16, true)], Lex(rest, 23 + |line|))
  {
    hide Lex;
    var comment := "#" + line + ("\n" + rest);
    CommentLexes(line, rest, 21);
    BlanksLex("\n    ", comment, 16);
    PunctuationLexes('{', "\n    " + comment, 15);
  }

  /** All tokens of the template whose body starts at `d`. */
  function AllTokens(u: string, d: nat): seq<Token> { HeadTokens() + ([Token("{", 15, 16, true)] + BodyTokens(u, d)) }

  lemma TemplateLexes(u: string)
    requires PlainWord(u)
    ensures Lex(Template(u), 0) == Some(AllTokens(u, 24 + |MARKER|))
  {
    hide Lex, Body, Headed, Commented, BodyTokens, HeadTokens;
    assert '\n' !in " " + MARKER;
    BodyLexes(u, 24 + |MARKER|);
    CommentedLexes(" " + MARKER, Body(u));
    HeadLexes(Commented(" " + MARKER, Body(u)));
  }

  // ---------------------------------------------------------------- parsing it

  /** The one block of such tokens. */
  function Whole(u: string, d: nat): Block {
    Block(EXACT_ROUTE, 0, 16, d + 21 + |u|, d + 22 + |u|, None, [["proxy_pass", u]])
  }

  const OPEN := Block(EXACT_ROUTE, 0, 16, -1, -1, None, [])

  lemma HeaderOpens(body: seq<Token>)
    ensures var m, ts := Machine([OPEN], [0], []), HeadTokens() + ([Token("{", 15, 16, true)] + body);
            FeedAll(START, ts) == FeedAll(m, body) && (KeepsInside(m, body) ==> KeepsInside(START, ts))
  {
    hide FeedAll, KeepsInside, Feed;
    var brace := [Token("{", 15, 16, true)] + body;
    var ts := HeadTokens() + brace;
    TakesWords(START, ts, 3);
    assert ts[..3] == HeadTokens() && ts[3..] == brace && brace[1..] == body;
    BraceOpens();
    var m := Machine([], [], HeadTokens());
    assert START.pending + ts[..3] == HeadTokens();
    Takes(m, brace, Machine([OPEN], [0], []));
  }

  lemma BraceOpens()
    ensures Feed(Machine([], [], HeadTokens()), Token("{", 15, 16, true)) == Some(Machine([OPEN], [0], []))
  {
    var m := Machine([], [], HeadTokens());
    assert Values(HeadTokens()) == EXACT_ROUTE;
    var b := Block(Values(m.pending), m.pending[0].start, 16, -1, -1, m.Top(), []);
    assert m.found + [b] == [OPEN] && m.stack + [|m.found|] == [0];
  }

  lemma BodyCloses(ts: seq<Token>, u: string, d: nat)
    requires ts == BodyTokens(u, d)
    ensures var m := Machine([OPEN], [0], []);
            FeedAll(m, ts) == Some(Machine([Whole(u, d)], [], [])) && KeepsInside(m, ts)
  {
    hide FeedAll, KeepsInside;
    var m := Machine([OPEN], [0], []);
    TakesWords(m, ts, 2);
    var words := m.(pending := m.pending + ts[..2]);
    assert Values(words.pending) == ["proxy_pass", u];
    var full := Machine([OPEN.(directives := [["proxy_pass", u]])], [0], []);
    assert OPEN.directives + [["proxy_pass", u]] == [["proxy_pass", u]];
    assert Feed(words, ts[2..][0]).value.found == full.found;
    Takes(words, ts[2..], full);
    assert ts[2..][1..] == ts[3..];
    CloseIt(full, ts[3..], u, d);
  }

  lemma CloseIt(full: Machine, ts: seq<Token>, u: string, d: nat)
    requires full == Machine([OPEN.(directives := [["proxy_pass", u]])], [0], [])
    requires ts == [Token("}", d + 21 + |u|, d + 22 + |u|, true)]
    ensures FeedAll(full, ts) == Some(Machine([Whole(u, d)], [], [])) && KeepsInside(full, ts)
  {
    var done := Machine([Whole(u, d)], [], []);
    assert Feed(full, ts[0]).value.found == done.found && Feed(full, ts[0]).value.stack == [];
    assert ts[1..] == [];
    assert FeedAll(done, ts[1..]) == Some(done);
  }

  lemma TemplateParses(u: string)
    requires PlainWord(u)
    ensures BlocksOf(Template(u)) == Some([Whole(u, 24 + |MARKER|)])
    ensures KeepsInside(START, Lex(Template(u), 0).value)
  {
    hide Lex, Template, FeedAll, KeepsInside, Whole;
    TemplateLexes(u);
    var d := 24 + |MARKER|;
    var ts := AllTokens(u, d);
    HeaderOpens(BodyTokens(u, d));
    BodyCloses(BodyTokens(u, d), u, d);
  }

  lemma TemplateLength(u: string)
    ensures |Template(u)| == 46 + |MARKER| + |u|
  {}

  /** One token moves one machine to the next. */
  lemma Takes(m: Machine, ts: seq<Token>, m': Machine)
    requires m.Ok() && ts != [] && Feed(m, ts[0]) == Some(m')
    ensures FeedAll(m, ts) == FeedAll(m', ts[1..])
    ensures (m.stack != [] || !Ends(ts[0])) && KeepsInside(m', ts[1..]) ==> KeepsInside(m, ts)
  {
    hide Feed;
  }

  lemma {:induction false} TakesWords(m: Machine, ts: seq<Token>, n: nat)
    requires m.Ok() && n <= |ts| && forall i :: 0 <= i < n ==> !ts[i].punctuation
    ensures var m' := m.(pending := m.pending + ts[..n]);
            && FeedAll(m, ts) == FeedAll(m', ts[n..])
            && (KeepsInside(m', ts[n..]) ==> KeepsInside(m, ts))
    decreases n
  {
    if n == 0 {
      assert m.pending + ts[..0] == m.pending && ts[0..] == ts;
    } else {
      var next := m.(pending := m.pending + [ts[0]]);
      TakesWords(next, ts[1..], n - 1);
      assert next.pending + ts[1..][..n - 1] == m.pending + ts[..n] && ts[1..][n - 1..] == ts[n..];
    }
  }

  /** So the text the installer writes for such an upstream is one that its laws speak of. */
  lemma TemplateIsOneBlock(u: string)
    requires PlainWord(u)
    ensures OneBlock(Template(u))
  {
    hide Lex, FeedAll, KeepsInside;
    TemplateLexes(u);
    TemplateParses(u);
    TemplateLength(u);
    TemplateIsMarked(u);
    var ts := Lex(Template(u), 0).value;
    assert ts[|ts| - 1] == BodyTokens(u, 24 + |MARKER|)[3];
  }

  lemma TemplateIsMarked(u: string)
    ensures Contains(Template(u), MARKER)
  {
    var at := 23;
    var t := Template(u);
    assert t[..at] + (MARKER + ("\n" + Body(u))) == t;
    assert t[at..at + |MARKER|] == MARKER;
    assert StandsAt(t, MARKER, at);
  }
}
