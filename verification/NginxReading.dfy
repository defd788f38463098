/** What the tokenizer reads back: every text put together from words, marks, spaces and comments. */
module NginxReading {
  import opened Wrappers
  import opened NginxLexer

  // ---------------------------------------------------------------- writing

  /** A character of a quoted string, with a backslash before it or not. */
  datatype Inner = Inner(c: char, escaped: bool)

  /** A part of a word as a configuration writes it. */
  datatype Piece = Plain(c: char) | Escaped(c: char) | Quoted(quote: char, inner: seq<Inner>) | Variable(name: string)

  /** A quoted character may stand bare unless it is the quote itself or a backslash. */
  predicate Quotable(quote: char, i: Inner) { i.escaped || (i.c != quote && i.c != '\\') }

  predicate Writable(p: Piece) {
    match p
    case Plain(c) => !Stops(c) && !IsQuote(c) && c != '\\'
    case Escaped(_) => true
    case Quoted(quote, inner) => IsQuote(quote) && forall i :: 0 <= i < |inner| ==> Quotable(quote, inner[i])
    case Variable(name) => forall i :: 0 <= i < |name| ==> name[i] != '}'
  }

  function WriteInner(inner: seq<Inner>): string {
    if inner == [] then "" else WriteOneInner(inner[0]) + WriteInner(inner[1..])
  }

  function Write(p: Piece): string {
    match p
    case Plain(c) => [c]
    case Escaped(c) => ['\\', c]
    case Quoted(quote, inner) => [quote] + (WriteInner(inner) + [quote])
    case Variable(name) => "${" + (name + "}")
  }

  function WriteAll(word: seq<Piece>): string { if word == [] then "" else Write(word[0]) + WriteAll(word[1..]) }

  // ---------------------------------------------------------------- meaning

  function InnerValue(inner: seq<Inner>): (v: string)
    ensures |v| == |inner|
    ensures forall i :: 0 <= i < |v| ==> v[i] == inner[i].c
  {
    seq(|inner|, i requires 0 <= i < |inner| => inner[i].c)
  }

  /** What a part stands for: quotes and backslashes fall away, a variable is kept as it is written. */
  function Value(p: Piece): string {
    match p
    case Plain(c) => [c]
    case Escaped(c) => [c]
    case Quoted(_, inner) => InnerValue(inner)
    case Variable(name) => Write(p)
  }

  function ValueAll(word: seq<Piece>): string { if word == [] then "" else Value(word[0]) + ValueAll(word[1..]) }

  // ---------------------------------------------------------------- one part

  lemma SliceAfter(head: string, tail: string)
    ensures (head + tail)[|head|..] == tail && (head + tail)[..|head|] == head
  {}

  function WriteOneInner(i: Inner): string { if i.escaped then ['\\', i.c] else [i.c] }

  lemma ReadsInner(i: Inner, quote: char, tail: string)
    requires IsQuote(quote) && Quotable(quote, i) && (i.escaped || tail != "")
    ensures QuotedAt(WriteOneInner(i) + tail, quote) == Prepend([i.c], |WriteOneInner(i)|, QuotedAt(tail, quote))
  {
    var head := WriteOneInner(i);
    var s := head + tail;
    assert s[0] == head[0] && (i.escaped ==> s[1] == i.c);
    assert QuotedCharacter(s) == Chunk([i.c], |head|);
    SliceAfter(head, tail);
  }

  lemma InnerUnrolls(inner: seq<Inner>, end: string)
    requires inner != []
    ensures WriteInner(inner) + end == WriteOneInner(inner[0]) + (WriteInner(inner[1..]) + end)
    ensures |WriteInner(inner)| == |WriteOneInner(inner[0])| + |WriteInner(inner[1..])|
  {
    hide WriteOneInner;
    Regroup(WriteOneInner(inner[0]), WriteInner(inner[1..]), end);
  }

  lemma Regroup(a: string, b: string, c: string)
    ensures a + b + c == a + (b + c)
  {}

  lemma InnerValueUnrolls(inner: seq<Inner>)
    requires inner != []
    ensures InnerValue(inner) == [inner[0].c] + InnerValue(inner[1..])
  {}

  lemma ClosesAtOnce(quote: char, rest: string)
    ensures QuotedAt(WriteInner([]) + ([quote] + rest), quote) == Some(Chunk(InnerValue([]), |WriteInner([])| + 1))
  {
    assert WriteInner([]) + ([quote] + rest) == [quote] + rest;
  }

  lemma {:induction false} QuotedIsRead(inner: seq<Inner>, quote: char, rest: string)
    requires IsQuote(quote) && forall i :: 0 <= i < |inner| ==> Quotable(quote, inner[i])
    ensures QuotedAt(WriteInner(inner) + ([quote] + rest), quote) == Some(Chunk(InnerValue(inner), |WriteInner(inner)| + 1))
  {
    hide *;
    if inner == [] {
      ClosesAtOnce(quote, rest);
    } else {
      var tail := WriteInner(inner[1..]) + ([quote] + rest);
      QuotedIsRead(inner[1..], quote, rest);
      InnerUnrolls(inner, [quote] + rest);
      InnerValueUnrolls(inner);
      ReadsInner(inner[0], quote, tail);
      PrependsOne([inner[0].c], |WriteOneInner(inner[0])|, InnerValue(inner[1..]), |WriteInner(inner[1..])| + 1);
    }
  }

  lemma {:induction false} BraceIsFound(name: string, rest: string)
    requires forall i :: 0 <= i < |name| ==> name[i] != '}'
    ensures ClosingBrace(name + ("}" + rest)) == Some(|name|)
  {
    var closing := "}" + rest;
    if name == [] {
      assert name + closing == closing;
    } else {
      BraceIsFound(name[1..], rest);
      assert (name + closing)[1..] == name[1..] + closing;
    }
  }

  lemma StartsVariable(s: string)
    ensures "${" <= s <==> |s| >= 2 && s[0] == '$' && s[1] == '{'
  {
    if |s| >= 2 && s[0] == '$' && s[1] == '{' { assert s[..2] == "${"; }
  }

  lemma PlainIsRead(c: char, rest: string)
    requires Writable(Plain(c)) && (c == '$' ==> rest == "" || rest[0] != '{')
    ensures PartAt([c] + rest) == Some(Chunk([c], 1))
  {
    var s := [c] + rest;
    assert s[0] == c;
    StartsVariable(s);
  }

  lemma EscapedIsRead(c: char, rest: string)
    ensures PartAt(['\\', c] + rest) == Some(Chunk([c], 2))
  {
    var s := ['\\', c] + rest;
    assert s[0] == '\\' && s[1] == c;
    StartsVariable(s);
  }

  lemma QuotedPartIsRead(quote: char, inner: seq<Inner>, rest: string)
    requires Writable(Quoted(quote, inner))
    ensures PartAt([quote] + (WriteInner(inner) + ([quote] + rest))) == Some(Chunk(InnerValue(inner), |WriteInner(inner)| + 2))
  {
    hide QuotedAt, WriteInner, Stops;
    QuotedIsRead(inner, quote, rest);
    var body := WriteInner(inner) + ([quote] + rest);
    QuoteIsPart(quote);
    assert ([quote] + body)[0] == quote && ([quote] + body)[1..] == body;
  }

  lemma QuoteIsPart(c: char)
    requires IsQuote(c)
    ensures !Stops(c)
  {}

  lemma VariableIsRead(name: string, rest: string)
    requires Writable(Variable(name))
    ensures PartAt("${" + (name + ("}" + rest))) == Some(Chunk("${" + (name + "}"), |name| + 3))
  {
    hide ClosingBrace;
    BraceIsFound(name, rest);
    var tail := name + ("}" + rest);
    var s := "${" + tail;
    assert s[2..] == tail && s[0] == '$' && s[..2] == "${";
    assert s == ("${" + (name + "}")) + rest;
    SliceAfter("${" + (name + "}"), rest);
  }

  /** A part is read back to its end, except a bare dollar sign that an opening brace follows. */
  lemma PieceIsRead(p: Piece, rest: string)
    requires Writable(p) && (p == Plain('$') ==> rest == "" || rest[0] != '{')
    ensures Write(p) != "" && !Stops((Write(p) + rest)[0])
    ensures PartAt(Write(p) + rest) == Some(Chunk(Value(p), |Write(p)|))
  {
    StartsAWord(p);
    assert (Write(p) + rest)[0] == Write(p)[0];
    hide PartAt, QuotedAt, WriteInner, Stops, InnerValue;
    match p
    case Plain(c) => PlainIsRead(c, rest);
    case Escaped(c) => EscapedIsRead(c, rest);
    case Quoted(quote, inner) =>
      QuotedPartIsRead(quote, inner, rest);
      Regroup([quote], WriteInner(inner) + [quote], rest);
      Regroup(WriteInner(inner), [quote], rest);
    case Variable(name) =>
      VariableIsRead(name, rest);
      Regroup("${", name + "}", rest);
      Regroup(name, "}", rest);
  }

  lemma StartsAWord(p: Piece)
    requires Writable(p)
    ensures Write(p) != "" && !Stops(Write(p)[0])
  {
    if p.Quoted? { QuoteIsPart(p.quote); }
  }

  // ---------------------------------------------------------------- a word

  predicate AllWritable(word: seq<Piece>) { forall i :: 0 <= i < |word| ==> Writable(word[i]) }

  /** The word stops here: at the end, or at a character that is no part of a word, which must not make it a variable. */
  predicate EndsBefore(word: seq<Piece>, rest: string) {
    rest == "" || (Stops(rest[0]) && (rest[0] == '{' && word != [] ==> word[|word| - 1] != Plain('$')))
  }

  lemma StartsPlainly(p: Piece)
    requires Writable(p)
    ensures Write(p) != "" && Write(p)[0] != '{'
  {}

  lemma ReadsPart(head: string, tail: string, value: string)
    requires head + tail != "" && !Stops((head + tail)[0]) && PartAt(head + tail) == Some(Chunk(value, |head|))
    ensures WordAt(head + tail) == Prepend(value, |head|, WordAt(tail))
  {
    hide PartAt, Stops;
    SliceAfter(head, tail);
  }

  lemma WriteOne(word: seq<Piece>, rest: string)
    requires word != []
    ensures WriteAll(word) + rest == Write(word[0]) + (WriteAll(word[1..]) + rest)
    ensures |WriteAll(word)| == |Write(word[0])| + |WriteAll(word[1..])| && ValueAll(word) == Value(word[0]) + ValueAll(word[1..])
    ensures Write(word[0]) != "" ==> WriteAll(word) != "" && WriteAll(word)[0] == Write(word[0])[0]
  {}

  lemma NotVariable(word: seq<Piece>, rest: string)
    requires word != [] && AllWritable(word) && EndsBefore(word, rest) && word[0] == Plain('$')
    ensures var tail := WriteAll(word[1..]) + rest; tail == "" || tail[0] != '{'
  {
    if |word| == 1 {
      assert WriteAll(word[1..]) + rest == rest;
    } else {
      WriteOne(word[1..], rest);
      StartsPlainly(word[1]);
    }
  }

  lemma EndsLater(word: seq<Piece>, rest: string)
    requires word != [] && EndsBefore(word, rest)
    ensures EndsBefore(word[1..], rest)
  {}

  lemma {:induction false} WordIsRead(word: seq<Piece>, rest: string)
    requires AllWritable(word) && EndsBefore(word, rest)
    ensures WordAt(WriteAll(word) + rest) == Some(Chunk(ValueAll(word), |WriteAll(word)|))
    ensures word != [] ==> WriteAll(word) != "" && !Stops(WriteAll(word)[0])
  {
    hide *;
    if word == [] {
      NoWordIsRead(rest);
    } else {
      var p, tail := word[0], WriteAll(word[1..]) + rest;
      WritableParts(word);
      EndsLater(word, rest);
      WordIsRead(word[1..], rest);
      if p == Plain('$') { NotVariable(word, rest); }
      PieceIsRead(p, tail);
      WriteOne(word, rest);
      ReadsPart(Write(p), tail, Value(p));
      PrependsOne(Value(p), |Write(p)|, ValueAll(word[1..]), |WriteAll(word[1..])|);
      assert (Write(p) + tail)[0] == Write(p)[0];
    }
  }

  lemma NoWordIsRead(rest: string)
    requires EndsBefore([], rest)
    ensures WordAt(WriteAll([]) + rest) == Some(Chunk(ValueAll([]), |WriteAll([])|))
  {
    assert WriteAll([]) + rest == rest;
  }

  lemma WritableParts(word: seq<Piece>)
    requires word != [] && AllWritable(word)
    ensures Writable(word[0]) && AllWritable(word[1..])
  {
    hide Writable;
  }

  lemma PrependsOne(v: string, n: nat, rest: string, m: nat)
    ensures Prepend(v, n, Some(Chunk(rest, m))) == Some(Chunk(v + rest, n + m))
  {}

  // ---------------------------------------------------------------- a text

  /** A text as it is put together; a comment ends with its line. */
  datatype Part = Space(c: char) | Comment(text: string) | Mark(c: char) | WordOf(word: seq<Piece>)

  predicate PartWritable(p: Part) {
    match p
    case Space(c) => IsSpace(c)
    case Comment(text) => forall i :: 0 <= i < |text| ==> text[i] != '\n'
    case Mark(c) => IsPunctuation(c)
    case WordOf(word) => word != [] && AllWritable(word)
  }

  function WritePart(p: Part): string {
    match p
    case Space(c) => [c]
    case Comment(text) => "#" + (text + "\n")
    case Mark(c) => [c]
    case WordOf(word) => WriteAll(word)
  }

  function Text(parts: seq<Part>): string { if parts == [] then "" else WritePart(parts[0]) + Text(parts[1..]) }

  /** Every part can be written; two words never meet, and no word ends with a dollar sign before an opening brace. */
  predicate Separated(parts: seq<Part>) {
    && (forall i :: 0 <= i < |parts| ==> PartWritable(parts[i]))
    && (forall i :: 0 <= i < |parts| - 1 && parts[i].WordOf? ==> Parts(parts[i], parts[i + 1]))
  }

  predicate Parts(a: Part, b: Part)
    requires a.WordOf?
  {
    !b.WordOf? && (b == Mark('{') && a.word != [] ==> a.word[|a.word| - 1] != Plain('$'))
  }

  /** The tokens that were written: each word and each mark where it stands. */
  function Written(parts: seq<Part>, off: nat): seq<Token> {
    if parts == [] then []
    else PartTokens(parts[0], off) + Written(parts[1..], off + |WritePart(parts[0])|)
  }

  lemma {:induction false} LineIsRead(text: string, rest: string)
    requires forall i :: 0 <= i < |text| ==> text[i] != '\n'
    ensures LineLength(text + ("\n" + rest)) == |text| + 1
  {
    var ending := "\n" + rest;
    if text == [] {
      assert text + ending == ending;
    } else {
      LineIsRead(text[1..], rest);
      assert (text + ending)[1..] == text[1..] + ending;
    }
  }

  /** The first character of a part that follows a word stops it. */
  lemma StopsTheWord(a: Part, b: Part, rest: string)
    requires PartWritable(a) && PartWritable(b) && a.WordOf? && Parts(a, b)
    ensures EndsBefore(a.word, WritePart(b) + rest)
  {
    match b
    case Space(c) => assert (WritePart(b) + rest)[0] == c;
    case Comment(text) => assert (WritePart(b) + rest)[0] == '#';
    case Mark(c) => assert (WritePart(b) + rest)[0] == c;
    case WordOf(_) =>
  }

  /** The tokens one part comes to. */
  function PartTokens(p: Part, off: nat): seq<Token> {
    match p
    case Mark(c) => [Token([c], off, off + 1, true)]
    case WordOf(word) => [Token(ValueAll(word), off, off + |WriteAll(word)|, false)]
    case _ => []
  }

  lemma CommentIsRead(text: string, rest: string)
    requires forall i :: 0 <= i < |text| ==> text[i] != '\n'
    ensures var s := "#" + (text + "\n") + rest; s[0] == '#' && LineLength(s) == |text| + 2
  {
    var line := "#" + text;
    assert "#" + (text + "\n") + rest == line + ("\n" + rest);
    LineIsRead(line, rest);
  }

  lemma WordScans(word: seq<Piece>, rest: string)
    requires word != [] && AllWritable(word) && EndsBefore(word, rest)
    ensures var s := WriteAll(word) + rest; s != "" && Scan(s) == Word(Chunk(ValueAll(word), |WriteAll(word)|)) && WriteAll(word) != ""
  {
    hide WriteAll, ValueAll, WordAt, EndsBefore, Writable;
    WordIsRead(word, rest);
    assert (WriteAll(word) + rest)[0] == WriteAll(word)[0];
  }

  /** One part is read in one move. */
  lemma PartIsRead(p: Part, rest: string, off: nat)
    requires PartWritable(p) && (p.WordOf? ==> EndsBefore(p.word, rest))
    ensures var s := WritePart(p) + rest;
            WritePart(p) != "" && !Scan(s).Broken? && Width(s) == |WritePart(p)| && Yield(s, off) == PartTokens(p, off)
  {
    hide WriteAll, ValueAll, WordAt, EndsBefore, LineLength;
    var s := WritePart(p) + rest;
    match p
    case Space(c) => assert s[0] == c;
    case Comment(text) => CommentIsRead(text, rest);
    case Mark(c) => assert s[0] == c && !IsSpace(c) && c != '#';
    case WordOf(word) => WordScans(word, rest);
  }

  lemma LexesOne(head: string, tail: string, off: nat)
    requires head != "" && !Scan(head + tail).Broken? && Width(head + tail) == |head|
    ensures Lex(head + tail, off) == Join(Yield(head + tail, off), Lex(tail, off + |head|))
  {
    hide Scan, Width, Yield;
    SliceAfter(head, tail);
  }

  /**
   * Every text put together from words, marks, spaces and comments is read as just those words and marks, each
   * with its own span: quotes, backslashes and variables mean what they were written for, and a brace or a
   * semicolon inside them is never a mark.
   */
  lemma {:induction false} TextIsRead(parts: seq<Part>, off: nat)
    requires Separated(parts)
    ensures Lex(Text(parts), off) == Some(Written(parts, off))
    decreases |parts|
  {
    hide *;
    if parts == [] {
      NothingIsRead(off);
    } else {
      var head, rest := WritePart(parts[0]), Text(parts[1..]);
      SeparatedLater(parts);
      TextIsRead(parts[1..], off + |head|);
      if parts[0].WordOf? { StopsBefore(parts, ""); }
      NothingAfter(rest);
      PartIsRead(parts[0], rest, off);
      LexesOne(head, rest, off);
      JoinSome(PartTokens(parts[0], off), Written(parts[1..], off + |head|));
      TextOf(parts, "");
      NothingAfter(Text(parts));
      WrittenOf(parts, off);
    }
  }

  lemma NothingIsRead(off: nat)
    ensures Lex(Text([]), off) == Some(Written([], off))
  {}

  lemma NothingAfter(s: string)
    ensures s + "" == s
  {}

  lemma JoinSome(head: seq<Token>, tail: seq<Token>)
    ensures Join(head, Some(tail)) == Some(head + tail)
  {}

  lemma WrittenOf(parts: seq<Part>, off: nat)
    requires parts != []
    ensures Written(parts, off) == PartTokens(parts[0], off) + Written(parts[1..], off + |WritePart(parts[0])|)
  {}

  lemma SeparatedLater(parts: seq<Part>)
    requires parts != [] && Separated(parts)
    ensures PartWritable(parts[0]) && Separated(parts[1..])
  {
    hide Parts, PartWritable;
    assert forall i :: 0 <= i < |parts[1..]| ==> parts[1..][i] == parts[i + 1];
  }

  lemma StopsBefore(parts: seq<Part>, end: string)
    requires parts != [] && parts[0].WordOf? && Separated(parts)
    requires |parts| == 1 ==> end == ""
    ensures EndsBefore(parts[0].word, Text(parts[1..]) + end)
  {
    hide PartWritable, WritePart, EndsBefore, Parts;
    if |parts| > 1 {
      assert parts[1..][1..] == parts[2..];
      TextOf(parts[1..], end);
      StopsTheWord(parts[0], parts[1], Text(parts[2..]) + end);
    } else {
      NothingStops(parts[0].word);
      assert Text(parts[1..]) + end == "";
    }
  }

  lemma TextOf(parts: seq<Part>, end: string)
    requires parts != []
    ensures Text(parts) + end == WritePart(parts[0]) + (Text(parts[1..]) + end)
  {
    hide WritePart;
  }

  lemma NothingStops(word: seq<Piece>)
    ensures EndsBefore(word, "")
  {}

  // ---------------------------------------------------------------- texts that are refused

  lemma {:induction false} QuoteNeverEnds(inner: seq<Inner>, quote: char)
    requires IsQuote(quote) && forall i :: 0 <= i < |inner| ==> Quotable(quote, inner[i])
    ensures QuotedAt(WriteInner(inner), quote).None?
  {
    if inner != [] {
      var head := WriteOneInner(inner[0]);
      QuoteNeverEnds(inner[1..], quote);
      assert WriteInner(inner) == head + WriteInner(inner[1..]);
      assert QuotedCharacter(head + WriteInner(inner[1..])) == Chunk([inner[0].c], |head|);
      SliceAfter(head, WriteInner(inner[1..]));
    }
  }

  lemma {:induction false} BraceNeverComes(name: string)
    requires forall i :: 0 <= i < |name| ==> name[i] != '}'
    ensures ClosingBrace(name).None?
  {
    if name != [] { BraceNeverComes(name[1..]); }
  }

  /** A quote or a variable that is never closed. */
  datatype Open = OpenQuote(quote: char, inner: seq<Inner>) | OpenVariable(name: string)

  predicate OpenWritable(o: Open) {
    match o
    case OpenQuote(quote, inner) => IsQuote(quote) && forall i :: 0 <= i < |inner| ==> Quotable(quote, inner[i])
    case OpenVariable(name) => forall i :: 0 <= i < |name| ==> name[i] != '}'
  }

  function WriteOpen(o: Open): string {
    match o
    case OpenQuote(quote, inner) => [quote] + WriteInner(inner)
    case OpenVariable(name) => "${" + name
  }

  lemma OpenIsRefused(o: Open)
    requires OpenWritable(o)
    ensures WriteOpen(o) != "" && !Stops(WriteOpen(o)[0]) && WriteOpen(o)[0] != '{' && PartAt(WriteOpen(o)).None?
  {
    match o
    case OpenQuote(quote, inner) =>
      QuoteNeverEnds(inner, quote);
      assert WriteOpen(o)[1..] == WriteInner(inner);
    case OpenVariable(name) =>
      BraceNeverComes(name);
      assert WriteOpen(o)[2..] == name;
  }

  lemma {:induction false} OpenWordIsRefused(word: seq<Piece>, o: Open)
    requires AllWritable(word) && OpenWritable(o)
    ensures WordAt(WriteAll(word) + WriteOpen(o)).None?
    ensures WriteAll(word) + WriteOpen(o) != "" && !Stops((WriteAll(word) + WriteOpen(o))[0]) && (WriteAll(word) + WriteOpen(o))[0] != '{'
  {
    OpenIsRefused(o);
    hide *;
    if word == [] {
      NoWordBefore(WriteOpen(o));
      assert WriteAll(word) + WriteOpen(o) == WriteOpen(o);
      RefusedPart(WriteOpen(o));
    } else {
      var p, tail := word[0], WriteAll(word[1..]) + WriteOpen(o);
      WritableParts(word);
      OpenWordIsRefused(word[1..], o);
      PieceIsRead(p, tail);
      StartsPlainly(p);
      WriteOne(word, WriteOpen(o));
      ReadsPart(Write(p), tail, Value(p));
      PrependsNone(Value(p), |Write(p)|);
      assert (Write(p) + tail)[0] == Write(p)[0];
    }
  }

  lemma NoWordBefore(s: string)
    ensures WriteAll([]) + s == s
  {}

  lemma RefusedPart(s: string)
    requires s != "" && !Stops(s[0]) && PartAt(s).None?
    ensures WordAt(s).None?
  {}

  lemma PrependsNone(v: string, n: nat)
    ensures Prepend(v, n, None) == None
  {}

  /** A text whose last word has a quote or a variable that is never closed is refused, whatever comes before it. */
  lemma {:induction false} UnclosedIsRefused(parts: seq<Part>, word: seq<Piece>, o: Open, off: nat)
    requires Separated(parts)
    requires parts == [] || !parts[|parts| - 1].WordOf?
    requires AllWritable(word) && OpenWritable(o)
    ensures Lex(Text(parts) + (WriteAll(word) + WriteOpen(o)), off).None?
    decreases |parts|
  {
    hide *;
    var end := WriteAll(word) + WriteOpen(o);
    if parts == [] {
      OpenWordIsRefused(word, o);
      TextIsNothing(end);
      NeverScans(end, off);
    } else {
      var head, rest := WritePart(parts[0]), Text(parts[1..]) + end;
      SeparatedLater(parts);
      assert |parts| > 1 ==> parts[1..][|parts| - 2] == parts[|parts| - 1];
      UnclosedIsRefused(parts[1..], word, o, off + |head|);
      if parts[0].WordOf? { StopsBefore(parts, end); }
      PartIsRead(parts[0], rest, off);
      TextOf(parts, end);
      LexesOne(head, rest, off);
      JoinNone(PartTokens(parts[0], off));
    }
  }

  lemma TextIsNothing(end: string)
    ensures Text([]) + end == end
  {}

  lemma JoinNone(head: seq<Token>)
    ensures Join(head, None) == None
  {}

  lemma NeverScans(s: string, off: nat)
    requires s != "" && !Stops(s[0]) && WordAt(s).None?
    ensures Lex(s, off).None?
  {}
}
