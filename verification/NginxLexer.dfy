/** The nginx tokenizer of scripts/install-softphone-proxy.py.

    The specification reads the remaining text; the method moves an index over the whole text, as the
    script does. A raised `InstallError` is `None`. */
module NginxLexer {
  import opened Wrappers

  datatype Token = Token(value: string, start: nat, end: nat, punctuation: bool) {
    function Shifted(d: nat): Token {
      Token(value, start + d, end + d, punctuation)
    }
  }

  /** A decoded value and the number of characters it was read from. */
  datatype Chunk = Chunk(value: string, length: nat)

  /** One move of the tokenizer at a position between two tokens. */
  datatype Item = Blank(length: nat) | Punctuation | Word(chunk: Chunk) | Broken

  /** The characters for which Python's `str.isspace` holds. */
  predicate IsSpace(c: char) {
    || '\U{0009}' <= c <= '\U{000D}' || '\U{001C}' <= c <= '\U{0020}'
    || c == '\U{0085}' || c == '\U{00A0}' || c == '\U{1680}' || '\U{2000}' <= c <= '\U{200A}'
    || c == '\U{2028}' || c == '\U{2029}' || c == '\U{202F}' || c == '\U{205F}' || c == '\U{3000}'
  }

  predicate IsPunctuation(c: char) {
    c == '{' || c == '}' || c == ';'
  }

  predicate IsQuote(c: char) {
    c == '\"' || c == '\''
  }

  /** A character at which an unquoted word stops. */
  predicate Stops(c: char) {
    IsSpace(c) || IsPunctuation(c) || c == '#'
  }

  // ---------------------------------------------------------------- specification

  function Prepend(v: string, n: nat, rest: Option<Chunk>): Option<Chunk> {
    match rest
    case None => None
    case Some(c) => Some(Chunk(v + c.value, n + c.length))
  }

  /** The text of a comment: up to and including the newline, or everything. */
  function LineLength(s: string): (n: nat)
    ensures n <= |s|
    ensures s != [] ==> n > 0
  {
    if s == [] then 0 else if s[0] == '\n' then 1 else 1 + LineLength(s[1..])
  }

  /** The index of the first closing brace. */
  function ClosingBrace(s: string): (k: Option<nat>)
    ensures k.Some? ==> k.value < |s| && s[k.value] == '}'
  {
    if s == [] then None
    else if s[0] == '}' then Some(0)
    else match ClosingBrace(s[1..])
         case None => None
         case Some(k) => Some(k + 1)
  }

  /** One character of a quoted string; a backslash lets any character stand. */
  function QuotedCharacter(s: string): (c: Chunk)
    requires s != []
    ensures 0 < c.length <= |s|
  {
    if s[0] == '\\' && |s| > 1 then Chunk([s[1]], 2) else Chunk([s[0]], 1)
  }

  /** The body of a quoted string, through its closing quote. */
  function QuotedAt(s: string, q: char): (r: Option<Chunk>)
    ensures r.Some? ==> 0 < r.value.length <= |s|
  {
    if s == [] then None
    else if s[0] == q then Some(Chunk("", 1))
    else var c := QuotedCharacter(s);
         Prepend(c.value, c.length, QuotedAt(s[c.length..], q))
  }

  /** One part of a word: a quoted string, a `${...}` variable, an escaped or a plain character. */
  function PartAt(s: string): (r: Option<Chunk>)
    requires s != [] && !Stops(s[0])
    ensures r.Some? ==> 0 < r.value.length <= |s|
  {
    if IsQuote(s[0]) then
      match QuotedAt(s[1..], s[0])
      case None => None
      case Some(c) => Some(Chunk(c.value, 1 + c.length))
    else if "${" <= s then
      match ClosingBrace(s[2..])
      case None => None
      case Some(k) => Some(Chunk(s[..k + 3], k + 3))
    else if s[0] == '\\' && |s| > 1 then Some(Chunk([s[1]], 2))
    else Some(Chunk([s[0]], 1))
  }

  /** A word: its parts up to the first character at which it stops. */
  function WordAt(s: string): (r: Option<Chunk>)
    ensures r.Some? ==> r.value.length <= |s|
    ensures r.Some? && s != [] && !Stops(s[0]) ==> 0 < r.value.length
    decreases |s|
  {
    if s == [] || Stops(s[0]) then Some(Chunk("", 0))
    else match PartAt(s)
         case None => None
         case Some(p) => Prepend(p.value, p.length, WordAt(s[p.length..]))
  }

  function Scan(s: string): Item
    requires s != []
  {
    if IsSpace(s[0]) then Blank(1)
    else if s[0] == '#' then Blank(LineLength(s))
    else if IsPunctuation(s[0]) then Punctuation
    else match WordAt(s)
         case None => Broken
         case Some(c) => Word(c)
  }

  /** How many characters the move at the head of `s` consumes. */
  function Width(s: string): (n: nat)
    requires s != [] && !Scan(s).Broken?
    ensures 0 < n <= |s|
  {
    match Scan(s)
    case Blank(n) => n
    case Punctuation => 1
    case Word(c) => c.length
  }

  /** The tokens the move at the head of `s` yields: none for a blank, else one. */
  function Yield(s: string, off: nat): (ts: seq<Token>)
    requires s != [] && !Scan(s).Broken?
  {
    match Scan(s)
    case Blank(_) => []
    case Punctuation => [Token([s[0]], off, off + 1, true)]
    case Word(c) => [Token(c.value, off, off + c.length, false)]
  }

  function Join<T>(head: seq<T>, tail: Option<seq<T>>): Option<seq<T>> {
    match tail
    case None => None
    case Some(ts) => Some(head + ts)
  }

  /** All tokens of `s`, which starts at offset `off` of the text. */
  function Lex(s: string, off: nat): Option<seq<Token>>
    decreases |s|
  {
    if s == [] then Some([])
    else if Scan(s).Broken? then None
    else Join(Yield(s, off), Lex(s[Width(s)..], off + Width(s)))
  }

  function ShiftAll(ts: seq<Token>, d: nat): (r: seq<Token>)
    ensures |r| == |ts|
    ensures forall i :: 0 <= i < |ts| ==> r[i] == ts[i].Shifted(d)
  {
    seq(|ts|, i requires 0 <= i < |ts| => ts[i].Shifted(d))
  }

  // ---------------------------------------------------------------- the script's loop

  lemma JoinAssociates<T>(a: seq<T>, b: seq<T>, c: Option<seq<T>>)
    ensures Join(a, Join(b, c)) == Join(a + b, c)
  {
    if c.Some? {
      assert a + (b + c.value) == a + b + c.value;
    }
  }

  lemma JoinNothing<T>(r: Option<seq<T>>)
    ensures Join([], r) == r
  {
    if r.Some? {
      assert [] + r.value == r.value;
    }
  }

  method SkipLine(text: string, start: nat) returns (i: nat)
    requires start < |text|
    ensures i == start + LineLength(text[start..]) && start < i <= |text|
  {
    i := start;
    while i < |text| && text[i] != '\n'
      invariant start <= i <= |text|
      invariant LineLength(text[start..]) == i - start + LineLength(text[i..])
    {
      assert text[i..][1..] == text[i + 1..];
      i := i + 1;
    }
    if i < |text| {
      i := i + 1;
    }
  }

  method ReadQuoted(text: string, start: nat, q: char) returns (r: Option<Chunk>)
    requires start <= |text|
    ensures r == QuotedAt(text[start..], q)
  {
    var i, value := start, "";
    PrependNothing(QuotedAt(text[start..], q));
    while i < |text| && text[i] != q
      invariant start <= i <= |text|
      invariant QuotedAt(text[start..], q) == Prepend(value, i - start, QuotedAt(text[i..], q))
      decreases |text| - i
    {
      ghost var c := QuotedCharacter(text[i..]);
      PrependAssociates(value, i - start, c.value, c.length, QuotedAt(text[i..][c.length..], q));
      assert text[i..][c.length..] == text[i + c.length..];
      if text[i] == '\\' && i + 1 < |text| {
        i := i + 1;
      }
      value := value + [text[i]];
      i := i + 1;
    }
    if i == |text| {
      return None;
    }
    assert value + "" == value;
    return Some(Chunk(value, i - start + 1));
  }

  lemma PrependNothing(r: Option<Chunk>)
    ensures Prepend("", 0, r) == r
  {
    if r.Some? {
      assert "" + r.value.value == r.value.value;
    }
  }

  lemma PrependAssociates(v: string, n: nat, w: string, m: nat, rest: Option<Chunk>)
    ensures Prepend(v, n, Prepend(w, m, rest)) == Prepend(v + w, n + m, rest)
  {
    if rest.Some? {
      assert v + (w + rest.value.value) == v + w + rest.value.value;
    }
  }

  method FindBrace(text: string, start: nat) returns (k: Option<nat>)
    requires start <= |text|
    ensures k == ClosingBrace(text[start..])
  {
    var i := start;
    while i < |text| && text[i] != '}'
      invariant start <= i <= |text|
      invariant ClosingBrace(text[start..]) ==
                match ClosingBrace(text[i..]) case None => None case Some(j) => Some(j + (i - start))
    {
      assert text[i..][1..] == text[i + 1..];
      i := i + 1;
    }
    return if i < |text| then Some(i - start) else None;
  }

  method ReadPart(text: string, i: nat) returns (r: Option<Chunk>)
    requires i < |text| && !Stops(text[i])
    ensures r == PartAt(text[i..])
  {
    if IsQuote(text[i]) {
      assert text[i..][1..] == text[i + 1..];
      var body := ReadQuoted(text, i + 1, text[i]);
      return if body.None? then None else Some(Chunk(body.value.value, 1 + body.value.length));
    } else if text[i] == '$' && i + 1 < |text| && text[i + 1] == '{' {
      assert text[i..][2..] == text[i + 2..];
      var k := FindBrace(text, i + 2);
      if k.None? {
        return None;
      }
      assert text[i..i + k.value + 3] == text[i..][..k.value + 3];
      return Some(Chunk(text[i..i + k.value + 3], k.value + 3));
    } else if text[i] == '\\' && i + 1 < |text| {
      return Some(Chunk([text[i + 1]], 2));
    } else {
      return Some(Chunk([text[i]], 1));
    }
  }

  /** The inner loop of `tokens`: one word, part by part. */
  method ReadWord(text: string, start: nat) returns (r: Option<Chunk>)
    requires start <= |text|
    ensures r == WordAt(text[start..])
  {
    hide PartAt;
    var i, value := start, "";
    PrependNothing(WordAt(text[start..]));
    while i < |text| && !Stops(text[i])
      invariant start <= i <= |text|
      invariant WordAt(text[start..]) == Prepend(value, i - start, WordAt(text[i..]))
      decreases |text| - i
    {
      var part := ReadPart(text, i);
      if part.None? {
        return None;
      }
      var next := i + part.value.length;
      assert text[i..][part.value.length..] == text[next..];
      PrependAssociates(value, i - start, part.value.value, part.value.length, WordAt(text[next..]));
      value := value + part.value.value;
      i := next;
    }
    assert value + "" == value;
    return Some(Chunk(value, i - start));
  }

  /** One move of the outer loop: the tokens it yields and the index it moves to. */
  method Move(text: string, i: nat) returns (r: Option<(seq<Token>, nat)>)
    requires i < |text|
    ensures r.None? == Scan(text[i..]).Broken?
    ensures r.Some? ==> r.value == (Yield(text[i..], i), i + Width(text[i..]))
  {
    if IsSpace(text[i]) {
      return Some(([], i + 1));
    } else if text[i] == '#' {
      var next := SkipLine(text, i);
      return Some(([], next));
    } else if IsPunctuation(text[i]) {
      return Some(([Token([text[i]], i, i + 1, true)], i + 1));
    }
    var word := ReadWord(text, i);
    if word.None? {
      return None;
    }
    return Some(([Token(word.value.value, i, i + word.value.length, false)], i + word.value.length));
  }

  /** `tokens(text)`: the index loop yields exactly the tokens of the specification. */
  method Tokens(text: string) returns (r: Option<seq<Token>>)
    ensures r == Lex(text, 0)
  {
    hide Scan;
    var i, found: seq<Token> := 0, [];
    assert text[0..] == text;
    JoinNothing(Lex(text, 0));
    while i < |text|
      invariant i <= |text|
      invariant Lex(text, 0) == Join(found, Lex(text[i..], i))
      decreases |text| - i
    {
      var move := Move(text, i);
      if move.None? {
        return None;
      }
      var (yielded, next) := move.value;
      assert text[i..][next - i..] == text[next..];
      JoinAssociates(found, yielded, Lex(text[next..], next));
      found, i := found + yielded, next;
    }
    assert found + [] == found;
    return Some(found);
  }
}
