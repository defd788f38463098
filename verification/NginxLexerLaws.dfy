/** What the tokenizer promises: its spans, what lies between them, and how it reads a text cut in two. */
module NginxLexerLaws {
  import opened Wrappers
  import opened NginxLexer

  /** Whitespace and comments only. */
  predicate IsGap(s: string)
    decreases |s|
  {
    || s == []
    || (IsSpace(s[0]) && IsGap(s[1..]))
    || (s[0] == '#' && IsGap(s[LineLength(s)..]))
  }

  /** The offset at which token `i` starts; the end of the text after the last one. */
  function StartOf(n: nat, off: nat, ts: seq<Token>, i: nat): nat {
    if i < |ts| then ts[i].start else off + n
  }

  /** The offset at which the token before `i` ends; the start of the text before the first one. */
  function EndBefore(off: nat, ts: seq<Token>, i: nat): nat
    requires i <= |ts|
  {
    if i == 0 then off else ts[i - 1].end
  }

  /** Non-empty, increasing, disjoint spans inside a text of length `n` at offset `off`. */
  ghost predicate InOrder(n: nat, off: nat, ts: seq<Token>) {
    && (forall i :: 0 <= i < |ts| ==> off <= ts[i].start < ts[i].end <= off + n)
    && (forall i, j :: 0 <= i < j < |ts| ==> ts[i].end <= ts[j].start)
  }

  lemma LineLengthOfPrefix(s: string, x: nat)
    requires LineLength(s) <= x <= |s|
    ensures LineLength(s[..x]) == LineLength(s)
  {
    if s != [] && s[0] != '\n' {
      LineLengthOfPrefix(s[1..], x - 1);
      assert s[..x][1..] == s[1..][..x - 1];
    }
  }

  lemma GapGrows(s: string, x: nat)
    requires s != [] && Scan(s).Blank? && Width(s) <= x <= |s|
    requires IsGap(s[Width(s)..x])
    ensures IsGap(s[..x])
  {
    var w := Width(s);
    assert s[..x][w..] == s[w..x];
    if s[0] == '#' {
      LineLengthOfPrefix(s, x);
    }
  }

  /** A move yields at most one token, which spans the move. */
  lemma YieldSpans(s: string, off: nat)
    requires s != [] && !Scan(s).Broken?
    ensures |Yield(s, off)| <= 1
    ensures Scan(s).Blank? <==> Yield(s, off) == []
    ensures Yield(s, off) != [] ==> Yield(s, off)[0].start == off && Yield(s, off)[0].end == off + Width(s)
  {
    hide WordAt;
  }

  /** One move of the tokenizer, as the laws below use it. */
  lemma LexStep(s: string, off: nat)
    requires s != [] && Lex(s, off).Some?
    ensures !Scan(s).Broken? && Lex(s[Width(s)..], off + Width(s)).Some?
    ensures Lex(s, off).value == Yield(s, off) + Lex(s[Width(s)..], off + Width(s)).value
    ensures |Yield(s, off)| <= 1 && (Scan(s).Blank? <==> Yield(s, off) == [])
    ensures Yield(s, off) != [] ==> Yield(s, off)[0].start == off && Yield(s, off)[0].end == off + Width(s)
  {
    hide Scan, Yield;
    YieldSpans(s, off);
  }

  lemma OrderGrows(n: nat, off: nat, w: nat, ys: seq<Token>, us: seq<Token>)
    requires 0 < w <= n && |ys| <= 1
    requires ys != [] ==> ys[0].start == off && ys[0].end == off + w
    requires InOrder(n - w, off + w, us)
    ensures InOrder(n, off, ys + us)
  {
    var ts := ys + us;
    assert forall i :: |ys| <= i < |ts| ==> ts[i] == us[i - |ys|];
  }

  /** Spans are non-empty, increasing and disjoint. */
  lemma {:induction false} SpansInOrder(s: string, off: nat)
    requires Lex(s, off).Some?
    ensures InOrder(|s|, off, Lex(s, off).value)
    decreases |s|
  {
    hide Scan, Yield, InOrder;
    if s == [] {
      assert InOrder(0, off, []) by {
        EmptyInOrder(off);
      }
    } else {
      var w := Width(s);
      YieldSpans(s, off);
      SpansInOrder(s[w..], off + w);
      OrderGrows(|s|, off, w, Yield(s, off), Lex(s[w..], off + w).value);
    }
  }

  lemma EmptyInOrder(off: nat)
    ensures InOrder(0, off, [])
  {
  }

  lemma SliceOfTail(s: string, w: nat, lo: nat, hi: nat)
    requires w <= lo <= hi <= |s|
    ensures s[w..][lo - w..hi - w] == s[lo..hi]
  {
  }

  /** Only whitespace and comments lie before, between and after the tokens. */
  lemma {:induction false} GapsAreBlank(s: string, off: nat, i: nat)
    requires Lex(s, off).Some? && i <= |Lex(s, off).value|
    ensures var ts := Lex(s, off).value;
            && off <= EndBefore(off, ts, i) <= StartOf(|s|, off, ts, i) <= off + |s|
            && IsGap(s[EndBefore(off, ts, i) - off..StartOf(|s|, off, ts, i) - off])
    decreases |s|
  {
    hide Lex, Scan, Yield, IsGap;
    if s == [] {
      LexOfNothing(off);
      EmptyGap();
    } else {
      LexStep(s, off);
      var w := Width(s);
      var ts, us := Lex(s, off).value, Lex(s[w..], off + w).value;
      var lo, hi := EndBefore(off, ts, i), StartOf(|s|, off, ts, i);
      if Scan(s).Blank? {
        GapsAreBlank(s[w..], off + w, i);
        assert ts == us;
        if i == 0 {
          SliceOfTail(s, w, w, hi - off);
          GapGrows(s, hi - off);
        } else {
          SliceOfTail(s, w, lo - off, hi - off);
        }
      } else if i == 0 {
        EmptyGap();
        assert s[0..0] == [];
      } else {
        GapsAreBlank(s[w..], off + w, i - 1);
        assert forall k :: 0 < k < |ts| ==> ts[k] == us[k - 1];
        SliceOfTail(s, w, lo - off, hi - off);
      }
    }
  }

  lemma LexOfNothing(off: nat)
    ensures Lex([], off) == Some([])
  {
  }

  lemma EmptyGap()
    ensures IsGap([])
  {
  }

  lemma ShiftOfSum(ts: seq<Token>, us: seq<Token>, d: nat)
    ensures ShiftAll(ts + us, d) == ShiftAll(ts, d) + ShiftAll(us, d)
  {
  }

  lemma YieldShifts(s: string, off: nat, d: nat)
    requires s != [] && !Scan(s).Broken?
    ensures ShiftAll(Yield(s, off), d) == Yield(s, off + d)
  {
    hide WordAt;
  }

  /** Moving a text moves its tokens with it. */
  lemma {:induction false} LexShifts(s: string, off: nat, d: nat)
    ensures Lex(s, off + d) ==
            match Lex(s, off) case None => None case Some(ts) => Some(ShiftAll(ts, d))
    decreases |s|
  {
    hide Scan, Yield;
    if s != [] && !Scan(s).Broken? {
      var w := Width(s);
      YieldShifts(s, off, d);
      LexShifts(s[w..], off + w, d);
      if Lex(s[w..], off + w).Some? {
        ShiftOfSum(Yield(s, off), Lex(s[w..], off + w).value, d);
      }
    }
  }

  // ---------------------------------------------------------------- cutting a text in two

  /** Reading `s`, the tokenizer stands between two tokens when it reaches position `x`. */
  predicate Cut(s: string, x: nat)
    decreases |s|
  {
    || x == 0
    || (s != [] && !Scan(s).Broken? && Width(s) <= x && Cut(s[Width(s)..], x - Width(s)))
  }

  /** The tokens read before position `x`. */
  function Head(s: string, x: nat, off: nat): seq<Token>
    requires Cut(s, x)
    decreases |s|
  {
    if x == 0 then []
    else Yield(s, off) + Head(s[Width(s)..], x - Width(s), off + Width(s))
  }

  /** Reading `s` up to position `x` yields exactly `ts`. */
  predicate ReadsTo(s: string, x: nat, off: nat, ts: seq<Token>) {
    x <= |s| && Cut(s, x) && Head(s, x, off) == ts
  }

  lemma {:induction false} CutWithin(s: string, x: nat)
    requires Cut(s, x)
    ensures x <= |s|
    decreases |s|
  {
    hide Scan;
    if x != 0 {
      CutWithin(s[Width(s)..], x - Width(s));
    }
  }

  lemma {:induction false} LexSplits(s: string, x: nat, off: nat)
    requires Cut(s, x) && x <= |s|
    ensures Lex(s, off) == Join(Head(s, x, off), Lex(s[x..], off + x))
    decreases |s|
  {
    hide Scan, Yield;
    if x == 0 {
      assert s[0..] == s;
      JoinNothing(Lex(s, off));
    } else {
      var w := Width(s);
      CutWithin(s[w..], x - w);
      LexSplits(s[w..], x - w, off + w);
      assert s[w..][x - w..] == s[x..];
      JoinAssociates(Yield(s, off), Head(s[w..], x - w, off + w), Lex(s[x..], off + x));
    }
  }

  lemma ReadsNothing(s: string, off: nat)
    ensures ReadsTo(s, 0, off, [])
  {
  }

  lemma ReadsOneMore(s: string, x: nat, off: nat, us: seq<Token>)
    requires s != [] && !Scan(s).Broken? && Width(s) <= x
    requires ReadsTo(s[Width(s)..], x - Width(s), off + Width(s), us)
    ensures ReadsTo(s, x, off, Yield(s, off) + us)
  {
    hide Scan, Yield;
  }

  /** Cuts compose. */
  lemma {:induction false} CutsCompose(s: string, x: nat, y: nat, off: nat)
    requires x <= |s| && Cut(s, x) && Cut(s[x..], y)
    ensures ReadsTo(s, x + y, off, Head(s, x, off) + Head(s[x..], y, off + x))
    decreases |s|
  {
    hide Scan, Yield;
    CutWithin(s[x..], y);
    if x == 0 {
      assert s[0..] == s;
      assert [] + Head(s, y, off) == Head(s, y, off);
    } else {
      var w := Width(s);
      CutWithin(s[w..], x - w);
      SliceToEnd(s, w, x);
      CutsCompose(s[w..], x - w, y, off + w);
      ReadsOneMore(s, x + y, off, Head(s[w..], x - w, off + w) + Head(s[x..], y, off + x));
      SumAssociates(Yield(s, off), Head(s[w..], x - w, off + w), Head(s[x..], y, off + x));
    }
  }

  lemma ReadsOn(s: string, x: nat, y: nat, off: nat, us: seq<Token>, vs: seq<Token>)
    requires ReadsTo(s, x, off, us) && ReadsTo(s[x..], y, off + x, vs)
    ensures ReadsTo(s, x + y, off, us + vs)
  {
    CutsCompose(s, x, y, off);
  }

  /** Blanks yield nothing. */
  lemma {:induction false} BlanksRead(s: string, k: nat, off: nat)
    requires k <= |s| && forall i :: 0 <= i < k ==> IsSpace(s[i])
    ensures ReadsTo(s, k, off, [])
    decreases k
  {
    hide IsSpace;
    if k == 0 {
      ReadsNothing(s, off);
    } else {
      assert Scan(s) == Blank(1);
      BlanksRead(s[1..], k - 1, off + 1);
      ReadsOneMore(s, k, off, []);
    }
  }

  /** Moving a text moves the tokens read before a cut. */
  lemma {:induction false} HeadShifts(s: string, x: nat, off: nat, ts: seq<Token>, d: nat)
    requires ReadsTo(s, x, off, ts)
    ensures ReadsTo(s, x, off + d, ShiftAll(ts, d))
    decreases |s|
  {
    hide Scan, Yield, ReadsTo;
    if x == 0 {
      ReadsNothingIs(s, off, ts);
      ReadsNothing(s, off + d);
      assert ShiftAll([], d) == [];
    } else {
      var us := ReadsOneLess(s, x, off, ts);
      var w := Width(s);
      HeadShifts(s[w..], x - w, off + w, us, d);
      YieldShifts(s, off, d);
      ShiftOfSum(Yield(s, off), us, d);
      ReadsOneMore(s, x, off + d, ShiftAll(us, d));
    }
  }

  lemma ReadsNothingIs(s: string, off: nat, ts: seq<Token>)
    requires ReadsTo(s, 0, off, ts)
    ensures ts == []
  {
  }

  lemma ReadsOneLess(s: string, x: nat, off: nat, ts: seq<Token>) returns (us: seq<Token>)
    requires ReadsTo(s, x, off, ts) && x != 0
    ensures s != [] && !Scan(s).Broken? && Width(s) <= x
    ensures ReadsTo(s[Width(s)..], x - Width(s), off + Width(s), us) && ts == Yield(s, off) + us
  {
    hide Scan, Yield;
    us := Head(s[Width(s)..], x - Width(s), off + Width(s));
  }

  lemma SliceToEnd(s: string, w: nat, x: nat)
    requires w <= x <= |s|
    ensures s[w..][x - w..] == s[x..]
  {
  }

  lemma SumAssociates<T>(a: seq<T>, b: seq<T>, c: seq<T>)
    ensures a + (b + c) == a + b + c
  {
  }

  /** The texts agree before `x`, and a stop at `x` is replaced by a stop that opens nothing. */
  predicate Agree(s: string, s': string, x: nat) {
    && x < |s| && x < |s'| && s[..x] == s'[..x]
    && (Stops(s[x]) ==> Stops(s'[x]) && s'[x] != '{')
  }

  lemma AgreeLater(s: string, s': string, x: nat, w: nat)
    requires Agree(s, s', x) && w <= x
    ensures Agree(s[w..], s'[w..], x - w)
    ensures forall k :: w <= k < x ==> s[k] == s'[k]
  {
    hide Stops;
    assert forall k :: 0 <= k < x ==> s[..x][k] == s'[..x][k];
    assert s[w..][..x - w] == s[..x][w..] && s'[w..][..x - w] == s'[..x][w..];
  }

  lemma {:induction false} LineTransfers(s: string, s': string, x: nat)
    requires Agree(s, s', x) && LineLength(s) <= x
    ensures LineLength(s') == LineLength(s)
  {
    AgreeLater(s, s', x, 0);
    if s[0] != '\n' {
      AgreeLater(s, s', x, 1);
      LineTransfers(s[1..], s'[1..], x - 1);
    }
  }

  lemma {:induction false} BraceTransfers(s: string, s': string, x: nat)
    requires Agree(s, s', x) && ClosingBrace(s).Some? && ClosingBrace(s).value < x
    ensures ClosingBrace(s') == ClosingBrace(s)
  {
    AgreeLater(s, s', x, 0);
    if s[0] != '}' {
      AgreeLater(s, s', x, 1);
      BraceTransfers(s[1..], s'[1..], x - 1);
    }
  }

  lemma {:induction false} QuotedTransfers(s: string, s': string, x: nat, q: char)
    requires Agree(s, s', x) && QuotedAt(s, q).Some? && QuotedAt(s, q).value.length <= x
    ensures QuotedAt(s', q) == QuotedAt(s, q)
    decreases |s|
  {
    AgreeLater(s, s', x, 0);
    if s[0] != q {
      var c := QuotedCharacter(s);
      AgreeLater(s, s', x, c.length);
      QuotedTransfers(s[c.length..], s'[c.length..], x - c.length, q);
    }
  }

  lemma BracePartTransfers(s: string, s': string, x: nat)
    requires Agree(s, s', x) && 0 < x && !IsQuote(s[0]) && "${" <= s
    requires PartAt(s).Some? && PartAt(s).value.length <= x
    ensures s'[0] == s[0] && PartAt(s') == PartAt(s)
  {
    hide QuotedAt;
    AgreeLater(s, s', x, 0);
    AgreeLater(s, s', x, 2);
    BraceTransfers(s[2..], s'[2..], x - 2);
    var k := ClosingBrace(s[2..]).value;
    assert s[..k + 3] == s[..x][..k + 3] && s'[..k + 3] == s'[..x][..k + 3];
  }

  lemma PartTransfers(s: string, s': string, x: nat)
    requires Agree(s, s', x) && 0 < x && !Stops(s[0])
    requires PartAt(s).Some? && PartAt(s).value.length <= x
    requires x == 1 ==> Stops(s[1])
    ensures s'[0] == s[0] && PartAt(s') == PartAt(s)
  {
    hide QuotedAt, ClosingBrace;
    AgreeLater(s, s', x, 0);
    if IsQuote(s[0]) {
      AgreeLater(s, s', x, 1);
      QuotedTransfers(s[1..], s'[1..], x - 1, s[0]);
    } else if "${" <= s {
      BracePartTransfers(s, s', x);
    } else {
      assert s[0] == '$' ==> s[1] != '{' && s'[1] != '{';
    }
  }

  lemma {:induction false} WordTransfers(s: string, s': string, x: nat)
    requires Agree(s, s', x) && WordAt(s).Some? && WordAt(s).value.length <= x
    ensures WordAt(s') == WordAt(s)
    decreases |s|
  {
    hide PartAt;
    AgreeLater(s, s', x, 0);
    if !Stops(s[0]) {
      var p := PartAt(s).value;
      PartIsWithin(s, x);
      PartTransfers(s, s', x);
      AgreeLater(s, s', x, p.length);
      WordTransfers(s[p.length..], s'[p.length..], x - p.length);
    }
  }

  lemma PartIsWithin(s: string, x: nat)
    requires x < |s| && !Stops(s[0]) && WordAt(s).Some? && WordAt(s).value.length <= x
    ensures PartAt(s).value.length <= x && 0 < x
    ensures x == 1 ==> Stops(s[1])
  {
    hide PartAt;
    var p := PartAt(s).value;
    if x == 1 {
      assert WordAt(s[1..]).value.length == 0;
    }
  }

  lemma ScanTransfers(s: string, s': string, x: nat)
    requires Agree(s, s', x) && 0 < x && !Scan(s).Broken? && Width(s) <= x
    ensures s'[0] == s[0] && Scan(s') == Scan(s) && Width(s') == Width(s)
    ensures forall off :: Yield(s', off) == Yield(s, off)
  {
    hide WordAt, LineLength;
    AgreeLater(s, s', x, 0);
    if IsSpace(s[0]) || IsPunctuation(s[0]) {
    } else if s[0] == '#' {
      LineTransfers(s, s', x);
    } else {
      WordTransfers(s, s', x);
    }
  }

  /** What is read before a cut does not depend on what follows it. */
  lemma {:induction false} CutTransfers(s: string, s': string, x: nat, off: nat)
    requires Agree(s, s', x) && Cut(s, x)
    ensures Cut(s', x) && Head(s', x, off) == Head(s, x, off)
    decreases |s|
  {
    hide Scan, Yield;
    if x != 0 {
      var w := Width(s);
      ScanTransfers(s, s', x);
      AgreeLater(s, s', x, w);
      CutTransfers(s[w..], s'[w..], x - w, off + w);
    }
  }

  /** Where token `i` of the text starts and ends. */
  lemma {:induction false} CutAtToken(s: string, off: nat, i: nat)
    requires Lex(s, off).Some? && i < |Lex(s, off).value|
    ensures var ts := Lex(s, off).value;
            && off <= ts[i].start < ts[i].end <= off + |s|
            && ReadsTo(s, ts[i].start - off, off, ts[..i])
            && ReadsTo(s, ts[i].end - off, off, ts[..i + 1])
    decreases |s|
  {
    hide Lex, Scan, Yield, ReadsTo;
    LexOfNothing(off);
    LexStep(s, off);
    var w := Width(s);
    var ts, us, ys := Lex(s, off).value, Lex(s[w..], off + w).value, Yield(s, off);
    if i < |ys| {
      ReadsNothing(s, off);
      ReadsNothing(s[w..], off + w);
      ReadsOneMore(s, w, off, []);
      assert ts[..1] == ys + [];
    } else {
      CutAtToken(s[w..], off + w, i - |ys|);
      ReadsOneMore(s, ts[i].start - off, off, us[..i - |ys|]);
      ReadsOneMore(s, ts[i].end - off, off, us[..i - |ys| + 1]);
      assert ys + us[..i - |ys|] == ts[..i] && ys + us[..i - |ys| + 1] == ts[..i + 1];
    }
  }

  /** A word starts at a character that is no stop; punctuation is one character long. */
  lemma {:induction false} TokenAt(s: string, off: nat, i: nat)
    requires Lex(s, off).Some? && i < |Lex(s, off).value|
    ensures var t := Lex(s, off).value[i];
            && off <= t.start < t.end <= off + |s|
            && (t.punctuation ==> t.value == [s[t.start - off]] && IsPunctuation(s[t.start - off]) && t.end == t.start + 1)
            && (!t.punctuation ==> !Stops(s[t.start - off]))
    decreases |s|
  {
    hide Lex, WordAt;
    LexOfNothing(off);
    LexStep(s, off);
    var w := Width(s);
    var ys := Yield(s, off);
    if i >= |ys| {
      TokenAt(s[w..], off + w, i - |ys|);
    }
  }
}
