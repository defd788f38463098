/** The compiled dial plan means what the tables say. */
module DialPlanLaws {
  import opened Wrappers
  import opened ExtensionKeys
  import opened DialRules
  import opened DialPlan
  import opened Directory

  // ---------------------------------------------------------------- the tables

  lemma {:induction false} ActiveIs(numbers: seq<Number>)
    ensures forall m :: m in ActiveOf(numbers) <==> m in numbers && m.active
  {
    if numbers != [] {
      ActiveIs(numbers[1..]);
      assert numbers == [numbers[0]] + numbers[1..];
    }
  }

  predicate NumbersApart(numbers: seq<Number>) {
    forall i, j :: 0 <= i < j < |numbers| ==> numbers[i].number != numbers[j].number
  }

  lemma {:induction false} ActiveApart(numbers: seq<Number>)
    requires NumbersApart(numbers)
    ensures NumbersApart(ActiveOf(numbers))
  {
    if numbers != [] {
      ActiveApart(numbers[1..]);
      ActiveIs(numbers[1..]);
      var rest := ActiveOf(numbers[1..]);
      assert forall j :: 0 <= j < |rest| ==> rest[j] in numbers[1..];
      if numbers[0].active {
        forall j | 0 <= j < |rest| ensures rest[j].number != numbers[0].number {
          var k :| 0 <= k < |numbers[1..]| && numbers[1..][k] == rest[j];
          assert numbers[k + 1] == rest[j];
        }
      }
    }
  }

  lemma {:induction false} DialableIs(rows: seq<Extension>, number: string)
    ensures forall e :: e in Dialable(rows, number) <==> e in rows && e.active && e.number == number
  {
    if rows != [] {
      DialableIs(rows[1..], number);
      assert rows == [rows[0]] + rows[1..];
    }
  }

  predicate RowsApart(rows: seq<Extension>) {
    forall i, j :: 0 <= i < j < |rows| ==> rows[i].number != rows[j].number || rows[i].digits != rows[j].digits
  }

  lemma {:induction false} DialableApart(rows: seq<Extension>, number: string)
    requires RowsApart(rows)
    ensures RowsApart(Dialable(rows, number))
  {
    if rows != [] {
      DialableApart(rows[1..], number);
      DialableIs(rows[1..], number);
      var rest := Dialable(rows[1..], number);
      forall j | 0 <= j < |rest| ensures rest[j].number != rows[0].number || rest[j].digits != rows[0].digits {
        var k :| 0 <= k < |rows[1..]| && rows[1..][k] == rest[j];
        assert rows[k + 1] == rest[j];
      }
    }
  }

  lemma NumberDigits(m: Number)
    requires NumberText(m.number)
    ensures OnlyDigits(m.number) == m.number[1..]
    ensures AllDigits(OnlyDigits(m.number)) && 7 <= |OnlyDigits(m.number)| <= 15
  {
    OnlyDigitsKeeps(m.number[1..]);
  }

  /** Two numbers with the same spelling are the same number, spelled the same way. */
  lemma SpellingsDiffer(a: Number, p: bool, b: Number, q: bool)
    requires NumberText(a.number) && NumberText(b.number) && Dialled(a, p) == Dialled(b, q)
    ensures a.number == b.number && p == q
  {
    NumberDigits(a);
    NumberDigits(b);
    assert Dialled(a, p)[0] == (if p then '+' else a.number[1]);
    assert Dialled(b, q)[0] == (if q then '+' else b.number[1]);
    assert IsDigit(a.number[1..][0]) && IsDigit(b.number[1..][0]);
    assert p == q;
    if p {
      assert Dialled(a, p)[1..] == a.number[1..] && Dialled(b, q)[1..] == b.number[1..];
    } else {
      assert Dialled(a, p) == a.number[1..] && Dialled(b, q) == b.number[1..];
    }
    assert a.number == [a.number[0]] + a.number[1..] && b.number == [b.number[0]] + b.number[1..];
  }

  predicate NoStar(s: string) { forall i :: 0 <= i < |s| ==> s[i] != '*' }

  lemma DialledHasNoStar(m: Number, plus: bool)
    requires NumberText(m.number)
    ensures NoStar(Dialled(m, plus)) && |Dialled(m, plus)| >= 7
    ensures plus ==> Dialled(m, plus)[0] == '+' && |Dialled(m, plus)| >= 8
    ensures forall i :: (if plus then 1 else 0) <= i < |Dialled(m, plus)| ==> IsDigit(Dialled(m, plus)[i])
  {
    NumberDigits(m);
  }

  /** A text splits at its first star in one way only. */
  lemma StarSplits(a: string, x: string, b: string, y: string)
    requires NoStar(a) && NoStar(b) && a + "*" + x == b + "*" + y
    ensures a == b && x == y
  {
    var left, right := a + "*" + x, b + "*" + y;
    assert left[|a|] == '*' && right[|b|] == '*';
    assert forall i :: 0 <= i < |a| ==> left[i] == a[i];
    assert forall i :: 0 <= i < |b| ==> right[i] == b[i];
    assert |a| == |b|;
    assert left[..|a|] == a && right[..|b|] == b;
    assert left[|a| + 1..] == x && right[|b| + 1..] == y;
  }

  // ---------------------------------------------------------------- what a context holds

  /** The rules that come from one platform number, under one spelling. */
  predicate FromNumber(t: Tables, m: Number, plus: bool, owner: Option<nat>, rule: Rule) {
    || rule == Rule(Exact(Dialled(m, plus)), Answer(t, m))
    || (m.owner == owner && exists e :: e in t.extensions && e.active && e.number == m.number && rule == Rule(Exact(Star(m, plus, e.digits)), Ring(e.key)))
    || (m.owner != owner && rule == Rule(StarPattern(m, plus), NoService))
  }

  lemma NumberRulesAre(t: Tables, m: Number, plus: bool, owner: Option<nat>)
    ensures forall rule :: rule in NumberRules(t, m, plus, m.owner == owner) <==> FromNumber(t, m, plus, owner, rule)
  {
    hide Dialable, Star, StarPattern, Answer, Dialled;
    var rows := Dialable(t.extensions, m.number);
    DialableIs(t.extensions, m.number);
    var stars := StarRules(m, plus, rows);
    forall e | e in rows ensures Rule(Exact(Star(m, plus, e.digits)), Ring(e.key)) in stars {
      var i :| 0 <= i < |rows| && rows[i] == e;
      assert stars[i] in stars;
    }
    forall rule | rule in stars ensures exists e :: e in rows && rule == Rule(Exact(Star(m, plus, e.digits)), Ring(e.key)) {
      var i :| 0 <= i < |stars| && stars[i] == rule;
      assert rows[i] in rows;
    }
  }

  lemma {:induction false} RoutesAre(t: Tables, numbers: seq<Number>, owner: Option<nat>)
    ensures forall rule :: rule in Routes(t, numbers, owner) <==>
              exists m, plus :: m in numbers && FromNumber(t, m, plus, owner, rule)
  {
    hide FromNumber, NumberRules;
    if numbers != [] {
      RoutesAre(t, numbers[1..], owner);
      var m := numbers[0];
      NumberRulesAre(t, m, false, owner);
      NumberRulesAre(t, m, true, owner);
      assert numbers == [m] + numbers[1..];
      var left, right, rest := NumberRules(t, m, false, m.owner == owner), NumberRules(t, m, true, m.owner == owner), Routes(t, numbers[1..], owner);
      assert Routes(t, numbers, owner) == left + right + rest;
      forall rule | rule in Routes(t, numbers, owner)
        ensures exists m', plus :: m' in numbers && FromNumber(t, m', plus, owner, rule)
      {
        if rule in left { assert FromNumber(t, m, false, owner, rule); }
        else if rule in right { assert FromNumber(t, m, true, owner, rule); }
        else { assert rule in rest; }
      }
      forall rule, m', plus | m' in numbers && FromNumber(t, m', plus, owner, rule)
        ensures rule in Routes(t, numbers, owner)
      {
        if m' == m { assert plus == true || plus == false; }
      }
    }
  }

  /** Every rule of a context is one of these. */
  predicate FromContext(t: Tables, rows: seq<Extension>, owner: Option<nat>, rule: Rule) {
    || rule == LOGIN || rule == UNKNOWN || rule == OUT_PLUS || rule == OUT_DIGITS
    || (exists e :: e in rows && rule == Rule(Exact(e.digits), Ring(e.key)))
    || (exists m, plus :: m in t.numbers && m.active && FromNumber(t, m, plus, owner, rule))
  }

  lemma ContextIs(t: Tables, rows: seq<Extension>, owner: Option<nat>)
    ensures forall rule :: rule in ContextOf(t, rows, owner) <==> FromContext(t, rows, owner, rule)
  {
    hide FromNumber, Routes, ActiveOf;
    RoutesAre(t, Active(t), owner);
    ActiveIs(t.numbers);
    var rules := ExtensionRules(rows);
    forall e | e in rows ensures Rule(Exact(e.digits), Ring(e.key)) in rules {
      var i :| 0 <= i < |rows| && rows[i] == e;
      assert rules[i] in rules;
    }
    forall rule | rule in rules ensures exists e :: e in rows && rule == Rule(Exact(e.digits), Ring(e.key)) {
      var i :| 0 <= i < |rules| && rules[i] == rule;
      assert rows[i] in rows;
    }
  }

  // ---------------------------------------------------------------- what the patterns match

  lemma UnknownFits(text: string)
    ensures Matches(UNKNOWN.exten, text) <==> ExtensionDigits(text)
  {
    if |text| >= 3 { assert text[1..][1..] == text[2..] && text[2..][1..] == text[3..]; }
    assert |text| == 3 ==> (AllDigits(text) <==> IsDigit(text[0]) && IsDigit(text[1]) && IsDigit(text[2]));
  }

  predicate LooksForeign(text: string) { |text| >= 3 && text[0] == '+' && IsDigit(text[1]) }

  predicate LooksLong(text: string) { |text| >= 5 && forall i :: 0 <= i < 4 ==> IsDigit(text[i]) }

  lemma OutFits(text: string)
    ensures Matches(OUT_PLUS.exten, text) <==> LooksForeign(text)
    ensures Matches(OUT_DIGITS.exten, text) <==> LooksLong(text)
  {
    if |text| >= 4 { assert text[1..][1..] == text[2..] && text[2..][1..] == text[3..] && text[3..][1..] == text[4..]; }
    else if |text| >= 2 { assert text[1..][1..] == text[2..]; }
    assert LooksLong(text) <==> |text| >= 5 && IsDigit(text[0]) && IsDigit(text[1]) && IsDigit(text[2]) && IsDigit(text[3]);
  }

  /** What follows the star is at least a digit and one character more. */
  predicate Deep(w: string) { |w| >= 2 && IsDigit(w[0]) }

  lemma StarFits(m: Number, plus: bool, text: string)
    ensures Matches(StarPattern(m, plus), text) ==> exists w :: text == Star(m, plus, w) && Deep(w)
    ensures forall w :: text == Star(m, plus, w) && Deep(w) ==> Matches(StarPattern(m, plus), text)
  {
    var prefix := Dialled(m, plus) + "*";
    LiteralFits(prefix, [AnyDigit, Rest], text);
    if prefix <= text {
      var w := text[|prefix|..];
      assert text == Star(m, plus, w);
    }
    forall w | text == Star(m, plus, w) && Deep(w) ensures Matches(StarPattern(m, plus), text) {
      assert prefix <= text && text[|prefix|..] == w;
    }
  }

  lemma StarBeatsOut(m: Number, plus: bool)
    requires NumberText(m.number)
    ensures if plus then Beats(StarPattern(m, plus), OUT_PLUS.exten) else Beats(StarPattern(m, plus), OUT_DIGITS.exten)
  {
    DialledHasNoStar(m, plus);
    var atoms := Literal(Dialled(m, plus) + "*") + [AnyDigit, Rest];
    assert atoms[0].Lit? && atoms[1..][0] == atoms[1];
    if plus { assert atoms[0] == Lit('+') && atoms[1].Lit?; }
  }

  // ---------------------------------------------------------------- what dialling does

  /** The devices of a context: three digits each, and no digits twice. */
  predicate RowsOk(rows: seq<Extension>) {
    && (forall e :: e in rows ==> ExtensionDigits(e.digits))
    && (forall e, f :: e in rows && f in rows && e.digits == f.digits ==> e == f)
  }

  predicate Owns(t: Tables, m: Number) { m in t.numbers && m.active }

  lemma SameNumber(t: Tables, m: Number, n: Number)
    requires Valid(t) && m in t.numbers && n in t.numbers && m.number == n.number
    ensures m == n
  {}

  lemma SameRow(t: Tables, e: Extension, f: Extension)
    requires Valid(t) && e in t.extensions && f in t.extensions && e.number == f.number && e.digits == f.digits
    ensures e == f
  {}

  /** Which rules can match three digits. */
  lemma ShortTexts(t: Tables, owner: Option<nat>, m: Number, plus: bool, rule: Rule, text: string)
    requires Valid(t) && m in t.numbers && FromNumber(t, m, plus, owner, rule) && Matches(rule.exten, text)
    ensures |text| >= 7
  {
    DialledHasNoStar(m, plus);
    StarFits(m, plus, text);
  }

  /** Three digits ring exactly the device with those digits, and are out of service when there is none. */
  lemma ThreeDigits(t: Tables, rows: seq<Extension>, owner: Option<nat>, text: string)
    requires Valid(t) && RowsOk(rows) && ExtensionDigits(text)
    ensures forall e :: e in rows && e.digits == text ==> Dial(ContextOf(t, rows, owner), text) == Some(Ring(e.key))
    ensures (forall e :: e in rows ==> e.digits != text) ==> Dial(ContextOf(t, rows, owner), text) == Some(NoService)
  {
    hide Valid, ContextOf, FromNumber, NumberText;
    var rules := ContextOf(t, rows, owner);
    ContextIs(t, rows, owner);
    UnknownFits(text);
    OutFits(text);
    assert IsDigit(text[0]);
    forall rule, m, plus | m in t.numbers && FromNumber(t, m, plus, owner, rule) ensures !Matches(rule.exten, text) {
      if Matches(rule.exten, text) { ShortTexts(t, owner, m, plus, rule, text); }
    }
    if e :| e in rows && e.digits == text {
      var exact := Rule(Exact(e.digits), Ring(e.key));
      forall rule | Answers(rules, text, rule) ensures rule.action == Ring(e.key) { assert !Beats(exact.exten, rule.exten); }
      DialsTo(rules, text, Ring(e.key), exact);
    } else {
      DialsTo(rules, text, NoService, UNKNOWN);
    }
  }

  /** A full platform number, in either spelling, does exactly what that number answers with. */
  lemma FullNumber(t: Tables, rows: seq<Extension>, owner: Option<nat>, m: Number, plus: bool)
    requires Valid(t) && RowsOk(rows) && Owns(t, m)
    ensures Dial(ContextOf(t, rows, owner), Dialled(m, plus)) == Some(Answer(t, m))
  {
    hide ContextOf, Answer;
    var rules, text := ContextOf(t, rows, owner), Dialled(m, plus);
    ContextIs(t, rows, owner);
    DialledHasNoStar(m, plus);
    var exact := Rule(Exact(text), Answer(t, m));
    assert FromNumber(t, m, plus, owner, exact);
    forall rule | Answers(rules, text, rule) ensures rule.action == Answer(t, m) {
      assert !Beats(exact.exten, rule.exten);
      if m', plus' :| m' in t.numbers && m'.active && FromNumber(t, m', plus', owner, rule) {
        ExactFromNumber(t, m', plus', owner, rule, m, plus);
      }
    }
    DialsTo(rules, text, Answer(t, m), exact);
  }

  lemma HasStar(m: Number, plus: bool)
    ensures forall w :: !NoStar(Star(m, plus, w))
  {
    forall w ensures !NoStar(Star(m, plus, w)) { assert Star(m, plus, w)[|Dialled(m, plus)|] == '*'; }
  }

  lemma ExactFromNumber(t: Tables, m': Number, plus': bool, owner: Option<nat>, rule: Rule, m: Number, plus: bool)
    requires Valid(t) && m in t.numbers && m' in t.numbers
    requires FromNumber(t, m', plus', owner, rule) && rule.exten == Exact(Dialled(m, plus))
    ensures rule.action == Answer(t, m)
  {
    hide Answer;
    DialledHasNoStar(m, plus);
    if rule == Rule(Exact(Dialled(m', plus')), Answer(t, m')) {
      SpellingsDiffer(m', plus', m, plus);
      SameNumber(t, m, m');
    } else {
      HasStar(m', plus');
    }
  }

  /** A number, a star and more: which rules of which number can match it. */
  lemma StarTexts(t: Tables, m': Number, plus': bool, owner: Option<nat>, rule: Rule, m: Number, plus: bool, w: string)
    requires Valid(t) && m in t.numbers && m' in t.numbers
    requires FromNumber(t, m', plus', owner, rule) && Matches(rule.exten, Star(m, plus, w))
    ensures if m.owner == owner
            then exists e :: e in t.extensions && e.active && e.number == m.number && e.digits == w && rule.action == Ring(e.key)
            else Deep(w) && rule.action == NoService
  {
    hide Answer;
    var text := Star(m, plus, w);
    DialledHasNoStar(m, plus);
    DialledHasNoStar(m', plus');
    assert text[|Dialled(m, plus)|] == '*';
    if m'.owner == owner && rule.exten.Exact? && rule.exten.text != Dialled(m', plus') {
      var e :| e in t.extensions && e.active && e.number == m'.number && rule == Rule(Exact(Star(m', plus', e.digits)), Ring(e.key));
      StarSplits(Dialled(m', plus'), e.digits, Dialled(m, plus), w);
      SpellingsDiffer(m', plus', m, plus);
      SameNumber(t, m, m');
    } else if rule.exten.Pattern? {
      StarFits(m', plus', text);
      var w' :| text == Star(m', plus', w') && Deep(w');
      StarSplits(Dialled(m', plus'), w', Dialled(m, plus), w);
      SpellingsDiffer(m', plus', m, plus);
      SameNumber(t, m, m');
    }
  }

  lemma StarLooks(m: Number, plus: bool, w: string)
    requires NumberText(m.number)
    ensures if plus then LooksForeign(Star(m, plus, w)) else LooksLong(Star(m, plus, w))
    ensures plus ==> !LooksLong(Star(m, plus, w))
    ensures !plus ==> !LooksForeign(Star(m, plus, w))
    ensures |Star(m, plus, w)| > 3 && '*' in Star(m, plus, w) && Star(m, plus, w)[0] != '*'
  {
    DialledHasNoStar(m, plus);
    var text := Star(m, plus, w);
    assert text[|Dialled(m, plus)|] == '*';
    assert forall i :: 0 <= i < |Dialled(m, plus)| ==> text[i] == Dialled(m, plus)[i];
  }

  /**
   * A caller of the number's own account reaches each of its extensions behind a star. Digits that number
   * does not have are not out of service: they leave through the carrier.
   */
  lemma StarInsideTheAccount(t: Tables, rows: seq<Extension>, owner: Option<nat>, m: Number, plus: bool, w: string)
    requires Valid(t) && RowsOk(rows) && Owns(t, m) && m.owner == owner
    ensures forall e :: e in t.extensions && e.active && e.number == m.number && e.digits == w ==>
              Dial(ContextOf(t, rows, owner), Star(m, plus, w)) == Some(Ring(e.key))
    ensures (forall e :: e in t.extensions && e.active && e.number == m.number ==> e.digits != w) ==>
              Dial(ContextOf(t, rows, owner), Star(m, plus, w)) == Some(Trunk)
  {
    hide ContextOf, FromNumber, LooksForeign, LooksLong, Valid, RowsOk, NumberText, Star, Dialled, StarPattern, Deep, ExtensionDigits;
    ValidParts(t);
    var rules, text := ContextOf(t, rows, owner), Star(m, plus, w);
    ContextIs(t, rows, owner);
    StarLooks(m, plus, w);
    UnknownFits(text);
    OutFits(text);
    forall rule, m', plus' | m' in t.numbers && FromNumber(t, m', plus', owner, rule) && Matches(rule.exten, text)
      ensures exists e :: e in t.extensions && e.active && e.number == m.number && e.digits == w && rule.action == Ring(e.key)
    {
      StarTexts(t, m', plus', owner, rule, m, plus, w);
    }
    NotThreeDigits(rows, text);
    if e :| e in t.extensions && e.active && e.number == m.number && e.digits == w {
      var exact := Rule(Exact(text), Ring(e.key));
      StarRuleIsThere(t, m, plus, owner, e);
      forall rule | Answers(rules, text, rule) ensures rule.action == Ring(e.key) { assert !Beats(exact.exten, rule.exten); }
      DialsTo(rules, text, Ring(e.key), exact);
    } else {
      DialsTo(rules, text, Trunk, if plus then OUT_PLUS else OUT_DIGITS);
    }
  }

  lemma NotThreeDigits(rows: seq<Extension>, text: string)
    requires RowsOk(rows) && |text| > 3
    ensures !ExtensionDigits(text) && forall e :: e in rows ==> e.digits != text
  {}

  lemma StarRuleIsThere(t: Tables, m: Number, plus: bool, owner: Option<nat>, e: Extension)
    requires e in t.extensions && e.active && e.number == m.number && m.owner == owner
    ensures FromNumber(t, m, plus, owner, Rule(Exact(Star(m, plus, e.digits)), Ring(e.key)))
  {}

  /**
   * A caller of another account never reaches a device behind a star. The answer is out of service exactly
   * when at least a digit and one character more follow; anything shorter leaves through the carrier.
   */
  lemma StarOutsideTheAccount(t: Tables, rows: seq<Extension>, owner: Option<nat>, m: Number, plus: bool, w: string)
    requires Valid(t) && RowsOk(rows) && Owns(t, m) && m.owner != owner
    ensures Dial(ContextOf(t, rows, owner), Star(m, plus, w)) == Some(if Deep(w) then NoService else Trunk)
  {
    hide ContextOf, FromNumber, LooksForeign, LooksLong, Valid, RowsOk, NumberText, Star, Dialled, StarPattern, Deep, ExtensionDigits;
    ValidParts(t);
    var rules, text := ContextOf(t, rows, owner), Star(m, plus, w);
    ContextIs(t, rows, owner);
    StarLooks(m, plus, w);
    UnknownFits(text);
    OutFits(text);
    forall rule, m', plus' | m' in t.numbers && FromNumber(t, m', plus', owner, rule) && Matches(rule.exten, text)
      ensures Deep(w) && rule.action == NoService
    {
      StarTexts(t, m', plus', owner, rule, m, plus, w);
    }
    NotThreeDigits(rows, text);
    if Deep(w) {
      var barred := Rule(StarPattern(m, plus), NoService);
      StarFits(m, plus, text);
      StarBeatsOut(m, plus);
      BarIsThere(t, m, plus, owner);
      forall rule | Answers(rules, text, rule) ensures rule.action == NoService { assert !Beats(barred.exten, rule.exten); }
      DialsTo(rules, text, NoService, barred);
    } else {
      DialsTo(rules, text, Trunk, if plus then OUT_PLUS else OUT_DIGITS);
    }
  }

  lemma BarIsThere(t: Tables, m: Number, plus: bool, owner: Option<nat>)
    requires m.owner != owner
    ensures FromNumber(t, m, plus, owner, Rule(StarPattern(m, plus), NoService))
  {}

  /** The text is a platform number, alone or followed by a star. */
  ghost predicate OfPlatform(t: Tables, text: string) {
    exists m, plus :: m in t.numbers && m.active && (text == Dialled(m, plus) || exists w :: text == Star(m, plus, w))
  }

  lemma FromNumberIsOfPlatform(t: Tables, m: Number, plus: bool, owner: Option<nat>, rule: Rule, text: string)
    requires m in t.numbers && m.active && FromNumber(t, m, plus, owner, rule) && Matches(rule.exten, text)
    ensures OfPlatform(t, text)
  {
    StarFits(m, plus, text);
  }

  /** What the platform does not own: the carrier for long numbers, the login for its code, and nothing else. */
  lemma NotOfPlatform(t: Tables, rows: seq<Extension>, owner: Option<nat>, text: string)
    requires Valid(t) && RowsOk(rows) && !ExtensionDigits(text) && !OfPlatform(t, text)
    ensures Dial(ContextOf(t, rows, owner), text) ==
            if text == "*97" then Some(VoicemailLogin)
            else if LooksForeign(text) || LooksLong(text) then Some(Trunk)
            else None
  {
    hide ContextOf, FromNumber, OfPlatform, LooksForeign, LooksLong, Valid;
    var rules := ContextOf(t, rows, owner);
    ContextIs(t, rows, owner);
    UnknownFits(text);
    OutFits(text);
    forall rule, m, plus | m in t.numbers && m.active && FromNumber(t, m, plus, owner, rule) ensures !Matches(rule.exten, text) {
      if Matches(rule.exten, text) { FromNumberIsOfPlatform(t, m, plus, owner, rule, text); }
    }
    if text == "*97" {
      LoginIsShort();
      DialsTo(rules, text, VoicemailLogin, LOGIN);
    } else if LooksForeign(text) || LooksLong(text) {
      DialsTo(rules, text, Trunk, if LooksForeign(text) then OUT_PLUS else OUT_DIGITS);
    } else {
      BestAnswers(rules, text);
    }
  }

  lemma LoginIsShort()
    ensures !LooksForeign("*97") && !LooksLong("*97")
  {}

  /**
   * A context rings a device only for its own three digits, for a number that answers with it, or behind the
   * star of a number of the same account: whatever is dialled, no other account's device is named directly.
   */
  lemma RingsOnly(t: Tables, rows: seq<Extension>, owner: Option<nat>, text: string, key: string)
    requires Valid(t) && RowsOk(rows) && Dial(ContextOf(t, rows, owner), text) == Some(Ring(key))
    ensures || (exists e :: e in rows && e.digits == text && e.key == key)
            || (exists m, plus :: m in t.numbers && m.active && text == Dialled(m, plus) && NumberExtension(t, m) == Some(key))
            || (exists m, plus, e :: m in t.numbers && m.active && m.owner == owner && e in t.extensions && e.active
                  && e.number == m.number && e.key == key && text == Star(m, plus, e.digits))
  {
    hide ContextOf, Dialled, Star, NumberExtension, Valid, RowsOk;
    var rules := ContextOf(t, rows, owner);
    ContextIs(t, rows, owner);
    BestAnswers(rules, text);
    var rule := Best(rules, text).value;
    assert rule.action == Ring(key);
    if m, plus :| m in t.numbers && m.active && FromNumber(t, m, plus, owner, rule) {
    }
  }

  // ---------------------------------------------------------------- no two rules for one exten

  lemma {:induction false} NumberRulesDistinct(t: Tables, m: Number, owner: Option<nat>)
    requires Valid(t) && m in t.numbers
    ensures Distinct(NumberRules(t, m, false, m.owner == owner) + NumberRules(t, m, true, m.owner == owner))
  {
    hide Valid, Answer, Dialled, StarPattern, Star;
    ValidParts(t);
    OneSpellingDistinct(t, m, false, owner);
    OneSpellingDistinct(t, m, true, owner);
    var left, right := NumberRules(t, m, false, m.owner == owner), NumberRules(t, m, true, m.owner == owner);
    NumberRulesAre(t, m, false, owner);
    NumberRulesAre(t, m, true, owner);
    forall p, q | p in left && q in right ensures p.exten != q.exten {
      if p.exten == q.exten { SameExten(t, m, false, m, true, owner, p, q); }
    }
    DistinctTogether(left, right);
  }

  lemma ValidParts(t: Tables)
    requires Valid(t)
    ensures forall m :: m in t.numbers ==> NumberText(m.number)
    ensures NumbersApart(t.numbers) && RowsApart(t.extensions)
    ensures forall e :: e in t.extensions ==> ExtensionDigits(e.digits)
  {}

  lemma OneSpellingDistinct(t: Tables, m: Number, plus: bool, owner: Option<nat>)
    requires RowsApart(t.extensions) && NumberText(m.number)
    ensures Distinct(NumberRules(t, m, plus, m.owner == owner))
  {
    hide Answer;
    var rows := Dialable(t.extensions, m.number);
    DialableApart(t.extensions, m.number);
    DialableIs(t.extensions, m.number);
    DialledHasNoStar(m, plus);
    HasStar(m, plus);
    var rules := NumberRules(t, m, plus, m.owner == owner);
    forall i, j | 0 <= i < j < |rules| ensures rules[i].exten != rules[j].exten {
      if m.owner == owner {
        assert rules[j] == StarRules(m, plus, rows)[j - 1];
        if i > 0 {
          assert rules[i] == StarRules(m, plus, rows)[i - 1];
          StarsDiffer(m, plus, rows[i - 1].digits, rows[j - 1].digits);
        }
      }
    }
  }

  lemma StarsDiffer(m: Number, plus: bool, a: string, b: string)
    requires NumberText(m.number)
    ensures Star(m, plus, a) == Star(m, plus, b) ==> a == b
  {
    DialledHasNoStar(m, plus);
    if Star(m, plus, a) == Star(m, plus, b) { StarSplits(Dialled(m, plus), a, Dialled(m, plus), b); }
  }

  /** Rules of two numbers, or of two spellings, are never written for one exten. */
  lemma SameExten(t: Tables, m: Number, plus: bool, n: Number, qlus: bool, owner: Option<nat>, p: Rule, q: Rule)
    requires NumberText(m.number) && NumberText(n.number)
    requires FromNumber(t, m, plus, owner, p) && FromNumber(t, n, qlus, owner, q) && p.exten == q.exten
    ensures m.number == n.number && plus == qlus
  {
    hide Answer;
    DialledHasNoStar(m, plus);
    DialledHasNoStar(n, qlus);
    HasStar(m, plus);
    HasStar(n, qlus);
    if p.exten.Exact? {
      if p.exten.text == Dialled(m, plus) {
        SpellingsDiffer(m, plus, n, qlus);
      } else {
        var e, f :| p.exten.text == Star(m, plus, e) && q.exten.text == Star(n, qlus, f);
        StarSplits(Dialled(m, plus), e, Dialled(n, qlus), f);
        SpellingsDiffer(m, plus, n, qlus);
      }
    } else {
      StarPatternsDiffer(m, plus, n, qlus);
    }
  }

  lemma StarPatternsDiffer(m: Number, plus: bool, n: Number, qlus: bool)
    requires NumberText(m.number) && NumberText(n.number) && StarPattern(m, plus) == StarPattern(n, qlus)
    ensures m.number == n.number && plus == qlus
  {
    StarFits(m, plus, Star(m, plus, "00"));
    StarFits(n, qlus, Star(m, plus, "00"));
    assert Deep("00");
    var w :| Star(m, plus, "00") == Star(n, qlus, w);
    DialledHasNoStar(m, plus);
    DialledHasNoStar(n, qlus);
    StarSplits(Dialled(m, plus), "00", Dialled(n, qlus), w);
    SpellingsDiffer(m, plus, n, qlus);
  }

  lemma {:induction false} RoutesDistinct(t: Tables, numbers: seq<Number>, owner: Option<nat>)
    requires Valid(t) && NumbersApart(numbers) && (forall m :: m in numbers ==> m in t.numbers)
    ensures Distinct(Routes(t, numbers, owner))
  {
    if numbers != [] {
      hide Valid, NumberRules, FromNumber;
      ValidParts(t);
      var m := numbers[0];
      var mine, rest := NumberRules(t, m, false, m.owner == owner) + NumberRules(t, m, true, m.owner == owner), Routes(t, numbers[1..], owner);
      NumberRulesDistinct(t, m, owner);
      RoutesDistinct(t, numbers[1..], owner);
      RoutesAre(t, numbers[1..], owner);
      NumberRulesAre(t, m, false, owner);
      NumberRulesAre(t, m, true, owner);
      forall p, q | p in mine && q in rest ensures p.exten != q.exten {
        var n, qlus :| n in numbers[1..] && FromNumber(t, n, qlus, owner, q);
        if p.exten == q.exten {
          if FromNumber(t, m, false, owner, p) { SameExten(t, m, false, n, qlus, owner, p, q); }
          else { SameExten(t, m, true, n, qlus, owner, p, q); }
        }
      }
      DistinctTogether(mine, rest);
    }
  }

  lemma OwnDistinct(rows: seq<Extension>)
    requires RowsOk(rows) && forall i, j :: 0 <= i < j < |rows| ==> rows[i].digits != rows[j].digits
    ensures Distinct([LOGIN] + ExtensionRules(rows))
    ensures forall p :: p in [LOGIN] + ExtensionRules(rows) ==> p.exten.Exact? && |p.exten.text| == 3
  {
    var own := [LOGIN] + ExtensionRules(rows);
    assert !IsDigit("*97"[0]);
    forall i, j | 0 <= i < j < |own| ensures own[i].exten != own[j].exten {
      assert own[j] == Rule(Exact(rows[j - 1].digits), Ring(rows[j - 1].key)) && rows[j - 1] in rows;
    }
  }

  /** No context is written two rules for one exten, so the order in which they are written does not matter. */
  lemma ContextsAreDistinct(t: Tables, rows: seq<Extension>, owner: Option<nat>)
    requires Valid(t) && RowsOk(rows)
    requires forall i, j :: 0 <= i < j < |rows| ==> rows[i].digits != rows[j].digits
    ensures Distinct(ContextOf(t, rows, owner))
  {
    hide Valid, FromNumber, Routes, RowsOk;
    ValidParts(t);
    OwnDistinct(rows);
    ActiveApart(t.numbers);
    ActiveIs(t.numbers);
    RoutesDistinct(t, Active(t), owner);
    RoutesAre(t, Active(t), owner);
    var own, routes, last := [LOGIN] + ExtensionRules(rows), Routes(t, Active(t), owner), [UNKNOWN, OUT_PLUS, OUT_DIGITS];
    forall p, q | p in own && q in routes ensures p.exten != q.exten {
      var m, plus :| m in Active(t) && FromNumber(t, m, plus, owner, q);
      NotAShortRule(t, m, plus, owner, q);
    }
    DistinctTogether(own, routes);
    forall p, q | p in own + routes && q in last ensures p.exten != q.exten {
      if p in routes {
        var m, plus :| m in Active(t) && FromNumber(t, m, plus, owner, p);
        NotAShortRule(t, m, plus, owner, p);
      }
    }
    DistinctTogether(own + routes, last);
    assert ContextOf(t, rows, owner) == own + routes + last;
  }

  lemma NotAShortRule(t: Tables, m: Number, plus: bool, owner: Option<nat>, rule: Rule)
    requires NumberText(m.number) && FromNumber(t, m, plus, owner, rule)
    ensures rule.exten.Exact? ==> |rule.exten.text| >= 7
    ensures rule.exten.Pattern? ==> |rule.exten.atoms| >= 10
  {
    DialledHasNoStar(m, plus);
  }
}
