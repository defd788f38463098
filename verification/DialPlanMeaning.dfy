/** What the written contexts mean, number by number: the statements a person dialling can check. */
module DialPlanMeaning {
  import opened Wrappers
  import opened ExtensionKeys
  import opened DialRules
  import opened DialPlan
  import opened Directory
  import opened DialPlanLaws

  lemma LineRows(t: Tables, number: string)
    requires Valid(t)
    ensures var rows := Dialable(t.extensions, number);
            RowsOk(rows) && forall i, j :: 0 <= i < j < |rows| ==> rows[i].digits != rows[j].digits
  {
    hide Dialable, ExtensionDigits, NumberText;
    var rows := Dialable(t.extensions, number);
    DialableIs(t.extensions, number);
    DialableApart(t.extensions, number);
    forall i, j | 0 <= i < j < |rows| ensures rows[i].digits != rows[j].digits { assert rows[i] in rows && rows[j] in rows; }
  }

  lemma {:induction false} OwnerlessIs(rows: seq<Extension>)
    ensures forall e :: e in Ownerless(rows) <==> e in rows && e.owner.None?
  {
    if rows != [] {
      OwnerlessIs(rows[1..]);
      assert rows == [rows[0]] + rows[1..];
    }
  }

  /**
   * In a number's own context every three digits ring exactly the active extension with those digits on that
   * number, and are out of service when the number has none: never another line's.
   */
  lemma ThreeDigitsStayOnTheLine(t: Tables, n: Number, text: string)
    requires Valid(t) && n in t.numbers && n.active && ExtensionDigits(text)
    ensures forall key :: Dial(Context(t, n), text) == Some(Ring(key)) <==>
              exists e :: e in t.extensions && e.active && e.number == n.number && e.digits == text && e.key == key
    ensures Dial(Context(t, n), text) == Some(NoService) <==>
              forall e :: e in t.extensions && e.active && e.number == n.number ==> e.digits != text
  {
    hide Valid, ContextOf, RowsOk;
    var rows := Dialable(t.extensions, n.number);
    LineRows(t, n.number);
    DialableIs(t.extensions, n.number);
    ThreeDigits(t, rows, n.owner, text);
    if e :| e in t.extensions && e.active && e.number == n.number && e.digits == text {
      assert e in rows;
      forall f | f in t.extensions && f.active && f.number == n.number && f.digits == text ensures f.key == e.key { SameRow(t, e, f); }
    }
  }

  /**
   * A platform number dialled in full, from any number's context or from the platform's own devices, does
   * what that number answers with; it never reaches the carrier.
   */
  lemma FullNumbersStayInside(t: Tables, n: Number, m: Number, plus: bool)
    requires Valid(t) && n in t.numbers && n.active && m in t.numbers && m.active
    ensures Dial(Context(t, n), Dialled(m, plus)) == Some(Answer(t, m))
    ensures Dial(Internal(t), Dialled(m, plus)) == Some(Answer(t, m))
    ensures Answer(t, m) != Trunk
  {
    hide Valid, ContextOf, Dialled, RowsOk;
    LineRows(t, n.number);
    FullNumber(t, Dialable(t.extensions, n.number), n.owner, m, plus);
    InternalRows(t);
    FullNumber(t, Ownerless(Dialable(t.extensions, "")), None, m, plus);
  }

  lemma InternalRows(t: Tables)
    requires Valid(t)
    ensures RowsOk(Ownerless(Dialable(t.extensions, "")))
  {
    hide Valid;
    LineRows(t, "");
    OwnerlessIs(Dialable(t.extensions, ""));
  }

  /** Among the platform's own devices three digits ring exactly the ownerless, lineless extension that has them. */
  lemma ThreeDigitsOfThePlatform(t: Tables, text: string)
    requires Valid(t) && ExtensionDigits(text)
    ensures forall key :: Dial(Internal(t), text) == Some(Ring(key)) <==>
              exists e :: e in t.extensions && e.active && e.number == "" && e.owner.None? && e.digits == text && e.key == key
    ensures Dial(Internal(t), text) == Some(NoService) <==>
              forall e :: e in t.extensions && e.active && e.number == "" && e.owner.None? ==> e.digits != text
  {
    hide Valid, ContextOf, RowsOk;
    var rows := Ownerless(Dialable(t.extensions, ""));
    InternalRows(t);
    DialableIs(t.extensions, "");
    OwnerlessIs(Dialable(t.extensions, ""));
    ThreeDigits(t, rows, None, text);
    if e :| e in t.extensions && e.active && e.number == "" && e.owner.None? && e.digits == text {
      assert e in rows;
      forall f | f in t.extensions && f.active && f.number == "" && f.digits == text ensures f.key == e.key { SameRow(t, e, f); }
    }
  }

  // ---------------------------------------------------------------- calls from the carrier

  lemma {:induction false} ProviderIs(t: Tables, numbers: seq<Number>)
    ensures forall rule :: rule in Provider(t, numbers) <==> exists m, plus :: m in numbers && rule in ProviderRules(t, m, plus)
  {
    if numbers != [] {
      hide ProviderRules;
      ProviderIs(t, numbers[1..]);
      var m := numbers[0];
      var left, right, rest := ProviderRules(t, m, false), ProviderRules(t, m, true), Provider(t, numbers[1..]);
      assert Provider(t, numbers) == left + right + rest;
      forall rule | rule in Provider(t, numbers) ensures exists n, plus :: n in numbers && rule in ProviderRules(t, n, plus) {
        if rule in left { assert m in numbers; } else if rule in right { assert m in numbers; } else { assert rule in rest; }
      }
      forall rule, n, plus | n in numbers && rule in ProviderRules(t, n, plus) ensures rule in Provider(t, numbers) {
        if n == m { assert plus == true || plus == false; } else { assert n in numbers[1..]; }
      }
    }
  }

  /**
   * One answer for both ways in: a number called from the carrier enters the application with the very
   * extension that rings when it is dialled from inside, and is out of service exactly when it is inside.
   */
  lemma InsideAndOutsideAgree(t: Tables, n: Number, m: Number, plus: bool)
    requires Valid(t) && n in t.numbers && n.active && m in t.numbers && m.active
    ensures var text := Dialled(m, plus);
            && (forall key :: Dial(Context(t, n), text) == Some(Ring(key)) <==> Dial(FromProvider(t), text) == Some(Application(text, key)))
            && (Dial(Context(t, n), text) == Some(NoService) <==> Dial(FromProvider(t), text) == Some(NoService))
  {
    hide Valid, Dialled, NumberExtension, Context, Internal;
    FullNumbersStayInside(t, n, m, plus);
    FromProviderDials(t, m, plus);
  }

  function Delivered(t: Tables, m: Number, plus: bool): Action {
    match NumberExtension(t, m)
    case Some(key) => Application(Dialled(m, plus), key)
    case None => NoService
  }

  lemma FromProviderDials(t: Tables, m: Number, plus: bool)
    requires Valid(t) && m in t.numbers && m.active
    ensures Dial(FromProvider(t), Dialled(m, plus)) == Some(Delivered(t, m, plus))
  {
    hide NumberExtension, Dialled, Provider, KeyForOwnerless, NumberText, Valid;
    ValidParts(t);
    var rules, text := FromProvider(t), Dialled(m, plus);
    var exact := Rule(Exact(text), Delivered(t, m, plus));
    ActiveIs(t.numbers);
    ProviderIs(t, Active(t));
    DialledHasNoStar(m, plus);
    assert exact in ProviderRules(t, m, plus);
    forall rule | Answers(rules, text, rule) ensures rule.action == Delivered(t, m, plus) {
      if rule in Provider(t, Active(t)) {
        var m', plus' :| m' in Active(t) && rule in ProviderRules(t, m', plus');
        SpellingsDiffer(m', plus', m, plus);
        SameNumber(t, m, m');
      }
    }
    DialsTo(rules, text, Delivered(t, m, plus), exact);
  }

  // ---------------------------------------------------------------- which extension answers a number

  lemma {:induction false} KeyForIs(rows: seq<Extension>, number: string, value: string)
    ensures match KeyFor(rows, number, value)
            case Some(key) => exists e :: e in rows && e.active && e.number == number && e.digits == Digits(value) && e.key == key
            case None => forall e :: e in rows && e.active && e.number == number ==> e.digits != Digits(value)
  {
    hide Digits;
    if rows != [] {
      KeyForIs(rows[1..], number, value);
      assert rows == [rows[0]] + rows[1..];
    }
  }

  /** An active extension of this very number with these digits. */
  predicate OnNumber(t: Tables, m: Number, digits: string, e: Extension) {
    e in t.extensions && e.active && e.number == m.number && e.digits == digits
  }

  ghost predicate AnyOn(t: Tables, m: Number, digits: string) { exists e :: OnNumber(t, m, digits, e) }

  ghost predicate TheOneOn(t: Tables, m: Number, digits: string, key: Option<string>) {
    exists e :: OnNumber(t, m, digits, e) && key == Some(e.key)
  }

  /**
   * The extension that is to answer a number: the one its own link names on it; without one, the one its
   * customer's fallback names on it; without one, the one the operator's last resort names on it, if that is
   * digits; without one, the anchor of its saved journey, if there is one.
   */
  ghost predicate IsToAnswer(t: Tables, m: Number, key: Option<string>) {
    var link, resort := Digits(m.inbound), Digits(t.platformFallback);
    if AnyOn(t, m, link) then TheOneOn(t, m, link, key)
    else if m.owner.Some? && AnyOn(t, m, Digits(t.fallbackOf(m.owner.value))) then TheOneOn(t, m, Digits(t.fallbackOf(m.owner.value)), key)
    else if AllDigits(resort) && AnyOn(t, m, resort) then TheOneOn(t, m, resort, key)
    else key == if t.anchorOf(m.number) == "" then None else Some(t.anchorOf(m.number))
  }

  lemma KeyForIsOn(t: Tables, m: Number, value: string)
    ensures KeyFor(t.extensions, m.number, value).Some? <==> AnyOn(t, m, Digits(value))
    ensures KeyFor(t.extensions, m.number, value).Some? ==> TheOneOn(t, m, Digits(value), KeyFor(t.extensions, m.number, value))
  {
    hide Digits;
    KeyForIs(t.extensions, m.number, value);
    if e :| OnNumber(t, m, Digits(value), e) { assert e in t.extensions; }
    if KeyFor(t.extensions, m.number, value).Some? {
      var e :| e in t.extensions && e.active && e.number == m.number && e.digits == Digits(value) && e.key == KeyFor(t.extensions, m.number, value).value;
      assert OnNumber(t, m, Digits(value), e);
    }
  }

  lemma FirstKeyOf(rows: seq<Extension>, number: string, candidates: seq<string>)
    requires candidates != []
    ensures FirstKey(rows, number, candidates) ==
            if KeyFor(rows, number, candidates[0]).Some? then KeyFor(rows, number, candidates[0]) else FirstKey(rows, number, candidates[1..])
  {
    hide KeyFor;
  }

  /** The last resort is tried only as digits. */
  lemma LastResort(t: Tables, m: Number)
    requires Valid(t)
    ensures var d, resort := FallbackDigits(t.platformFallback), Digits(t.platformFallback);
            && (KeyFor(t.extensions, m.number, d).Some? <==> AllDigits(resort) && AnyOn(t, m, resort))
            && (KeyFor(t.extensions, m.number, d).Some? ==> TheOneOn(t, m, resort, KeyFor(t.extensions, m.number, d)))
  {
    hide KeyFor, NumberText;
    var d, resort := FallbackDigits(t.platformFallback), Digits(t.platformFallback);
    KeyForIsOn(t, m, d);
    if AllDigits(resort) {
      DigitsOfPlain(resort) by { assert forall i :: 0 <= i < |resort| ==> IsDigit(resort[i]); }
    } else {
      forall e ensures !OnNumber(t, m, Digits(d), e) { if e in t.extensions { assert ExtensionDigits(e.digits); } }
    }
  }

  lemma NumberExtensionIsToAnswer(t: Tables, m: Number)
    requires Valid(t)
    ensures IsToAnswer(t, m, NumberExtension(t, m))
  {
    hide KeyFor, AnyOn, TheOneOn, Digits, FallbackDigits, AllDigits, Valid;
    var rows, tried := t.extensions, Candidates(t, m);
    KeyForIsOn(t, m, m.inbound);
    if m.owner.Some? { KeyForIsOn(t, m, t.fallbackOf(m.owner.value)); }
    LastResort(t, m);
    FirstKeyOf(rows, m.number, tried);
    FirstKeyOf(rows, m.number, tried[1..]);
    if m.owner.Some? {
      assert tried[1..] == [t.fallbackOf(m.owner.value), FallbackDigits(t.platformFallback)];
      assert tried[1..][1..] == [FallbackDigits(t.platformFallback)];
      FirstKeyOf(rows, m.number, tried[1..][1..]);
      assert tried[1..][1..][1..] == [];
    } else {
      assert tried[1..] == [FallbackDigits(t.platformFallback)] && tried[1..][1..] == [];
    }
  }

  lemma OneIsToAnswer(t: Tables, m: Number, a: Option<string>, b: Option<string>)
    requires Valid(t) && IsToAnswer(t, m, a) && IsToAnswer(t, m, b)
    ensures a == b
  {
    hide Digits, AllDigits, Valid;
    forall e, f, digits | OnNumber(t, m, digits, e) && OnNumber(t, m, digits, f) ensures e == f { SameRow(t, e, f); }
  }

  /**
   * What answers a number, from every context inside and from the carrier, in either spelling: exactly the
   * extension that is to answer it, and out of service when there is none.
   */
  lemma NumbersAnswerInOrder(t: Tables, n: Number, m: Number, plus: bool, key: Option<string>)
    requires Valid(t) && n in t.numbers && n.active && m in t.numbers && m.active && IsToAnswer(t, m, key)
    ensures Dial(Context(t, n), Dialled(m, plus)) == Some(if key.Some? then Ring(key.value) else NoService)
    ensures Dial(FromProvider(t), Dialled(m, plus)) == Some(if key.Some? then Application(Dialled(m, plus), key.value) else NoService)
  {
    hide Valid, Dialled, NumberExtension, Context, Internal, FromProvider, IsToAnswer;
    NumberExtensionIsToAnswer(t, m);
    OneIsToAnswer(t, m, key, NumberExtension(t, m));
    FullNumbersStayInside(t, n, m, plus);
    FromProviderDials(t, m, plus);
  }

  lemma {:induction false} OwnerlessKeyIs(rows: seq<Extension>, digits: string)
    ensures match KeyForOwnerless(rows, digits)
            case Some(key) => exists e :: e in rows && e.active && e.number == "" && e.owner.None? && e.digits == digits && e.key == key
            case None => forall e :: e in rows && e.active && e.number == "" && e.owner.None? ==> e.digits != digits
  {
    if rows != [] {
      OwnerlessKeyIs(rows[1..], digits);
      assert rows == [rows[0]] + rows[1..];
    }
  }

  /** A call the carrier delivers without a number rings the platform's own default extension, and nothing when there is none. */
  lemma NumberlessCallsRing(t: Tables)
    requires Valid(t)
    ensures forall e :: e in t.extensions && e.active && e.number == "" && e.owner.None? && e.digits == Digits(t.defaultExtension) ==>
              Dial(FromProvider(t), "s") == Some(Ring(e.key))
    ensures (forall e :: e in t.extensions && e.active && e.number == "" && e.owner.None? ==> e.digits != Digits(t.defaultExtension)) ==>
              Dial(FromProvider(t), "s") == Some(NoService)
  {
    hide NumberExtension, Dialled, Provider, KeyForOwnerless, NumberText, Valid, Digits;
    ValidParts(t);
    var digits := FallbackDigits(t.defaultExtension);
    OwnerlessKeyIs(t.extensions, digits);
    ProviderIs(t, Active(t));
    var rules := FromProvider(t);
    var last := rules[|rules| - 1];
    forall rule | Answers(rules, "s", rule) ensures rule.action == last.action {
      if rule in Provider(t, Active(t)) {
        var m, plus :| m in Active(t) && rule in ProviderRules(t, m, plus);
        DialledIsNoLetter(m, plus);
      }
    }
    DialsTo(rules, "s", last.action, last);
    DefaultDigits(t);
  }

  lemma DialledIsNoLetter(m: Number, plus: bool)
    ensures Dialled(m, plus) != "s"
  {
    var d := OnlyDigits(m.number);
    assert plus ==> Dialled(m, plus)[0] == '+';
    assert !plus ==> Dialled(m, plus) == d;
    assert d != [] ==> IsDigit(d[0]);
  }

  /** Digits an extension can have are tried as they are. */
  lemma DefaultDigits(t: Tables)
    requires Valid(t)
    ensures forall e :: e in t.extensions ==> (e.digits == FallbackDigits(t.defaultExtension) <==> e.digits == Digits(t.defaultExtension))
  {}

  // ---------------------------------------------------------------- mailboxes

  /** A key as the tables build it: three digits, alone or on a platform number. */
  ghost predicate ValidKey(key: string) {
    exists digits, number :: ExtensionDigits(digits) && (number == "" || NumberText(number)) && key == Key(digits, number)
  }

  lemma MailboxOf(digits: string, number: string)
    requires ExtensionDigits(digits) && (number == "" || NumberText(number))
    ensures Mailbox(Key(digits, number)) == if number == "" then digits else digits + "-" + number[1..]
  {
    KeySplits(digits, number);
    if number != "" {
      OnlyDigitsKeeps(number[1..]);
      assert OnlyDigits(number) == OnlyDigits(number[1..]);
    }
  }

  /** Two extensions never share a mailbox: its name gives the key back. */
  lemma MailboxesDiffer(a: string, x: string, b: string, y: string)
    requires ExtensionDigits(a) && (x == "" || NumberText(x)) && ExtensionDigits(b) && (y == "" || NumberText(y))
    ensures Mailbox(Key(a, x)) == Mailbox(Key(b, y)) ==> a == b && x == y
  {
    hide Key, Mailbox;
    MailboxOf(a, x);
    MailboxOf(b, y);
    if Mailbox(Key(a, x)) == Mailbox(Key(b, y)) {
      var left, right := Mailbox(Key(a, x)), Mailbox(Key(b, y));
      assert left[..3] == a && right[..3] == b;
      if x != "" && y != "" {
        assert left[4..] == x[1..] && right[4..] == y[1..];
        assert x == [x[0]] + x[1..] && y == [y[0]] + y[1..];
      }
    }
  }

  /** A caller handed to a mailbox finds a rule for it exactly when that extension's mailbox is configured. */
  lemma MailboxRuleIffConfigured(keys: seq<string>, digits: string, number: string)
    requires forall key :: key in keys ==> ValidKey(key)
    requires ExtensionDigits(digits) && (number == "" || NumberText(number))
    ensures var key := Key(digits, number);
            Dial(MailboxRules(keys), Mailbox(key)) == (if key in keys then Some(LeaveMessage(Mailbox(key))) else None)
  {
    hide Key, Mailbox, ExtensionDigits, NumberText;
    var key, rules := Key(digits, number), MailboxRules(keys);
    BestAnswers(rules, Mailbox(key));
    if key in keys {
      var i :| 0 <= i < |keys| && keys[i] == key;
      assert rules[i] in rules;
    } else {
      forall rule | rule in rules ensures !Matches(rule.exten, Mailbox(key)) {
        var i :| 0 <= i < |rules| && rules[i] == rule;
        assert keys[i] in keys;
        var b, y :| ExtensionDigits(b) && (y == "" || NumberText(y)) && keys[i] == Key(b, y);
        MailboxesDiffer(digits, number, b, y);
      }
    }
  }
}
