/** Extension keys: the digits a person dials, `@`, and the phone number they belong to. */
module ExtensionKeys {

  /** The part before the first `@`: what a person dials. */
  function Digits(key: string): string {
    if key == "" || key[0] == '@' then "" else [key[0]] + Digits(key[1..])
  }

  /** The part after the first `@`: the number the extension belongs to, or nothing. */
  function Scope(key: string): string {
    if key == "" then "" else if key[0] == '@' then key[1..] else Scope(key[1..])
  }

  function Key(digits: string, scope: string): string {
    if scope == "" then Digits(digits) else Digits(digits) + "@" + scope
  }

  predicate IsDigit(c: char) { '0' <= c <= '9' }

  /** Python's `str.isdigit` on the characters a telephone sends: non-empty and decimal throughout. */
  predicate AllDigits(s: string) { s != "" && forall i :: 0 <= i < |s| ==> IsDigit(s[i]) }

  /** Every character that is not a decimal digit removed. */
  function OnlyDigits(s: string): (r: string)
    ensures forall i :: 0 <= i < |r| ==> IsDigit(r[i])
    ensures |r| <= |s|
  {
    if s == "" then "" else (if IsDigit(s[0]) then [s[0]] else []) + OnlyDigits(s[1..])
  }

  /** The mailbox of an extension: digits and line, joined so that the name is safe in a file path. */
  function Mailbox(key: string): string {
    if Scope(key) == "" then Digits(key) else Digits(key) + "-" + OnlyDigits(Scope(key))
  }

  predicate Plain(s: string) { forall i :: 0 <= i < |s| ==> s[i] != '@' }

  /** A key splits into exactly the digits and the scope it was built from. */
  lemma KeySplits(digits: string, scope: string)
    requires Plain(digits)
    ensures Digits(Key(digits, scope)) == digits
    ensures Scope(Key(digits, scope)) == scope
  {
    hide Digits, Scope;
    DigitsOfPlain(digits);
    SplitsAtTheFirst(digits, scope);
  }

  lemma {:induction false} SplitsAtTheFirst(digits: string, scope: string)
    requires Plain(digits)
    ensures Digits(digits + "@" + scope) == digits && Scope(digits + "@" + scope) == scope
  {
    var key := digits + "@" + scope;
    if digits == "" {
      assert key[0] == '@' && key[1..] == scope;
    } else {
      SplitsAtTheFirst(digits[1..], scope);
      assert key[0] == digits[0] && key[1..] == digits[1..] + "@" + scope;
      assert [digits[0]] + digits[1..] == digits;
    }
  }

  /** Digits that are only digits are untouched by the filter. */
  lemma {:induction false} OnlyDigitsKeeps(s: string)
    requires forall i :: 0 <= i < |s| ==> IsDigit(s[i])
    ensures OnlyDigits(s) == s
  {
    if s != "" { OnlyDigitsKeeps(s[1..]); }
  }

  lemma {:induction false} DigitsOfPlain(s: string)
    requires Plain(s)
    ensures Digits(s) == s && Scope(s) == ""
  {
    if s != "" { DigitsOfPlain(s[1..]); }
  }
}
