/** Compiling the number and extension tables into the contexts that Asterisk dials in. */
module DialPlan {
  import opened Wrappers
  import opened ExtensionKeys
  import opened DialRules
  import opened Directory

  /** The tables a render reads, and the two lookups that live elsewhere: a customer's fallback and a flow's anchor. */
  datatype Tables = Tables(
    extensions: seq<Extension>, numbers: seq<Number>, platformFallback: string, defaultExtension: string,
    fallbackOf: nat -> string, anchorOf: string -> string)

  function Active(t: Tables): seq<Number> { ActiveOf(t.numbers) }

  function ActiveOf(numbers: seq<Number>): seq<Number> {
    if numbers == [] then [] else (if numbers[0].active then [numbers[0]] else []) + ActiveOf(numbers[1..])
  }

  /** The active extensions of one line. */
  function Dialable(rows: seq<Extension>, number: string): seq<Extension> {
    if rows == [] then []
    else (if rows[0].active && rows[0].number == number then [rows[0]] else []) + Dialable(rows[1..], number)
  }

  /** The extension that answers these digits on this line. */
  function KeyFor(rows: seq<Extension>, number: string, value: string): Option<string> {
    if rows == [] then None
    else if rows[0].active && rows[0].number == number && rows[0].digits == Digits(value) then Some(rows[0].key)
    else KeyFor(rows[1..], number, value)
  }

  /** An operator's last resort counts only as digits. */
  function FallbackDigits(configured: string): string {
    if AllDigits(Digits(configured)) then Digits(configured) else ""
  }

  /** The values tried, in order, for the extension that answers a number. */
  function Candidates(t: Tables, m: Number): seq<string> {
    [m.inbound] + (if m.owner.Some? then [t.fallbackOf(m.owner.value)] else []) + [FallbackDigits(t.platformFallback)]
  }

  function FirstKey(rows: seq<Extension>, number: string, candidates: seq<string>): Option<string> {
    if candidates == [] then None
    else match KeyFor(rows, number, candidates[0])
      case Some(key) => Some(key)
      case None => FirstKey(rows, number, candidates[1..])
  }

  /** The extension that answers when a number is called, from inside or from the carrier. */
  function NumberExtension(t: Tables, m: Number): Option<string> {
    match FirstKey(t.extensions, m.number, Candidates(t, m))
    case Some(key) => Some(key)
    case None => if t.anchorOf(m.number) == "" then None else Some(t.anchorOf(m.number))
  }

  function Answer(t: Tables, m: Number): Action {
    match NumberExtension(t, m)
    case Some(key) => Ring(key)
    case None => NoService
  }

  /** A full number as it is dialled, with or without its plus sign. */
  function Dialled(m: Number, plus: bool): string { (if plus then "+" else "") + OnlyDigits(m.number) }

  function Star(m: Number, plus: bool, digits: string): string { Dialled(m, plus) + "*" + digits }

  // ---------------------------------------------------------------- rules

  function ExtensionRules(rows: seq<Extension>): (r: seq<Rule>)
    ensures |r| == |rows|
    ensures forall i :: 0 <= i < |r| ==> r[i] == Rule(Exact(rows[i].digits), Ring(rows[i].key))
  {
    seq(|rows|, i requires 0 <= i < |rows| => Rule(Exact(rows[i].digits), Ring(rows[i].key)))
  }

  function StarRules(m: Number, plus: bool, rows: seq<Extension>): (r: seq<Rule>)
    ensures |r| == |rows|
    ensures forall i :: 0 <= i < |r| ==> r[i] == Rule(Exact(Star(m, plus, rows[i].digits)), Ring(rows[i].key))
  {
    seq(|rows|, i requires 0 <= i < |rows| => Rule(Exact(Star(m, plus, rows[i].digits)), Ring(rows[i].key)))
  }

  /** The number, a star, a digit and at least one character more. */
  function StarPattern(m: Number, plus: bool): Exten { Pattern(Literal(Dialled(m, plus) + "*") + [AnyDigit, Rest]) }

  /** One number under one spelling: what it answers with, and its extensions for its own account only. */
  function NumberRules(t: Tables, m: Number, plus: bool, same: bool): seq<Rule> {
    [Rule(Exact(Dialled(m, plus)), Answer(t, m))] +
    if same then StarRules(m, plus, Dialable(t.extensions, m.number)) else [Rule(StarPattern(m, plus), NoService)]
  }

  function Routes(t: Tables, numbers: seq<Number>, owner: Option<nat>): seq<Rule> {
    if numbers == [] then []
    else
      var m, same := numbers[0], numbers[0].owner == owner;
      NumberRules(t, m, false, same) + NumberRules(t, m, true, same) + Routes(t, numbers[1..], owner)
  }

  const LOGIN: Rule := Rule(Exact("*97"), VoicemailLogin)
  const UNKNOWN: Rule := Rule(Pattern([AnyDigit, AnyDigit, AnyDigit]), NoService)
  const OUT_PLUS: Rule := Rule(Pattern([Lit('+'), AnyDigit, Rest]), Trunk)
  const OUT_DIGITS: Rule := Rule(Pattern([AnyDigit, AnyDigit, AnyDigit, AnyDigit, Rest]), Trunk)

  /** A context: the login, its own devices, every platform number, then what is left over. */
  function ContextOf(t: Tables, rows: seq<Extension>, owner: Option<nat>): seq<Rule> {
    [LOGIN] + ExtensionRules(rows) + Routes(t, Active(t), owner) + [UNKNOWN, OUT_PLUS, OUT_DIGITS]
  }

  /** The context of one active number. */
  function Context(t: Tables, n: Number): seq<Rule> { ContextOf(t, Dialable(t.extensions, n.number), n.owner) }

  /** The platform's own devices: no line and no customer. */
  function Internal(t: Tables): seq<Rule> { ContextOf(t, Ownerless(Dialable(t.extensions, "")), None) }

  function Ownerless(rows: seq<Extension>): seq<Extension> {
    if rows == [] then [] else (if rows[0].owner.None? then [rows[0]] else []) + Ownerless(rows[1..])
  }

  /** What the carrier delivers: each number, under both spellings, enters the application with its extension. */
  function Provider(t: Tables, numbers: seq<Number>): seq<Rule> {
    if numbers == [] then []
    else ProviderRules(t, numbers[0], false) + ProviderRules(t, numbers[0], true) + Provider(t, numbers[1..])
  }

  function ProviderRules(t: Tables, m: Number, plus: bool): seq<Rule> {
    [Rule(Exact(Dialled(m, plus)), match NumberExtension(t, m)
       case Some(key) => Application(Dialled(m, plus), key)
       case None => NoService)]
  }

  function FromProvider(t: Tables): seq<Rule> {
    Provider(t, Active(t)) + [Rule(Exact("s"), match KeyForOwnerless(t.extensions, FallbackDigits(t.defaultExtension))
       case Some(key) => Ring(key)
       case None => NoService)]
  }

  function KeyForOwnerless(rows: seq<Extension>, digits: string): Option<string> {
    if rows == [] then None
    else if rows[0].active && rows[0].number == "" && rows[0].owner.None? && rows[0].digits == digits then Some(rows[0].key)
    else KeyForOwnerless(rows[1..], digits)
  }

  /** One rule per mailbox of the configured extensions. */
  function MailboxRules(keys: seq<string>): (r: seq<Rule>)
    ensures |r| == |keys|
    ensures forall i :: 0 <= i < |r| ==> r[i] == Rule(Exact(Mailbox(keys[i])), LeaveMessage(Mailbox(keys[i])))
  {
    seq(|keys|, i requires 0 <= i < |keys| => Rule(Exact(Mailbox(keys[i])), LeaveMessage(Mailbox(keys[i]))))
  }

  // ---------------------------------------------------------------- what the tables guarantee

  /** A platform number: a plus sign and seven to fifteen digits. */
  predicate NumberText(s: string) { 8 <= |s| <= 16 && s[0] == '+' && AllDigits(s[1..]) }

  predicate ExtensionDigits(s: string) { |s| == 3 && AllDigits(s) }

  predicate Valid(t: Tables) {
    && (forall m :: m in t.numbers ==> NumberText(m.number))
    && (forall i, j :: 0 <= i < j < |t.numbers| ==> t.numbers[i].number != t.numbers[j].number)
    && (forall e :: e in t.extensions ==> ExtensionDigits(e.digits))
    && (forall i, j :: 0 <= i < j < |t.extensions| ==>
          t.extensions[i].number != t.extensions[j].number || t.extensions[i].digits != t.extensions[j].digits)
  }
}
