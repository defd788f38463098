/** The menu that asks a caller for an extension: what the digits typed so far mean, and how many times it asks. */
module IvrMenu {
  import opened Wrappers
  import opened ExtensionKeys

  /** Milliseconds a caller has for the next digit once what was typed could still grow. */
  const INTERDIGIT: nat := 1400
  const MAX_DIGITS: nat := 6

  /** What one line's menu offers: single-key mappings, or the extension keys a caller may type. */
  datatype Menu = Menu(keyMap: map<string, string>, keys: seq<string>, attempts: nat, timeout: nat)

  /** One caller listening to the prompt. */
  datatype Session = Session(digits: string, tries: nat, deadline: nat, resolveAfter: Option<nat>)

  datatype Verdict = Nothing | Wait | Dial(key: string) | Retry

  /** What one input did to a session: left it open, played the prompt again, or closed it. */
  datatype Outcome = Open(session: Session) | Prompted(session: Session) | Dialled(key: string) | GaveUp(typed: string)

  predicate StartsWith(s: string, prefix: string) { |prefix| <= |s| && s[..|prefix|] == prefix }

  /** The digits a caller may type, in the menu's order. */
  function Offered(keys: seq<string>): (r: seq<string>)
    ensures |r| == |keys|
    ensures forall i :: 0 <= i < |r| ==> r[i] == Digits(keys[i])
  {
    seq(|keys|, i requires 0 <= i < |keys| => Digits(keys[i]))
  }

  function Candidates(offered: seq<string>, digits: string): seq<string> {
    if offered == [] then []
    else (if StartsWith(offered[0], digits) then [offered[0]] else []) + Candidates(offered[1..], digits)
  }

  function Longest(offered: seq<string>): nat {
    if offered == [] then 0
    else var rest := Longest(offered[1..]); if |offered[0]| > rest then |offered[0]| else rest
  }

  /** The first key whose digits are these. */
  function FirstWith(keys: seq<string>, digits: string): Option<string> {
    if keys == [] then None
    else if Digits(keys[0]) == digits then Some(keys[0])
    else FirstWith(keys[1..], digits)
  }

  /** What the digits collected so far mean; `final` when the caller has stopped typing. */
  function Judge(menu: Menu, digits: string, final: bool): Verdict {
    if digits == "" then Nothing
    else if |menu.keyMap| > 0 then
      if digits in menu.keyMap then Dial(menu.keyMap[digits])
      else if !final && exists key :: key in menu.keyMap && StartsWith(key, digits) then Wait
      else Retry
    else
      var offered := Offered(menu.keys);
      var candidates := Candidates(offered, digits);
      if digits in offered && (|candidates| == 1 || final || |digits| >= Longest(offered)) then
        Dial(FirstWith(menu.keys, digits).GetOr(digits))
      else if candidates != [] && !final then Wait
      else Retry
  }

  /** Play the prompt: this attempt's clock starts and nothing is pending. */
  function Prompt(menu: Menu, session: Session, now: nat): Session {
    session.(deadline := now + menu.timeout, resolveAfter := None)
  }

  /** Nothing valid was entered: ask again while an attempt is left. */
  function Again(menu: Menu, session: Session, now: nat): Outcome {
    if session.tries + 1 < menu.attempts
    then Prompted(Prompt(menu, session.(tries := session.tries + 1, digits := ""), now))
    else GaveUp(session.digits)
  }

  function Resolve(menu: Menu, session: Session, final: bool, now: nat): Outcome {
    match Judge(menu, session.digits, final)
    case Nothing => Open(session)
    case Wait => Open(session.(resolveAfter := Some(now + INTERDIGIT)))
    case Dial(key) => Dialled(key)
    case Retry => Again(menu, session, now)
  }

  function Press(menu: Menu, session: Session, digit: string, now: nat): Outcome {
    if !AllDigits(digit) then Open(session)
    else
      var typed := session.digits + digit;
      Resolve(menu, session.(digits := if |typed| > MAX_DIGITS then typed[..MAX_DIGITS] else typed), false, now)
  }

  predicate Resolvable(session: Session, now: nat) {
    session.resolveAfter.Some? && now >= session.resolveAfter.value
  }

  /** The worker's clock has something to do for this caller. */
  predicate Due(session: Session, now: nat) { Resolvable(session, now) || now >= session.deadline }

  function Tick(menu: Menu, session: Session, now: nat): Outcome {
    if !Due(session, now) then Open(session)
    else if Resolvable(session, now) || session.digits != "" then Resolve(menu, session, true, now)
    else Again(menu, session, now)
  }

  // ---------------------------------------------------------------- runs

  datatype Input = Pressed(digit: string, at: nat) | Clock(at: nat)

  function Step(menu: Menu, session: Session, input: Input): Outcome {
    match input
    case Pressed(digit, at) => Press(menu, session, digit, at)
    case Clock(at) => Tick(menu, session, at)
  }

  /** Where a whole run of inputs ends: what follows a closing input is not for this session. */
  function Run(menu: Menu, session: Session, inputs: seq<Input>): Outcome
    decreases |inputs|
  {
    if inputs == [] then Open(session)
    else match Step(menu, session, inputs[0])
      case Open(next) => Run(menu, next, inputs[1..])
      case Prompted(next) => Run(menu, next, inputs[1..])
      case closed => closed
  }

  /** How often the run plays the prompt after the one the session opened with. */
  function Replays(menu: Menu, session: Session, inputs: seq<Input>): nat
    decreases |inputs|
  {
    if inputs == [] then 0
    else match Step(menu, session, inputs[0])
      case Open(next) => Replays(menu, next, inputs[1..])
      case Prompted(next) => 1 + Replays(menu, next, inputs[1..])
      case _ => 0
  }

  /** How often the clock found this caller due. */
  function DueTicks(menu: Menu, session: Session, inputs: seq<Input>): nat
    decreases |inputs|
  {
    if inputs == [] then 0
    else
      (if inputs[0].Clock? && Due(session, inputs[0].at) then 1 else 0) +
      match Step(menu, session, inputs[0])
      case Open(next) => DueTicks(menu, next, inputs[1..])
      case Prompted(next) => DueTicks(menu, next, inputs[1..])
      case _ => 0
  }

  /** What holds of every session a caller is in. */
  predicate Sound(menu: Menu, session: Session) {
    && session.tries < menu.attempts
    && |session.digits| <= MAX_DIGITS
    && (session.resolveAfter.Some? ==> session.digits != "")
  }

  /** The session a menu opens with, its first prompt playing. */
  function Opened(menu: Menu, now: nat): Session {
    Prompt(menu, Session("", 0, 0, None), now)
  }

  // ---------------------------------------------------------------- the verdict

  lemma {:induction false} CandidateExists(offered: seq<string>, digits: string)
    ensures Candidates(offered, digits) != [] <==> exists i :: 0 <= i < |offered| && StartsWith(offered[i], digits)
  {
    if offered != [] {
      CandidateExists(offered[1..], digits);
      if i :| 0 <= i < |offered[1..]| && StartsWith(offered[1..][i], digits) { assert offered[i + 1] == offered[1..][i]; }
      if i :| 0 <= i < |offered| && StartsWith(offered[i], digits) {
        if i > 0 { assert offered[1..][i - 1] == offered[i]; }
      }
    }
  }

  lemma {:induction false} LongestIsUniform(offered: seq<string>, length: nat)
    requires offered != [] && forall i :: 0 <= i < |offered| ==> |offered[i]| == length
    ensures Longest(offered) == length
  {
    if |offered| > 1 {
      assert forall i :: 0 <= i < |offered[1..]| ==> offered[1..][i] == offered[i + 1];
      LongestIsUniform(offered[1..], length);
    } else {
      assert offered[1..] == [];
    }
  }

  /** The key is offered with these digits, and nothing before it is. */
  predicate FirstAt(keys: seq<string>, digits: string, i: nat) {
    i < |keys| && Digits(keys[i]) == digits && forall j :: 0 <= j < i ==> Digits(keys[j]) != digits
  }

  lemma {:induction false} FirstWithFinds(keys: seq<string>, digits: string)
    ensures FirstWith(keys, digits).None? ==> digits !in Offered(keys)
    ensures FirstWith(keys, digits).Some? ==>
            exists i: nat :: FirstAt(keys, digits, i) && keys[i] == FirstWith(keys, digits).value
  {
    if keys != [] {
      hide Digits;
      FirstWithFinds(keys[1..], digits);
      assert Offered(keys) == [Digits(keys[0])] + Offered(keys[1..]);
      if Digits(keys[0]) == digits {
        assert FirstAt(keys, digits, 0);
      } else if FirstWith(keys, digits).Some? {
        var i: nat :| FirstAt(keys[1..], digits, i) && keys[1..][i] == FirstWith(keys, digits).value;
        forall j | 0 <= j < i + 1 ensures Digits(keys[j]) != digits {
          if j > 0 { assert keys[1..][j - 1] == keys[j]; }
        }
        assert FirstAt(keys, digits, i + 1);
      }
    }
  }

  /** What is found is offered, and only what is offered is found. */
  lemma FoundIsOffered(keys: seq<string>, digits: string)
    ensures FirstWith(keys, digits).Some? <==> digits in Offered(keys)
    ensures FirstWith(keys, digits).Some? ==>
            FirstWith(keys, digits).value in keys && Digits(FirstWith(keys, digits).value) == digits
  {}

  /** Nothing is dialled that the menu does not offer: a mapped target, or one of its keys. */
  lemma OnlyOfferedKeys(menu: Menu, digits: string, final: bool)
    requires Judge(menu, digits, final).Dial?
    ensures var key := Judge(menu, digits, final).key;
            if |menu.keyMap| > 0 then digits in menu.keyMap && key == menu.keyMap[digits]
            else key in menu.keys && Digits(key) == digits
  {
    FoundIsOffered(menu.keys, digits);
  }

  /** Once the caller has stopped typing the menu decides: it dials exactly what it offers, and asks again otherwise. */
  lemma FinalVerdict(menu: Menu, digits: string)
    requires digits != ""
    ensures Judge(menu, digits, true).Dial? || Judge(menu, digits, true).Retry?
    ensures Judge(menu, digits, true).Dial? <==>
            if |menu.keyMap| > 0 then digits in menu.keyMap else digits in Offered(menu.keys)
  {}

  /** While the caller types, the menu waits exactly when what was typed can still grow into something it offers. */
  lemma WaitsWhileItCanGrow(menu: Menu, digits: string)
    requires |menu.keyMap| == 0 && digits != "" && digits !in Offered(menu.keys)
    ensures Judge(menu, digits, false).Wait? <==>
            exists i :: 0 <= i < |menu.keys| && StartsWith(Digits(menu.keys[i]), digits)
  {
    var offered := Offered(menu.keys);
    CandidateExists(offered, digits);
    if i :| 0 <= i < |offered| && StartsWith(offered[i], digits) { assert offered[i] == Digits(menu.keys[i]); }
    if i :| 0 <= i < |menu.keys| && StartsWith(Digits(menu.keys[i]), digits) { assert StartsWith(offered[i], digits); }
  }

  // ---------------------------------------------------------------- typing an extension

  /** A menu of extensions that all have the same number of digits. */
  predicate Uniform(menu: Menu, length: nat) {
    && |menu.keyMap| == 0
    && 1 <= length <= MAX_DIGITS
    && forall i :: 0 <= i < |menu.keys| ==> |Digits(menu.keys[i])| == length
  }

  /** The digits pressed, whatever the clock did in between. */
  function Spelled(inputs: seq<Input>): string {
    if inputs == [] then ""
    else match inputs[0]
      case Pressed(digit, _) => digit + Spelled(inputs[1..])
      case Clock(_) => Spelled(inputs[1..])
  }

  /** Every press is one digit. */
  predicate OneByOne(inputs: seq<Input>) {
    forall i :: 0 <= i < |inputs| && inputs[i].Pressed? ==> |inputs[i].digit| == 1 && IsDigit(inputs[i].digit[0])
  }

  /** The caller is quick enough: the clock never finds the session due. */
  predicate NeverDue(menu: Menu, session: Session, inputs: seq<Input>)
    decreases |inputs|
  {
    inputs != [] ==>
      && !(inputs[0].Clock? && Due(session, inputs[0].at))
      && match Step(menu, session, inputs[0])
         case Open(next) => NeverDue(menu, next, inputs[1..])
         case Prompted(next) => NeverDue(menu, next, inputs[1..])
         case _ => true
  }

  lemma JudgeUniform(menu: Menu, length: nat, digits: string)
    requires Uniform(menu, length) && 1 <= |digits| <= length
    ensures |digits| < length ==> !Judge(menu, digits, false).Dial? && !Judge(menu, digits, true).Dial?
    ensures |digits| < length && (exists i :: 0 <= i < |menu.keys| && StartsWith(Digits(menu.keys[i]), digits))
            ==> Judge(menu, digits, false).Wait?
    ensures |digits| == length ==>
            if digits in Offered(menu.keys) then Judge(menu, digits, false) == Dial(FirstWith(menu.keys, digits).GetOr(digits))
            else Judge(menu, digits, false).Retry?
  {
    var offered := Offered(menu.keys);
    CandidateExists(offered, digits);
    if offered != [] { LongestIsUniform(offered, length); }
    if |digits| == length && Candidates(offered, digits) != [] {
      var i :| 0 <= i < |offered| && StartsWith(offered[i], digits);
      assert offered[i] == digits;
    }
    if i :| 0 <= i < |menu.keys| && StartsWith(Digits(menu.keys[i]), digits) { assert StartsWith(offered[i], digits); }
  }

  lemma TicksDialNothing(menu: Menu, length: nat, session: Session, at: nat)
    requires Uniform(menu, length) && |session.digits| < length
    ensures match Tick(menu, session, at)
            case Open(next) => |next.digits| < length && next.digits == session.digits
            case Prompted(next) => next.digits == ""
            case Dialled(_) => false
            case GaveUp(_) => true
  {
    if session.digits != "" { JudgeUniform(menu, length, session.digits); }
  }

  /** Too few presses for a whole extension dial nothing, whatever the prompts and the clock in between. */
  lemma {:induction false} TooFewPresses(menu: Menu, length: nat, session: Session, inputs: seq<Input>)
    requires Uniform(menu, length) && OneByOne(inputs) && |session.digits| + |Spelled(inputs)| < length
    ensures !Run(menu, session, inputs).Dialled?
    decreases |inputs|
  {
    if inputs != [] {
      hide Judge, Uniform;
      match inputs[0] {
        case Clock(at) => TicksDialNothing(menu, length, session, at);
        case Pressed(digit, _) => PressOnTheWay(menu, length, session, digit, inputs[0].at);
      }
      match Step(menu, session, inputs[0])
      case Open(next) => TooFewPresses(menu, length, next, inputs[1..]);
      case Prompted(next) => TooFewPresses(menu, length, next, inputs[1..]);
      case _ =>
    }
  }

  /** A press short of a whole extension waits or asks again. */
  lemma PressOnTheWay(menu: Menu, length: nat, session: Session, digit: string, at: nat)
    requires Uniform(menu, length) && |digit| == 1 && IsDigit(digit[0]) && |session.digits| + 1 < length
    ensures match Press(menu, session, digit, at)
            case Open(next) => next.digits == session.digits + digit
            case Prompted(next) => next.digits == ""
            case Dialled(_) => false
            case GaveUp(_) => true
    ensures (exists i :: 0 <= i < |menu.keys| && StartsWith(Digits(menu.keys[i]), session.digits + digit))
            ==> Press(menu, session, digit, at).Open?
  {
    JudgeUniform(menu, length, session.digits + digit);
  }

  /** The last press of a whole extension dials it, or dials nothing. */
  lemma LastPress(menu: Menu, length: nat, session: Session, digit: string, at: nat)
    requires Uniform(menu, length) && |digit| == 1 && IsDigit(digit[0]) && |session.digits| + 1 == length
    ensures var word, r := session.digits + digit, Press(menu, session, digit, at);
            && (forall key :: r == Dialled(key) <==> FirstWith(menu.keys, word) == Some(key))
            && (r.Prompted? ==> r.session.digits == "") && !r.Open?
  {
    JudgeUniform(menu, length, session.digits + digit);
    FoundIsOffered(menu.keys, session.digits + digit);
  }

  /** While a member has the digits typed so far, the menu keeps waiting. */
  lemma MemberKeepsWaiting(menu: Menu, word: string, sofar: string)
    requires FirstWith(menu.keys, word).Some? && sofar <= word
    ensures exists i :: 0 <= i < |menu.keys| && StartsWith(Digits(menu.keys[i]), sofar)
  {
    FirstWithFinds(menu.keys, word);
    var i: nat :| FirstAt(menu.keys, word, i) && menu.keys[i] == FirstWith(menu.keys, word).value;
    assert StartsWith(Digits(menu.keys[i]), sofar);
  }

  lemma {:induction false} TypingOn(menu: Menu, length: nat, session: Session, inputs: seq<Input>, word: string)
    requires Uniform(menu, length) && OneByOne(inputs) && |word| == length && NeverDue(menu, session, inputs)
    requires session.digits + Spelled(inputs) == word && |session.digits| < length
    ensures forall key :: Run(menu, session, inputs) == Dialled(key) <==> FirstWith(menu.keys, word) == Some(key)
    decreases |inputs|
  {
    hide Judge, Uniform, Press, FirstWith, Resolve;
    if inputs != [] {
      var rest := inputs[1..];
      match inputs[0]
      case Clock(at) =>
        TypingOn(menu, length, session, rest, word);
      case Pressed(digit, at) =>
        var sofar := session.digits + digit;
        assert sofar + Spelled(rest) == word;
        var next := Press(menu, session, digit, at);
        if |sofar| == length {
          assert sofar == word;
          LastPress(menu, length, session, digit, at);
          if next.Prompted? { TooFewPresses(menu, length, next.session, rest); }
        } else {
          PressOnTheWay(menu, length, session, digit, at);
          if FirstWith(menu.keys, word).Some? { MemberKeepsWaiting(menu, word, sofar); }
          match next
          case Open(s) => TypingOn(menu, length, s, rest, word);
          case Prompted(s) => TooFewPresses(menu, length, s, rest);
          case _ =>
        }
    }
  }

  /**
   * Typing a number digit by digit, before the clock finds the caller due, dials exactly the menu's first key
   * with those digits, and nothing when the menu has none; the extensions only need to be of one length, as a
   * line's three digits are.
   */
  lemma TypingDialsExactly(menu: Menu, length: nat, session: Session, inputs: seq<Input>)
    requires Uniform(menu, length) && session.digits == ""
    requires OneByOne(inputs) && |Spelled(inputs)| == length && NeverDue(menu, session, inputs)
    ensures forall key :: Run(menu, session, inputs) == Dialled(key) <==> FirstWith(menu.keys, Spelled(inputs)) == Some(key)
  {
    assert session.digits + Spelled(inputs) == Spelled(inputs);
    TypingOn(menu, length, session, inputs, Spelled(inputs));
  }

  /** With one key per number, typing a member's digits dials that very member. */
  lemma EveryMemberIsReachable(menu: Menu, length: nat, session: Session, i: nat, inputs: seq<Input>)
    requires Uniform(menu, length) && session.digits == "" && i < |menu.keys|
    requires OneByOne(inputs) && Spelled(inputs) == Digits(menu.keys[i]) && NeverDue(menu, session, inputs)
    requires forall j :: 0 <= j < |menu.keys| && j != i ==> Digits(menu.keys[j]) != Digits(menu.keys[i])
    ensures Run(menu, session, inputs) == Dialled(menu.keys[i])
  {
    var word := Digits(menu.keys[i]);
    TypingDialsExactly(menu, length, session, inputs);
    FirstWithFinds(menu.keys, word);
    FoundIsOffered(menu.keys, word);
    assert Offered(menu.keys)[i] == word;
  }

  // ---------------------------------------------------------------- attempts

  /** Every step keeps a session sound, and only a replay moves its attempt counter. */
  lemma StepKeepsSound(menu: Menu, session: Session, input: Input)
    requires Sound(menu, session)
    ensures match Step(menu, session, input)
            case Open(next) => Sound(menu, next) && next.tries == session.tries
            case Prompted(next) => Sound(menu, next) && next.tries == session.tries + 1
            case _ => true
  {}

  /** When the clock finds a caller due, the caller is dialled or given up, or an attempt is used. */
  lemma DueTickMovesOn(menu: Menu, session: Session, at: nat)
    requires Sound(menu, session) && Due(session, at)
    ensures !Tick(menu, session, at).Open?
  {
    if session.digits != "" { FinalVerdict(menu, session.digits); }
  }

  /**
   * However a caller types and however long the line stays silent, one session plays its prompt at most
   * `attempts` times in all, and the clock moves it along at most `attempts` times.
   */
  lemma {:induction false} PromptsAreBounded(menu: Menu, session: Session, inputs: seq<Input>)
    requires Sound(menu, session)
    ensures session.tries + 1 + Replays(menu, session, inputs) <= menu.attempts
    ensures session.tries + DueTicks(menu, session, inputs) <= menu.attempts
    ensures match Run(menu, session, inputs)
            case Open(last) => Sound(menu, last) && last.tries == session.tries + Replays(menu, session, inputs)
            case Dialled(key) => key in menu.keys || key in menu.keyMap.Values
            case GaveUp(_) => session.tries + 1 + Replays(menu, session, inputs) == menu.attempts
            case Prompted(_) => false
    decreases |inputs|
  {
    if inputs != [] {
      hide Judge, Again;
      StepKeepsSound(menu, session, inputs[0]);
      if inputs[0].Clock? && Due(session, inputs[0].at) { DueTickMovesOn(menu, session, inputs[0].at); }
      StepCloses(menu, session, inputs[0]);
      match Step(menu, session, inputs[0])
      case Open(next) => PromptsAreBounded(menu, next, inputs[1..]);
      case Prompted(next) => PromptsAreBounded(menu, next, inputs[1..]);
      case _ =>
    }
  }

  /** A closing step dials something offered, or gives up with no attempt left. */
  lemma StepCloses(menu: Menu, session: Session, input: Input)
    requires Sound(menu, session)
    ensures match Step(menu, session, input)
            case Dialled(key) => key in menu.keys || key in menu.keyMap.Values
            case GaveUp(_) => session.tries + 1 == menu.attempts
            case _ => true
  {
    hide Judge;
    forall digits: string, final: bool | Judge(menu, digits, final).Dial?
      ensures Judge(menu, digits, final).key in menu.keys || Judge(menu, digits, final).key in menu.keyMap.Values
    {
      OnlyOfferedKeys(menu, digits, final);
      if |menu.keyMap| > 0 { MappedTarget(menu.keyMap, digits); }
    }
  }

  lemma MappedTarget(m: map<string, string>, key: string)
    requires key in m
    ensures m[key] in m.Values
  {}
}
