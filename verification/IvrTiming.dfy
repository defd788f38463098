/** When a menu decides: at once, when the pause after a digit is over, or when the caller stays silent. */
module IvrTiming {
  import opened Wrappers
  import opened ExtensionKeys
  import opened IvrMenu

  // ---------------------------------------------------------------- what digits come to

  /** This one begins with the digits, and no other does. */
  predicate Alone(offered: seq<string>, digits: string, i: int) {
    0 <= i < |offered| && StartsWith(offered[i], digits) && forall j :: 0 <= j < |offered| && j != i ==> !StartsWith(offered[j], digits)
  }

  lemma {:induction false} OneCandidate(offered: seq<string>, digits: string)
    ensures |Candidates(offered, digits)| == 1 <==> exists i :: Alone(offered, digits, i)
  {
    if offered != [] {
      hide StartsWith;
      var rest := offered[1..];
      OneCandidate(rest, digits);
      CandidateExists(rest, digits);
      assert forall j :: 0 <= j < |rest| ==> rest[j] == offered[j + 1];
      if i :| Alone(offered, digits, i) {
        if i > 0 { assert Alone(rest, digits, i - 1); }
      }
      if StartsWith(offered[0], digits) {
        if Candidates(rest, digits) == [] { AloneFirst(offered, digits); }
      } else if i :| Alone(rest, digits, i) {
        assert Alone(offered, digits, i + 1);
      }
    }
  }

  lemma AloneFirst(offered: seq<string>, digits: string)
    requires offered != [] && StartsWith(offered[0], digits) && forall i :: 0 <= i < |offered| - 1 ==> !StartsWith(offered[1..][i], digits)
    ensures Alone(offered, digits, 0)
  {
    assert forall j :: 0 < j < |offered| ==> offered[j] == offered[1..][j - 1];
  }

  lemma {:induction false} LongestMeans(offered: seq<string>, n: nat)
    ensures n >= Longest(offered) <==> forall i :: 0 <= i < |offered| ==> |offered[i]| <= n
  {
    if offered != [] {
      LongestMeans(offered[1..], n);
      assert forall i :: 0 < i < |offered| ==> offered[i] == offered[1..][i - 1];
    }
  }

  /**
   * Offered digits are dialled at once exactly when no other key begins with them, or when no key is longer;
   * otherwise the menu waits for the caller to go on.
   */
  lemma DialsAtOnceIff(menu: Menu, digits: string)
    requires |menu.keyMap| == 0 && digits != "" && digits in Offered(menu.keys)
    ensures Judge(menu, digits, false).Dial? || Judge(menu, digits, false).Wait?
    ensures Judge(menu, digits, false).Dial? <==>
              || (exists i :: Alone(Offered(menu.keys), digits, i))
              || forall i :: 0 <= i < |menu.keys| ==> |Digits(menu.keys[i])| <= |digits|
  {
    hide Candidates, Longest, Digits, FirstWith, Alone, StartsWith;
    var offered := Offered(menu.keys);
    OneCandidate(offered, digits);
    LongestMeans(offered, |digits|);
    CandidateExists(offered, digits);
    var i :| 0 <= i < |offered| && offered[i] == digits;
    assert StartsWith(offered[i], digits) by { ItsOwnStart(digits); }
    assert forall k :: 0 <= k < |offered| ==> offered[k] == Digits(menu.keys[k]);
  }

  lemma ItsOwnStart(digits: string)
    ensures StartsWith(digits, digits)
  {}

  /** A menu with mapped digits dials what is mapped at once, waits while a mapped one can still come, and asks again otherwise. */
  lemma MappedVerdict(menu: Menu, digits: string)
    requires |menu.keyMap| > 0 && digits != ""
    ensures Judge(menu, digits, false) ==
              if digits in menu.keyMap then Dial(menu.keyMap[digits])
              else if exists key :: key in menu.keyMap && |digits| <= |key| && key[..|digits|] == digits then Wait
              else Retry
  {}

  // ---------------------------------------------------------------- after a digit

  /** What was typed so far: the first six digits of it. */
  function Typed(session: Session, digit: string): (r: string)
    ensures |r| <= 6 && r <= session.digits + digit
    ensures |session.digits + digit| <= 6 ==> r == session.digits + digit
    ensures |session.digits + digit| > 6 ==> |r| == 6
  {
    var all := session.digits + digit;
    if |all| <= 6 then all else all[..6]
  }

  /**
   * A digit is added to what was typed, of which the first six count. A menu that waits gives 1.4 seconds for the
   * next one and leaves the prompt's own clock alone; a menu that asks again forgets the digits and starts the
   * clock of the next attempt; one that gives up has no attempt left.
   */
  lemma PressMeans(menu: Menu, session: Session, digit: string, now: nat)
    requires Sound(menu, session) && AllDigits(digit)
    ensures match Press(menu, session, digit, now)
            case Open(next) => next == Session(Typed(session, digit), session.tries, session.deadline, Some(now + 1400)) && Judge(menu, next.digits, false).Wait?
            case Prompted(next) => next == Session("", session.tries + 1, now + menu.timeout, None) && Judge(menu, Typed(session, digit), false).Retry?
            case Dialled(key) => Judge(menu, Typed(session, digit), false) == Dial(key)
            case GaveUp(typed) => typed == Typed(session, digit) && session.tries + 1 == menu.attempts && Judge(menu, typed, false).Retry?
  {
    hide Judge;
    assert Judge(menu, Typed(session, digit), false) != Nothing by { NothingIsTyped(menu, Typed(session, digit), false); }
  }

  lemma NothingIsTyped(menu: Menu, digits: string, final: bool)
    ensures Judge(menu, digits, final).Nothing? <==> digits == ""
  {}

  /** The key the menu has for these digits: the mapped target, or its first key with them. */
  predicate Means(menu: Menu, digits: string, key: string) {
    if |menu.keyMap| > 0 then digits in menu.keyMap && menu.keyMap[digits] == key
    else exists i: nat :: i < |menu.keys| && FirstAt(menu.keys, digits, i) && menu.keys[i] == key
  }

  lemma FinalDial(menu: Menu, digits: string)
    requires digits != ""
    ensures forall key :: Judge(menu, digits, true) == Dial(key) <==> Means(menu, digits, key)
    ensures !Judge(menu, digits, true).Dial? ==> Judge(menu, digits, true).Retry?
  {
    FirstWithFinds(menu.keys, digits);
    FoundIsOffered(menu.keys, digits);
  }

  /**
   * The clock leaves a caller alone until the pause after the last digit or the prompt's own time is over. Then
   * the digits typed decide for good: the key they mean is dialled, and without one, or without any digit, the
   * next attempt starts or the menu gives up.
   */
  lemma ClockDecides(menu: Menu, session: Session, at: nat)
    requires Sound(menu, session)
    ensures var due := at >= session.deadline || (session.resolveAfter.Some? && at >= session.resolveAfter.value);
            match Tick(menu, session, at)
            case Open(next) => !due && next == session
            case Dialled(key) => due && session.digits != "" && Means(menu, session.digits, key)
            case Prompted(next) =>
              && due && (forall key :: !(session.digits != "" && Means(menu, session.digits, key)))
              && session.tries + 1 < menu.attempts && next == Session("", session.tries + 1, at + menu.timeout, None)
            case GaveUp(typed) =>
              && due && (forall key :: !(session.digits != "" && Means(menu, session.digits, key)))
              && session.tries + 1 == menu.attempts && typed == session.digits
  {
    hide Judge, Means;
    if session.digits != "" { FinalDial(menu, session.digits); }
  }

  // ---------------------------------------------------------------- a silent caller

  /** Nobody types anything. */
  predicate Silent(inputs: seq<Input>) { forall i :: 0 <= i < |inputs| ==> inputs[i].Clock? }

  /** Each prompt a silent caller hears has its full time, however often the clock runs. */
  lemma {:induction false} SilentPromptsLast(menu: Menu, session: Session, inputs: seq<Input>)
    requires Sound(menu, session) && session.digits == "" && Silent(inputs)
    ensures match Run(menu, session, inputs)
            case Open(last) => last.digits == "" && last.deadline >= session.deadline + Replays(menu, session, inputs) * menu.timeout
            case Dialled(_) => false
            case GaveUp(_) => true
            case Prompted(_) => false
    decreases |inputs|
  {
    if inputs != [] {
      hide Judge;
      ClockDecides(menu, session, inputs[0].at);
      StepKeepsSound(menu, session, inputs[0]);
      match Step(menu, session, inputs[0])
      case Open(next) => SilentPromptsLast(menu, next, inputs[1..]);
      case Prompted(next) =>
        SilentPromptsLast(menu, next, inputs[1..]);
        assert (1 + Replays(menu, next, inputs[1..])) * menu.timeout == menu.timeout + Replays(menu, next, inputs[1..]) * menu.timeout;
      case _ =>
    }
  }
}
