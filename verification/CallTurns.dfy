/** What each turn of a menu does to the call: the settings it opens with, and where a digit or the clock takes its caller. */
module CallTurns {
  import opened Wrappers
  import opened CallRecords
  import opened CallSteps
  import opened CallInvariants
  import opened CallLaws
  import opened CallOutcomes
  import opened ExtensionKeys
  import IvrMenu
  import IvrTiming

  // ---------------------------------------------------------------- opening

  /**
   * A menu opens with the mappings and extensions of its journey, two attempts unless the journey says how many,
   * and six seconds to answer unless it says how long, but never less than two.
   */
  lemma MenuOpensWith(s: State, w: World, id: CallId, channel: Channel, plan: Plan)
    requires id in s.core.calls
    ensures channel in OpenMenu(s, w, id, channel, plan).sessions
    ensures var c, t := s.core.calls[id], OpenMenu(s, w, id, channel, plan);
            var m := t.sessions[channel];
            && m.call == id && m.extension == c.extension && m.number == c.number && m.plan == plan
            && m.menu.keyMap == plan.keyMap && m.menu.keys == plan.extensions
            && m.menu.attempts == (if plan.attempts > 0 then plan.attempts else 2)
            && m.menu.timeout == (if plan.timeout == 0 then 6000 else if plan.timeout == 1 then 2000 else plan.timeout * 1000)
            && m.state == IvrMenu.Session("", 0, w.now + m.menu.timeout, None)
            && (forall other :: other in s.sessions && other != channel ==> other in t.sessions && t.sessions[other] == s.sessions[other])
  {
    hide PlayTo;
  }

  // ---------------------------------------------------------------- one turn

  /** The menu as digits are judged: without a list of its own it offers the extensions of the line at that moment. */
  function Judged(w: World, m: MenuSession): MenuSession {
    if m.menu.keyMap == map[] && m.menu.keys == []
    then MenuSession(m.call, m.extension, m.number, m.plan,
                     IvrMenu.Menu(m.menu.keyMap, w.offered(m.extension, m.number), m.menu.attempts, m.menu.timeout), m.state)
    else m
  }

  lemma FilledIsJudged(w: World, m: MenuSession)
    ensures Filled(w, m) == Judged(w, m)
  {}

  /** The prompt of an attempt is asked for after answering, and the stock one after it when it cannot be played. */
  predicate Plays(w: World, before: seq<Request>, after: seq<Request>, channel: Channel, attempt: nat) {
    var prompt, stock := PlayPrompt(channel, attempt, false), PlayPrompt(channel, attempt, true);
    after == before + [Answer(channel), prompt] + if w.reply(|before| + 1, prompt).Done? then [] else [stock]
  }

  /**
   * Where a turn leaves the caller: listening on, asked again, on the way to the extension dialled, or on the way
   * to what the menu falls back to. Both ways out close the session and cut the prompt first.
   */
  predicate Turned(s: State, w: World, channel: Channel, m: MenuSession, outcome: IvrMenu.Outcome, r: Outcome)
    requires channel in s.sessions
  {
    var left := s.(sessions := s.sessions - {channel}, log := s.log + [StopPrompt(m.call, m.state.tries)]);
    match outcome
    case Open(next) => r == Outcome(s.(sessions := s.sessions[channel := m.(state := next)]), true)
    case Prompted(next) =>
      && r.ok && r.state == s.(sessions := s.sessions[channel := m.(state := next)], log := r.state.log)
      && Plays(w, s.log, r.state.log, channel, next.tries)
    case Dialled(key) => r == DialChosen(left, w, m, key)
    case GaveUp(_) => r == NoChoice(left, w, m)
  }

  lemma ConcludeTurns(s: State, w: World, channel: Channel, m: MenuSession, outcome: IvrMenu.Outcome)
    requires channel in s.sessions
    ensures Turned(s, w, channel, m, outcome, Conclude(s, w, channel, m, outcome))
  {
    hide DialChosen, NoChoice;
    if outcome.Prompted? {
      assert s.log + [Answer(channel)] + [PlayPrompt(channel, outcome.session.tries, false)] == s.log + [Answer(channel), PlayPrompt(channel, outcome.session.tries, false)];
    }
  }

  /** A key that is no digit, or one on a channel without a menu, does nothing; a digit is one press of the caller's menu. */
  lemma DigitTurns(s: State, w: World, channel: Channel, digit: string)
    ensures var r := Handle(s, w, Dtmf(channel, digit));
            if channel !in s.sessions || !AllDigits(digit) then r == Outcome(s, true)
            else
              var m := Judged(w, s.sessions[channel]);
              Turned(s, w, channel, m, IvrMenu.Press(m.menu, m.state, digit, w.now), r)
  {
    hide Conclude, Turned, Filled, Judged, IvrMenu.Press;
    if channel in s.sessions && AllDigits(digit) {
      var m := Filled(w, s.sessions[channel]);
      FilledIsJudged(w, s.sessions[channel]);
      ConcludeTurns(s, w, channel, m, IvrMenu.Press(m.menu, m.state, digit, w.now));
      assert Handle(s, w, Dtmf(channel, digit)) == PressDigit(s, w, channel, digit);
    }
  }

  /** The clock moves one waiting caller along exactly when that caller's menu is due. */
  lemma ClockTurns(s: State, w: World, channel: Channel)
    ensures var r := TickOne(s, w, channel);
            if channel !in s.sessions then r == Outcome(s, true)
            else
              var kept := s.sessions[channel];
              var due := w.now >= kept.state.deadline || (kept.state.resolveAfter.Some? && w.now >= kept.state.resolveAfter.value);
              if !due then r == Outcome(s, true)
              else
                var m := if kept.state.digits == "" then kept else Judged(w, kept);
                Turned(s, w, channel, m, IvrMenu.Tick(m.menu, m.state, w.now), r)
  {
    hide Conclude, Turned, Filled, Judged, IvrMenu.Tick;
    if channel in s.sessions && IvrMenu.Due(s.sessions[channel].state, w.now) {
      var kept := s.sessions[channel];
      FilledIsJudged(w, kept);
      var m := if kept.state.digits == "" then kept else Filled(w, kept);
      ConcludeTurns(s, w, channel, m, IvrMenu.Tick(m.menu, m.state, w.now));
    }
  }

  /** The worker's clock goes over the waiting callers one after the other, until Asterisk cannot be reached. */
  lemma {:induction false} ClockGoesOn(s: State, w: World, first: seq<Channel>, rest: seq<Channel>)
    ensures var r := TickEach(s, w, first);
            && TickEach(s, w, first + rest) == (if r.ok then TickEach(r.state, w, rest) else r)
            && (w.waiting == first + rest ==> Handle(s, w, MenuClock) == if r.ok then TickEach(r.state, w, rest) else r)
    ensures TickEach(s, w, []) == Outcome(s, true)
    ensures |first| == 1 ==> TickEach(s, w, first) == TickOne(s, w, first[0])
    decreases |first|
  {
    hide TickOne;
    if first == [] {
      assert first + rest == rest;
    } else {
      var moved := TickOne(s, w, first[0]);
      assert (first + rest)[0] == first[0] && (first + rest)[1..] == first[1..] + rest;
      if moved.ok { ClockGoesOn(moved.state, w, first[1..], rest); }
      if |first| == 1 { assert first[1..] == []; }
    }
  }
}
