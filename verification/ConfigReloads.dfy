/** What the three plain reloads bring into a running Asterisk: endpoints, then voicemail, then the dial plan. */
module ConfigReloads {
  import opened Wrappers
  import opened ConfigSync

  /** What Asterisk has read of the endpoints is what is on disk, or a restart it has queued will read it. */
  predicate EndpointsCurrent(f: Files, pbx: Pbx) {
    match pbx
    case Down => true
    case Booting(l, k) => k > 1 ==> l.endpoints == f.endpoints
    case Up(l, queued) => queued || l.endpoints == f.endpoints
  }

  predicate VoicemailCurrent(f: Files, pbx: Pbx) {
    match pbx
    case Down => true
    case Booting(l, k) => k > 3 ==> l.voicemail == f.voicemail
    case Up(l, _) => l.voicemail == f.voicemail
  }

  /** A process between the plain reloads has brought in what came before. */
  predicate Progress(f: Files, pbx: Pbx, p: Process) {
    && (p.pc == ReloadingVoicemail || p.pc == ReloadingDialplan ==> EndpointsCurrent(f, pbx))
    && (p.pc == ReloadingDialplan ==> VoicemailCurrent(f, pbx))
  }

  ghost predicate Progressing(w: World) {
    w.lock.Some? && w.lock.value in w.processes ==> Progress(w.files, w.pbx, w.processes[w.lock.value])
  }

  /** Endpoints that only add to what is loaded are loaded whole. */
  lemma ReloadingEndpointsIsExact(f: Files, pbx: Pbx)
    requires pbx.Up? && NothingLost(f, pbx) && !Pending(f)
    ensures pbx.queued || pbx.loaded.endpoints + f.endpoints == f.endpoints
  {}

  lemma WorkProgresses(f: Files, pbx: Pbx, p: Process, render: Render, answer: Answer)
    requires NothingLost(f, pbx) && HolderKnows(f, pbx, p) && Progress(f, pbx, p) && Holds(p) && !IsBoot(p.pc)
    ensures var (f', pbx', p') := WorkStep(f, pbx, p, render, answer); Progress(f', pbx', p')
  {
    hide NothingLost, IceFor, RtpOwed, RestartOwed;
    if p.pc == ReloadingEndpoints && pbx.Up? { ReloadingEndpointsIsExact(f, pbx); }
  }

  lemma PbxProgresses(f: Files, pbx: Pbx, pbx': Pbx, p: Process)
    requires Progress(f, pbx, p)
    requires || pbx' == Down
             || pbx' == Booting(NOTHING, 0)
             || (pbx.Booting? && pbx.stage < 5 && pbx' == Booting(ReadStage(pbx.loaded, f, pbx.stage), pbx.stage + 1))
             || (pbx.Booting? && pbx.stage >= 5 && pbx' == Up(pbx.loaded, false))
    ensures Progress(f, pbx', p)
  {}

  lemma DoProgresses(w: World, a: Action)
    requires Inv(w) && Progressing(w) && Do(w, a, true).Some?
    ensures Progressing(Do(w, a, true).value)
  {
    hide NothingLost, HolderKnows, WorkStep, BootStep, ReadStage, Progress;
    var w' := Do(w, a, true).value;
    match a
    case Ask(id, onlyPending) => Uncommitted(w.files, w.pbx, w'.processes[id]);
    case Acquire(id) => Uncommitted(w.files, w.pbx, w'.processes[id]);
    case Work(id, render, answer) =>
      WorkProgresses(w.files, w.pbx, w.processes[id], render, answer) by { assert w.lock == Some(id); }
    case Stop(id) => Uncommitted(w.files, w.pbx, w'.processes[id]);
    case BootHelper(id) => Uncommitted(w.files, w.pbx, w'.processes[id]);
    case BootWork(id, found, valid) => BootUncommitted(w.files, w'.files, w.pbx, w.processes[id], found, valid);
    case _ => if w.lock.Some? { PbxProgresses(w.files, w.pbx, w'.pbx, w.processes[w.lock.value]); }
  }

  lemma Uncommitted(f: Files, pbx: Pbx, p: Process)
    requires p.pc != ReloadingVoicemail && p.pc != ReloadingDialplan
    ensures Progress(f, pbx, p)
  {}

  lemma BootUncommitted(f: Files, f': Files, pbx: Pbx, p: Process, found: set<string>, valid: bool)
    requires IsBoot(p.pc)
    ensures Progress(f', pbx, BootStep(f, p, found, valid).1)
  {}

  lemma {:induction false} RunProgresses(w: World, actions: seq<Action>)
    requires Inv(w) && Progressing(w) && Run(w, actions, true).Some?
    ensures Inv(Run(w, actions, true).value) && Progressing(Run(w, actions, true).value)
    decreases |actions|
  {
    hide Inv, Do, Progressing;
    if actions != [] {
      DoKeeps(w, actions[0]);
      DoProgresses(w, actions[0]);
      RunProgresses(Do(w, actions[0], true).value, actions[1..]);
    }
  }

  // ---------------------------------------------------------------- exactly what is loaded

  /** Asterisk runs the endpoints, the voicemail boxes and the dial plan that are on disk. */
  predicate AllLoaded(f: Files, pbx: Pbx) {
    pbx.Up? && pbx.loaded.endpoints == f.endpoints && pbx.loaded.voicemail == f.voicemail && pbx.loaded.dialplan == f.dialplan
  }

  /** The call reached Asterisk, whether or not the answer came back. */
  predicate Taken(answer: Answer) { answer.Accepted? || answer.reached }

  /** A part is on disk as Asterisk has it, before this process reloads it. */
  predicate SameVoicemail(f: Files, pbx: Pbx) requires pbx.Up? { pbx.loaded.voicemail == f.voicemail }

  predicate SameDialplan(f: Files, pbx: Pbx) requires pbx.Up? { pbx.loaded.dialplan == f.dialplan }

  /**
   * In any run, whatever was interleaved: when a process leaves through one of its plain reloads, a running
   * Asterisk without a queued restart has all three files exactly when that call was taken, or its part was the
   * same already, and every part still to be reloaded was the same already.
   */
  lemma LeavesLoadedIff(w: World, actions: seq<Action>, id: nat, render: Render, answer: Answer)
    requires Fresh(w) && Run(w, actions, true).Some?
    requires var m := Run(w, actions, true).value;
             && id in m.processes && Plain(m.processes[id].pc) && m.pbx.Up? && !m.pbx.queued
             && (m.processes[id].pc != ReloadingDialplan ==> !answer.Accepted?)
    ensures var m := Run(w, actions, true).value;
            var left := Do(m, Work(id, render, answer), true);
            && left.Some? && left.value.lock.None?
            && (AllLoaded(left.value.files, left.value.pbx) <==>
                match m.processes[id].pc
                case ReloadingEndpoints =>
                  (Taken(answer) || m.pbx.loaded.endpoints == m.files.endpoints) && SameVoicemail(m.files, m.pbx) && SameDialplan(m.files, m.pbx)
                case ReloadingVoicemail => (Taken(answer) || SameVoicemail(m.files, m.pbx)) && SameDialplan(m.files, m.pbx)
                case _ => Taken(answer) || SameDialplan(m.files, m.pbx))
  {
    hide Run, Do, Inv, Progressing;
    FreshIsSound(w);
    RunProgresses(w, actions);
    OneReload(Run(w, actions, true).value, id, render, answer);
  }

  lemma FreshIsSound(w: World)
    requires Fresh(w)
    ensures Inv(w) && Progressing(w)
  {}

  lemma OneReload(m: World, id: nat, render: Render, answer: Answer)
    requires Inv(m) && Progressing(m)
    requires id in m.processes && Plain(m.processes[id].pc) && m.pbx.Up? && !m.pbx.queued
    requires m.processes[id].pc != ReloadingDialplan ==> !answer.Accepted?
    ensures var left := Do(m, Work(id, render, answer), true);
            && left.Some? && left.value.lock.None?
            && (AllLoaded(left.value.files, left.value.pbx) <==>
                match m.processes[id].pc
                case ReloadingEndpoints =>
                  (Taken(answer) || m.pbx.loaded.endpoints == m.files.endpoints) && SameVoicemail(m.files, m.pbx) && SameDialplan(m.files, m.pbx)
                case ReloadingVoicemail => (Taken(answer) || SameVoicemail(m.files, m.pbx)) && SameDialplan(m.files, m.pbx)
                case _ => Taken(answer) || SameDialplan(m.files, m.pbx))
  {
    hide RtpOwed, RestartOwed;
    assert m.lock == Some(id);
    ReloadingEndpointsIsExact(m.files, m.pbx);
  }

  /** Three plain reloads in a row, each made only after the one before was accepted. */
  function ThreeReloads(w: World, id: nat, render: Render, a: Answer, b: Answer, c: Answer): Option<World> {
    var first := Do(w, Work(id, render, a), true);
    if first.None? || !a.Accepted? then first
    else
      var second := Do(first.value, Work(id, render, b), true);
      if second.None? || !b.Accepted? then second else Do(second.value, Work(id, render, c), true)
  }

  /**
   * An edit that changed all three files is brought in whole exactly when the first two calls were accepted and
   * the last one reached Asterisk; an edit that is not brought in whole is not remembered either.
   */
  lemma EditIsLoadedIffAccepted(w: World, actions: seq<Action>, id: nat, render: Render, a: Answer, b: Answer, c: Answer)
    requires Fresh(w) && Run(w, actions, true).Some?
    requires var m := Run(w, actions, true).value;
             && id in m.processes && m.processes[id].pc == ReloadingEndpoints && m.pbx.Up? && !m.pbx.queued
             && m.pbx.loaded.endpoints != m.files.endpoints && !SameVoicemail(m.files, m.pbx) && !SameDialplan(m.files, m.pbx)
    ensures var m := Run(w, actions, true).value;
            var left := ThreeReloads(m, id, render, a, b, c);
            && left.Some? && left.value.lock.None? && !Pending(left.value.files) && !Queued(left.value.pbx)
            && (AllLoaded(left.value.files, left.value.pbx) <==> a.Accepted? && b.Accepted? && Taken(c))
  {
    hide Run, Do, Inv, Progressing;
    FreshIsSound(w);
    RunProgresses(w, actions);
    ThreeInARow(Run(w, actions, true).value, id, render, a, b, c);
  }

  lemma ThreeInARow(m: World, id: nat, render: Render, a: Answer, b: Answer, c: Answer)
    requires Inv(m)
    requires id in m.processes && m.processes[id].pc == ReloadingEndpoints && m.pbx.Up? && !m.pbx.queued
    requires m.pbx.loaded.endpoints != m.files.endpoints && !SameVoicemail(m.files, m.pbx) && !SameDialplan(m.files, m.pbx)
    ensures var left := ThreeReloads(m, id, render, a, b, c);
            && left.Some? && left.value.lock.None? && !Pending(left.value.files) && !Queued(left.value.pbx)
            && (AllLoaded(left.value.files, left.value.pbx) <==> a.Accepted? && b.Accepted? && Taken(c))
  {
    hide Do, PlainReloads, NothingLost;
    assert m.lock == Some(id) && NothingLost(m.files, m.pbx) && !Pending(m.files) by { HolderIsPlain(m, id); }
    ReloadingEndpointsIsExact(m.files, m.pbx);
    ReloadIs(m, id, render, a);
    var first := Do(m, Work(id, render, a), true).value;
    if a.Accepted? {
      ReloadIs(first, id, render, b);
      var second := Do(first, Work(id, render, b), true).value;
      if b.Accepted? { ReloadIs(second, id, render, c); }
    }
  }

  lemma HolderIsPlain(m: World, id: nat)
    requires Inv(m) && id in m.processes && Plain(m.processes[id].pc)
    ensures m.lock == Some(id) && NothingLost(m.files, m.pbx) && !Pending(m.files)
  {}

  /** One plain reload of a running Asterisk, and where it leaves the process. */
  lemma ReloadIs(m: World, id: nat, render: Render, answer: Answer)
    requires id in m.processes && m.pbx.Up? && m.lock == Some(id) && Plain(m.processes[id].pc)
    ensures var pc, l := m.processes[id].pc, m.pbx.loaded;
            var next := if !answer.Accepted? || pc == ReloadingDialplan then Idle
                        else if pc == ReloadingEndpoints then ReloadingVoicemail else ReloadingDialplan;
            var loaded := if !Taken(answer) then l
                          else if pc == ReloadingEndpoints then l.(endpoints := l.endpoints + m.files.endpoints)
                          else if pc == ReloadingVoicemail then l.(voicemail := m.files.voicemail)
                          else l.(dialplan := m.files.dialplan);
            Do(m, Work(id, render, answer), true)
            == Some(World(m.files, m.pbx.(loaded := loaded), if next == Idle then None else m.lock, m.processes[id := AtPc(m.processes[id], next)]))
  {}
}
