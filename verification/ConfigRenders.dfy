/** What was rendered reaches the disk, and from there a running Asterisk. */
module ConfigRenders {
  import opened Wrappers
  import opened ConfigSync
  import opened ConfigReloads

  // ---------------------------------------------------------------- what a process was given

  /**
   * What one process was given under its lock: the render it read, whether that needed a restart, and the dial
   * plan and the voicemail boxes rendered when it came to write them.
   */
  datatype Given = Given(read: Render, needs: bool, dialplan: string, voicemail: string)

  /** Only a restart brings this render about: other transports, a section that is gone, or a restart owed before. */
  predicate NeedsRestart(f: Files, render: Render) {
    f.transports != render.transports || (exists section :: section in f.endpoints && section !in render.endpoints) || f.restartMarker
  }

  function Noted(w: World, a: Action, id: nat, g: Given): Given {
    if !a.Work? || a.id != id || id !in w.processes then g
    else match w.processes[id].pc
      case Reading => g.(read := a.render, needs := NeedsRestart(w.files, a.render))
      case WritingDialplan => g.(dialplan := a.render.dialplan)
      case WritingVoicemail => g.(voicemail := a.render.voicemail)
      case _ => g
  }

  /** What the process was given last, over a run. */
  function GivenIn(w: World, actions: seq<Action>, id: nat, g: Given): Given
    decreases |actions|
  {
    if actions == [] then g
    else match Do(w, actions[0], true)
      case None => g
      case Some(w') => GivenIn(w', actions[1..], id, Noted(w, actions[0], id, g))
  }

  const UNREAD := Given(Render("", map[], "", "", ""), false, "", "")

  // ---------------------------------------------------------------- what is on disk

  /** The process is past a step, counting down to its release of the lock. */
  predicate Past(pc: Pc, step: Pc) { 1 <= Rank(pc) < Rank(step) }

  /** What stands on disk by the time the holder has come this far. */
  predicate OnDisk(f: Files, p: Process, g: Given) {
    && (Past(p.pc, Reading) ==> p.render == g.read && p.restartNeeded == g.needs)
    && (Past(p.pc, Publishing) ==> f.public == g.read.public)
    && (Past(p.pc, WritingIce) && f.locals.Some? ==> f.ice == IceFor(f.locals.value, g.read.public))
    && (Past(p.pc, WritingTransports) ==> f.transports == g.read.transports)
    && (Past(p.pc, WritingEndpoints) ==> f.endpoints == g.read.endpoints)
    && (Past(p.pc, WritingDialplan) ==> f.dialplan == g.dialplan)
    && (Past(p.pc, WritingVoicemail) ==> f.voicemail == g.voicemail)
    && (p.pc == WritingIce ==> f.locals.Some?)
  }

  /** Everything rendered is on disk. */
  predicate Rendered(f: Files, g: Given) {
    && f.transports == g.read.transports && f.endpoints == g.read.endpoints && f.public == g.read.public
    && f.dialplan == g.dialplan && f.voicemail == g.voicemail
    && (f.locals.Some? ==> f.ice == IceFor(f.locals.value, g.read.public))
  }

  predicate PastWrites(pc: Pc) { Past(pc, WritingVoicemail) }

  lemma PastWritesIsRendered(f: Files, p: Process, g: Given)
    requires OnDisk(f, p, g) && PastWrites(p.pc)
    ensures Rendered(f, g) && p.render == g.read && p.restartNeeded == g.needs
  {}

  lemma MarkOnDisk(f: Files, p: Process, g: Given)
    requires OnDisk(f, p, g) && p.pc == Marking
    ensures OnDisk(if p.restartNeeded then f.(restartMarker := true) else f, AtPc(p, Publishing), g)
  {
    hide IceFor;
  }

  lemma IceOnDisk(f: Files, p: Process, g: Given)
    requires OnDisk(f, p, g) && (p.pc == Publishing || p.pc == MappingIce || p.pc == WritingIce)
    ensures var (f', p') := IceStep(f, p); OnDisk(f', p', g)
  {
    hide IceFor;
  }

  lemma FileOnDisk(f: Files, p: Process, render: Render, g: Given)
    requires OnDisk(f, p, g)
    requires p.pc == WritingTransports || p.pc == WritingEndpoints || p.pc == WritingDialplan || p.pc == WritingVoicemail
    ensures var (f', p') := FileStep(f, p, render);
            OnDisk(f', p', if p.pc == WritingDialplan then g.(dialplan := render.dialplan)
                           else if p.pc == WritingVoicemail then g.(voicemail := render.voicemail) else g)
  {
    hide IceFor;
  }

  lemma MarkedCallsOnDisk(f: Files, pbx: Pbx, p: Process, answer: Answer, g: Given)
    requires Rendered(f, g) && (p.pc == ReloadingRtp || p.pc == ClearingRtp || p.pc == Restarting || p.pc == ClearingRestart)
    ensures var (f', pbx', p') := MarkedCalls(f, pbx, p, answer); Rendered(f', g) && StillPast(p, p')
  {
    hide IceFor;
  }

  lemma PlainReloadsOnDisk(f: Files, pbx: Pbx, p: Process, answer: Answer)
    requires Plain(p.pc)
    ensures var (pbx', p') := PlainReloads(f, pbx, p, answer); StillPast(p, p')
  {}

  /** The process goes on with its calls, or leaves. */
  predicate StillPast(p: Process, p': Process) {
    (PastWrites(p'.pc) || p'.pc == Idle) && p'.render == p.render && p'.restartNeeded == p.restartNeeded
  }

  /** The calls to Asterisk, and what follows them, leave what was rendered on disk. */
  lemma CallsOnDisk(f: Files, pbx: Pbx, p: Process, answer: Answer, g: Given)
    requires OnDisk(f, p, g) && PastWrites(p.pc)
    ensures var (f', pbx', p') := WorkStep(f, pbx, p, g.read, answer); Rendered(f', g) && StillPast(p, p')
  {
    hide OnDisk, Rendered, StillPast, MarkedCalls, PlainReloads;
    PastWritesIsRendered(f, p, g);
    if Plain(p.pc) { PlainReloadsOnDisk(f, pbx, p, answer); } else { MarkedCallsOnDisk(f, pbx, p, answer, g); }
  }

  lemma RenderedIsOnDisk(f: Files, p: Process, g: Given)
    requires Rendered(f, g) && (PastWrites(p.pc) || p.pc == Idle) && p.render == g.read && p.restartNeeded == g.needs
    ensures OnDisk(f, p, g)
  {
    hide IceFor;
  }

  lemma WorkStepOnDisk(w: World, id: nat, render: Render, answer: Answer, g: Given)
    requires id in w.processes && Holds(w.processes[id]) && !IsBoot(w.processes[id].pc) && OnDisk(w.files, w.processes[id], g)
    ensures var (f, pbx, p) := WorkStep(w.files, w.pbx, w.processes[id], render, answer);
            OnDisk(f, p, Noted(w, Work(id, render, answer), id, g))
  {
    hide OnDisk, ReadStep, IceStep, FileStep, MarkedCalls, PlainReloads, Rendered, NeedsRestart;
    var f, p := w.files, w.processes[id];
    match p.pc
    case Reading => ReadOnDisk(f, p, render, g);
    case Marking => MarkOnDisk(f, p, g);
    case Publishing => IceOnDisk(f, p, g);
    case MappingIce => IceOnDisk(f, p, g);
    case WritingIce => IceOnDisk(f, p, g);
    case WritingTransports => FileOnDisk(f, p, render, g);
    case WritingEndpoints => FileOnDisk(f, p, render, g);
    case WritingDialplan => FileOnDisk(f, p, render, g);
    case WritingVoicemail => FileOnDisk(f, p, render, g);
    case _ =>
      PastWritesIsRendered(f, p, g);
      CallsOnDisk(f, w.pbx, p, answer, g);
      var (f', pbx', p') := WorkStep(f, w.pbx, p, render, answer);
      RenderedIsOnDisk(f', p', g);
  }

  lemma ReadOnDisk(f: Files, p: Process, render: Render, g: Given)
    requires p.pc == Reading
    ensures OnDisk(f, ReadStep(f, p, render), g.(read := render, needs := NeedsRestart(f, render)))
  {
    hide IceFor, NeedsRestart;
    ReadNeeds(f, p, render);
  }

  lemma ReadNeeds(f: Files, p: Process, render: Render)
    ensures ReadStep(f, p, render).restartNeeded <==> NeedsRestart(f, render)
  {
    var removed := f.endpoints.Keys - render.endpoints.Keys;
    assert removed != {} ==> exists section :: section in removed;
    assert forall section :: section in removed <==> section in f.endpoints && section !in render.endpoints;
  }

  // ---------------------------------------------------------------- over any run

  /** If this process holds the lock, what stands on disk is what it was given. */
  predicate HoldersFiles(w: World, id: nat, g: Given) {
    id in w.processes && w.lock == Some(id) ==> OnDisk(w.files, w.processes[id], g)
  }

  lemma EarlyIsOnDisk(f: Files, p: Process, g: Given)
    requires p.pc == Idle || p.pc == Asking || p.pc == Reading || IsBoot(p.pc)
    ensures OnDisk(f, p, g)
  {
    hide IceFor;
  }

  /** The files are the holder's: nobody else writes while the lock is held. */
  lemma DoOnDisk(w: World, a: Action, id: nat, g: Given)
    requires Inv(w) && HoldersFiles(w, id, g) && Do(w, a, true).Some?
    ensures HoldersFiles(Do(w, a, true).value, id, Noted(w, a, id, g))
  {
    hide OnDisk, WorkStep, BootStep, NothingLost, HolderKnows, ReadStage, Noted;
    var w' := Do(w, a, true).value;
    if !a.Work? || a.id != id { NotedOnlyByWork(w, a, id, g); }
    match a
    case Ask(other, _) => if id == other { EarlyIsOnDisk(w'.files, w'.processes[id], g); }
    case Acquire(other) => if id == other { EarlyIsOnDisk(w'.files, w'.processes[id], g); }
    case Stop(other) => if id == other { EarlyIsOnDisk(w'.files, w'.processes[id], g); }
    case BootHelper(other) => if id == other { EarlyIsOnDisk(w'.files, w'.processes[id], g); }
    case BootWork(other, found, valid) =>
      if id == other {
        BootIsEarly(w.files, w.processes[id], found, valid);
        EarlyIsOnDisk(w'.files, w'.processes[id], g);
      }
    case Work(other, render, answer) => if id == other && w.lock == Some(id) { WorkStepOnDisk(w, id, render, answer, g); }
    case _ =>
  }

  lemma BootIsEarly(f: Files, p: Process, found: set<string>, valid: bool)
    requires IsBoot(p.pc)
    ensures var p' := BootStep(f, p, found, valid).1; p'.pc == Idle || IsBoot(p'.pc)
  {}

  lemma NotedOnlyByWork(w: World, a: Action, id: nat, g: Given)
    requires !a.Work? || a.id != id
    ensures Noted(w, a, id, g) == g
  {}

  lemma {:induction false} RunOnDisk(w: World, actions: seq<Action>, id: nat, g: Given)
    requires Inv(w) && HoldersFiles(w, id, g) && Run(w, actions, true).Some?
    ensures HoldersFiles(Run(w, actions, true).value, id, GivenIn(w, actions, id, g))
    decreases |actions|
  {
    hide Inv, Do, HoldersFiles, Noted;
    if actions != [] {
      DoKeeps(w, actions[0]);
      DoOnDisk(w, actions[0], id, g);
      RunOnDisk(Do(w, actions[0], true).value, actions[1..], id, Noted(w, actions[0], id, g));
    }
  }

  /**
   * In any run from a fresh start, whatever was interleaved: each file a process under the lock is past writing
   * holds what the process was given, and it restarts Asterisk exactly when only a restart brings its render about.
   */
  lemma RenderReachesTheDisk(w: World, actions: seq<Action>, id: nat)
    requires Fresh(w) && Run(w, actions, true).Some?
    requires var m := Run(w, actions, true).value; id in m.processes && Holds(m.processes[id])
    ensures var m, g := Run(w, actions, true).value, GivenIn(w, actions, id, UNREAD);
            var p := m.processes[id];
            && OnDisk(m.files, p, g)
            && (PastWrites(p.pc) ==> Rendered(m.files, g) && (p.pc == Restarting || p.pc == ClearingRestart || Plain(p.pc) ==> p.restartNeeded == g.needs))
  {
    hide Run, Do, GivenIn, OnDisk, Rendered;
    RunKeeps(w, actions);
    RunOnDisk(w, actions, id, UNREAD);
    var m, g := Run(w, actions, true).value, GivenIn(w, actions, id, UNREAD);
    assert m.lock == Some(id);
    if PastWrites(m.processes[id].pc) { PastWritesIsRendered(m.files, m.processes[id], g); }
  }

  // ---------------------------------------------------------------- into Asterisk

  function LoadedFrom(f: Files): Loaded { Loaded(f.transports, f.endpoints, f.ice, f.voicemail, f.dialplan) }

  /** What has been read in this start is what is on disk; a running Asterisk has everything, or awaits its restart. */
  predicate ReadSoFar(f: Files, pbx: Pbx) {
    match pbx
    case Down => true
    case Booting(l, k) =>
      && (k > 0 ==> l.transports == f.transports) && (k > 1 ==> l.endpoints == f.endpoints) && (k > 2 ==> l.ice == f.ice)
      && (k > 3 ==> l.voicemail == f.voicemail) && (k > 4 ==> l.dialplan == f.dialplan)
    case Up(l, queued) => queued || l == LoadedFrom(f)
  }

  /** From the accepted restart to the release nothing can be read but what was rendered. */
  ghost predicate RestartReads(w: World) {
    w.lock.Some? && w.lock.value in w.processes && w.processes[w.lock.value].pc == ClearingRestart ==> ReadSoFar(w.files, w.pbx)
  }

  lemma PbxReads(f: Files, pbx: Pbx, pbx': Pbx)
    requires ReadSoFar(f, pbx)
    requires || pbx' == Down
             || pbx' == Booting(NOTHING, 0)
             || (pbx.Booting? && pbx.stage < 5 && pbx' == Booting(ReadStage(pbx.loaded, f, pbx.stage), pbx.stage + 1))
             || (pbx.Booting? && pbx.stage >= 5 && pbx' == Up(pbx.loaded, false))
    ensures ReadSoFar(f, pbx')
  {}

  lemma WorkReads(f: Files, pbx: Pbx, p: Process, render: Render, answer: Answer)
    requires Holds(p) && !IsBoot(p.pc)
    ensures var (f', pbx', p') := WorkStep(f, pbx, p, render, answer); p'.pc == ClearingRestart ==> ReadSoFar(f', pbx')
  {
    hide IceFor, ReadStep, IceStep, FileStep, MarkedCalls, PlainReloads, ReadSoFar;
    OthersNeverGoThere(f, pbx, p, render, answer);
    AcceptedRestartGoesThere(f, pbx, p, answer);
  }

  lemma OthersNeverGoThere(f: Files, pbx: Pbx, p: Process, render: Render, answer: Answer)
    ensures ReadStep(f, p, render).pc != ClearingRestart && IceStep(f, p).1.pc != ClearingRestart && FileStep(f, p, render).1.pc != ClearingRestart
    ensures PlainReloads(f, pbx, p, answer).1.pc != ClearingRestart
  {
    hide IceFor, Called;
  }

  lemma AcceptedRestartGoesThere(f: Files, pbx: Pbx, p: Process, answer: Answer)
    ensures var (f', pbx', p') := MarkedCalls(f, pbx, p, answer); p'.pc == ClearingRestart ==> ReadSoFar(f', pbx')
  {}

  lemma BootIsNoRestart(f: Files, p: Process, found: set<string>, valid: bool)
    requires IsBoot(p.pc)
    ensures BootStep(f, p, found, valid).1.pc != ClearingRestart
  {}

  lemma DoReads(w: World, a: Action)
    requires Inv(w) && RestartReads(w) && Do(w, a, true).Some?
    ensures RestartReads(Do(w, a, true).value)
  {
    hide WorkStep, BootStep, NothingLost, HolderKnows, ReadStage, ReadSoFar;
    var w' := Do(w, a, true).value;
    match a
    case Work(id, render, answer) => WorkReads(w.files, w.pbx, w.processes[id], render, answer);
    case BootWork(id, found, valid) => BootIsNoRestart(w.files, w.processes[id], found, valid);
    case Ask(_, _) =>
    case Acquire(_) =>
    case Stop(_) =>
    case BootHelper(_) =>
    case _ => if w.lock.Some? && w.processes[w.lock.value].pc == ClearingRestart { PbxReads(w.files, w.pbx, w'.pbx); }
  }

  lemma {:induction false} RunReads(w: World, actions: seq<Action>)
    requires Inv(w) && RestartReads(w) && Run(w, actions, true).Some?
    ensures RestartReads(Run(w, actions, true).value)
    decreases |actions|
  {
    hide Inv, Do, RestartReads;
    if actions != [] {
      DoKeeps(w, actions[0]);
      DoReads(w, actions[0]);
      RunReads(Do(w, actions[0], true).value, actions[1..]);
    }
  }

  /** A process about to leave with every call accepted: its restart was, or its last reload is. */
  predicate Leaves(w: World, id: nat) {
    id in w.processes && (w.processes[id].pc == ClearingRestart || (w.processes[id].pc == ReloadingDialplan && w.pbx.Up?))
  }

  lemma LeavingReads(m: World, id: nat, render: Render)
    requires Inv(m) && Progressing(m) && RestartReads(m) && Leaves(m, id)
    ensures var left := Do(m, Work(id, render, Accepted), true);
            && left.Some? && left.value.lock.None? && left.value.processes[id].pc == Idle
            && ReadSoFar(left.value.files, left.value.pbx) && !Pending(left.value.files)
  {
    hide IceFor, ReadStage;
    assert m.lock == Some(id);
    assert HolderKnows(m.files, m.pbx, m.processes[id]);
  }

  // ---------------------------------------------------------------- a start run to its end

  function Reads(stage: nat): seq<Action> { seq(if stage <= 5 then 6 - stage else 1, _ => ReadNext) }

  /** What Asterisk still has to do: a queued restart or a start, run to its end. */
  function Rest(pbx: Pbx): seq<Action> {
    match pbx
    case Down => [StartUp] + Reads(0)
    case Booting(_, k) => Reads(k)
    case Up(_, queued) => if queued then [DoRestart] + Reads(0) else []
  }

  lemma {:induction false} ReadsToTheEnd(w: World, l: Loaded, k: nat)
    requires w.pbx == Booting(l, k) && ReadSoFar(w.files, w.pbx)
    ensures Run(w, Reads(k), true) == Some(w.(pbx := Up(LoadedFrom(w.files), false)))
    decreases 6 - k
  {
    var next := Do(w, ReadNext, true).value;
    if k < 5 {
      assert Reads(k)[1..] == Reads(k + 1) && Reads(k)[0] == ReadNext;
      ReadsToTheEnd(next, ReadStage(l, w.files, k), k + 1);
      assert next.(pbx := Up(LoadedFrom(w.files), false)) == w.(pbx := Up(LoadedFrom(w.files), false));
    } else {
      assert Reads(k)[1..] == [] && Reads(k)[0] == ReadNext;
      assert l == LoadedFrom(w.files);
    }
  }

  lemma RestIsRun(w: World)
    requires Inv(w) && w.lock.None? && ReadSoFar(w.files, w.pbx)
    ensures Run(w, Rest(w.pbx), true) == Some(w.(pbx := Up(LoadedFrom(w.files), false)))
  {
    hide ReadSoFar, Reads;
    match w.pbx
    case Down => StartsOver(w, StartUp);
    case Booting(l, k) => ReadsToTheEnd(w, l, k);
    case Up(l, queued) => if queued { StartsOver(w, DoRestart); } else { EverythingRead(w.files, l); }
  }

  lemma EverythingRead(f: Files, l: Loaded)
    requires ReadSoFar(f, Up(l, false))
    ensures l == LoadedFrom(f)
  {}

  lemma StartsOver(w: World, a: Action)
    requires Do(w, a, true) == Some(w.(pbx := Booting(NOTHING, 0)))
    ensures Run(w, [a] + Reads(0), true) == Some(w.(pbx := Up(LoadedFrom(w.files), false)))
  {
    hide Do, Reads;
    var next := w.(pbx := Booting(NOTHING, 0));
    ReadsToTheEnd(next, NOTHING, 0);
    assert ([a] + Reads(0))[1..] == Reads(0) && ([a] + Reads(0))[0] == a;
  }

  /**
   * From any reachable state: when a process leaves the lock with every call accepted, everything it was given is
   * on disk, and Asterisk, once it has run any start or queued restart to its end, runs exactly that.
   */
  lemma RenderReachesAsterisk(w: World, actions: seq<Action>, id: nat, render: Render)
    requires Fresh(w) && Run(w, actions, true).Some? && Leaves(Run(w, actions, true).value, id)
    ensures var m, g := Run(w, actions, true).value, GivenIn(w, actions, id, UNREAD);
            var left := Do(m, Work(id, render, Accepted), true);
            && left.Some? && left.value.lock.None? && Rendered(left.value.files, g) && !Pending(left.value.files)
            && Run(left.value, Rest(left.value.pbx), true) == Some(left.value.(pbx := Up(LoadedFrom(left.value.files), false)))
            && LoadedFrom(left.value.files) == Loaded(g.read.transports, g.read.endpoints, left.value.files.ice, g.voicemail, g.dialplan)
  {
    hide Run, Do, GivenIn, Inv, Progressing, RestartReads, WorkStep, ReadSoFar, OnDisk, Rest;
    var m, g := Run(w, actions, true).value, GivenIn(w, actions, id, UNREAD);
    FreshIsSound(w);
    RunProgresses(w, actions);
    NothingToRead(w);
    RunReads(w, actions);
    LeavingReads(m, id, render);
    DoKeeps(m, Work(id, render, Accepted));
    var left := Do(m, Work(id, render, Accepted), true).value;
    RestIsRun(left);
    RenderReachesTheDisk(w, actions, id);
    LeavingKeepsFiles(m, id, render, g);
  }

  lemma NothingToRead(w: World)
    requires Fresh(w)
    ensures RestartReads(w)
  {}

  lemma LeavingKeepsFiles(m: World, id: nat, render: Render, g: Given)
    requires Leaves(m, id) && Rendered(m.files, g) && Do(m, Work(id, render, Accepted), true).Some?
    ensures Rendered(Do(m, Work(id, render, Accepted), true).value.files, g)
  {
    hide IceFor;
  }

  // ---------------------------------------------------------------- the boot helper

  /** A mapping sends every local address, and no other, to the public one; without a public address it is empty. */
  ghost predicate MapsLocals(ice: IceMap, locals: set<string>, public: string) {
    if public == "" then ice == map[]
    else (forall a :: a in ice <==> a in locals) && forall a :: a in ice ==> ice[a] == public
  }

  lemma IceMapsLocals(locals: set<string>, public: string)
    ensures forall ice :: ice == IceFor(locals, public) <==> MapsLocals(ice, locals, public)
  {
    forall ice | MapsLocals(ice, locals, public) ensures ice == IceFor(locals, public) {
      assert ice.Keys == IceFor(locals, public).Keys;
    }
  }

  /**
   * Before Asterisk starts, the helper publishes the addresses the container has now, and maps exactly these to
   * the public address if that is still valid; nothing else on disk changes, and the lock is free again.
   */
  lemma BootPublishes(w: World, id: nat, found: set<string>, early: bool, later: set<string>, valid: bool)
    requires id in w.processes && w.processes[id].pc == Idle && w.pbx == Down && w.lock.None?
    ensures var m := Run(w, [BootHelper(id), BootWork(id, found, early), BootWork(id, later, valid)], true);
            && m.Some? && m.value.lock.None? && m.value.pbx == Down && m.value.processes == w.processes
            && m.value.files == w.files.(locals := Some(found), ice := m.value.files.ice)
            && MapsLocals(m.value.files.ice, found, if valid then w.files.public else "")
  {
    hide IceFor, MapsLocals, Do;
    IceMapsLocals(found, if valid then w.files.public else "");
    var a, b, c := BootHelper(id), BootWork(id, found, early), BootWork(id, later, valid);
    var p := w.processes[id];
    var w1 := w.(lock := Some(id), processes := w.processes[id := AtPc(p, BootLocals)]);
    var w2 := w1.(files := w.files.(locals := Some(found)), processes := w.processes[id := AtPc(p, BootIce)]);
    var w3 := w.(files := w2.files.(ice := IceFor(found, if valid then w.files.public else "")));
    BootBegins(w, id);
    LocalsPublished(w, w1, id, found, early);
    MapPublished(w, w2, id, found, later, valid);
    assert Run(w, [a, b, c], true) == Some(w3) by {
      assert [a, b, c][1..] == [b, c] && [b, c][1..] == [c] && [c][1..] == [];
      assert Run(w2, [c], true) == Some(w3);
      assert Run(w1, [b, c], true) == Some(w3);
    }
  }

  lemma BootBegins(w: World, id: nat)
    requires id in w.processes && w.processes[id].pc == Idle && w.pbx == Down && w.lock.None?
    ensures Do(w, BootHelper(id), true) == Some(w.(lock := Some(id), processes := w.processes[id := AtPc(w.processes[id], BootLocals)]))
  {}

  lemma LocalsPublished(w: World, w1: World, id: nat, found: set<string>, early: bool)
    requires id in w.processes && w1 == w.(lock := Some(id), processes := w.processes[id := AtPc(w.processes[id], BootLocals)])
    ensures Do(w1, BootWork(id, found, early), true) ==
              Some(w1.(files := w.files.(locals := Some(found)), processes := w.processes[id := AtPc(w.processes[id], BootIce)]))
  {
    assert w1.processes[id := AtPc(w.processes[id], BootIce)] == w.processes[id := AtPc(w.processes[id], BootIce)];
  }

  lemma MapPublished(w: World, w2: World, id: nat, found: set<string>, later: set<string>, valid: bool)
    requires id in w.processes && w.processes[id].pc == Idle && w.lock.None? && w2.files.locals == Some(found)
    requires w2 == w.(lock := Some(id), files := w2.files, processes := w.processes[id := AtPc(w.processes[id], BootIce)])
    ensures Do(w2, BootWork(id, later, valid), true) ==
              Some(w.(files := w2.files.(ice := IceFor(found, if valid then w2.files.public else ""))))
  {
    hide IceFor;
    assert w2.processes[id := w.processes[id]] == w.processes;
  }
}
