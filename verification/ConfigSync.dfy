/** The crash-safe configuration sync of app/telephony_config.py, as a state machine over its single file writes,
    marker changes and AMI calls.

    Several processes share one directory, guarded by one file lock: API and ARI workers running
    `_apply_locked`, and Asterisk's boot helper. Between any two of their steps Asterisk may restart, read one more
    file, or go down, and any process may stop. What a render yields is arbitrary. */
module ConfigSync {
  import opened Wrappers

  type Sections = map<string, string>  // section name -> body
  type IceMap = map<string, string>    // local address -> public address

  /** The shared directory. A missing transports or endpoints file reads as an empty one. */
  datatype Files = Files(
    transports: string, endpoints: Sections, ice: IceMap, dialplan: string, voicemail: string,
    public: string, locals: Option<set<string>>, restartMarker: bool, rtpMarker: bool)

  datatype Loaded = Loaded(transports: string, endpoints: Sections, ice: IceMap, voicemail: string, dialplan: string)

  const NOTHING := Loaded("", map[], map[], "", "")

  /** While booting, `stage` files have been read. `queued` is a restart Asterisk has accepted and not yet done. */
  datatype Pbx =
    | Down
    | Booting(loaded: Loaded, stage: nat)
    | Up(loaded: Loaded, queued: bool)

  /** What the database renders to at one moment. */
  datatype Render = Render(transports: string, endpoints: Sections, public: string, voicemail: string, dialplan: string)

  datatype Pc =
    | Idle
    | Asking
    | Reading | Marking | Publishing | MappingIce | WritingIce
    | WritingTransports | WritingEndpoints | WritingDialplan | WritingVoicemail
    | ReloadingRtp | ClearingRtp | Restarting | ClearingRestart
    | ReloadingEndpoints | ReloadingVoicemail | ReloadingDialplan
    | BootLocals | BootIce

  datatype Process = Process(pc: Pc, onlyPending: bool, render: Render, restartNeeded: bool)

  datatype World = World(files: Files, pbx: Pbx, lock: Option<nat>, processes: map<nat, Process>)

  /** How an AMI call ends; one that failed may still have reached Asterisk. */
  datatype Answer = Accepted | Failed(reached: bool)

  datatype Action =
    | Ask(id: nat, onlyPending: bool)
    | Acquire(id: nat)
    | Work(id: nat, render: Render, answer: Answer)
    | Stop(id: nat)
    | BootHelper(id: nat)
    | BootWork(id: nat, found: set<string>, valid: bool)
    | GoDown
    | StartUp
    | ReadNext
    | DoRestart

  predicate Holds(p: Process) {
    p.pc != Idle && p.pc != Asking
  }

  predicate IsBoot(pc: Pc) {
    pc == BootLocals || pc == BootIce
  }

  predicate Pending(f: Files) {
    f.rtpMarker || f.restartMarker
  }

  function IceFor(locals: set<string>, public: string): IceMap {
    if public == "" then map[] else map a | a in locals :: public
  }

  function AtPc(p: Process, pc: Pc): Process {
    p.(pc := pc)
  }

  // ---------------------------------------------------------------- one step of `_apply_locked`

  /** What is read under the lock: the new render, and whether only a restart can bring it about. */
  function ReadStep(f: Files, p: Process, render: Render): Process {
    var removed := f.endpoints.Keys - render.endpoints.Keys;
    Process(Marking, p.onlyPending, render, render.transports != f.transports || removed != {} || f.restartMarker)
  }

  /** `_prepare_webrtc_ice`: the public address, then the marker before the changed map. */
  function IceStep(f: Files, p: Process): (Files, Process) {
    match p.pc
    case Publishing => (f.(public := p.render.public), AtPc(p, MappingIce))
    case MappingIce =>
      if f.locals.None? || f.ice == IceFor(f.locals.value, p.render.public) then (f, AtPc(p, WritingTransports))
      else (f.(rtpMarker := true), AtPc(p, WritingIce))
    case _ => (f.(ice := IceFor(f.locals.GetOr({}), p.render.public)), AtPc(p, WritingTransports))
  }

  function FileStep(f: Files, p: Process, render: Render): (Files, Process) {
    match p.pc
    case WritingTransports => (f.(transports := p.render.transports), AtPc(p, WritingEndpoints))
    case WritingEndpoints => (f.(endpoints := p.render.endpoints), AtPc(p, WritingDialplan))
    case WritingDialplan => (f.(dialplan := render.dialplan), AtPc(p, WritingVoicemail))
    case _ => (f.(voicemail := render.voicemail), AtPc(p, ReloadingRtp))
  }

  /** An AMI call reaches a running Asterisk, or not; the caller goes on only when it was accepted. */
  function Called(pbx: Pbx, after: Pbx, answer: Answer): Pbx {
    if pbx.Up? && (answer.Accepted? || answer.reached) then after else pbx
  }

  function Then(pbx: Pbx, p: Process, answer: Answer, next: Pc): Process {
    AtPc(p, if pbx.Up? && answer.Accepted? then next else Idle)
  }

  function MarkedCalls(f: Files, pbx: Pbx, p: Process, answer: Answer): (Files, Pbx, Process) {
    match p.pc
    case ReloadingRtp =>
      if !f.rtpMarker then (f, pbx, AtPc(p, Restarting))
      else (f, if pbx.Up? then Called(pbx, pbx.(loaded := pbx.loaded.(ice := f.ice)), answer) else pbx,
            Then(pbx, p, answer, ClearingRtp))
    case ClearingRtp => (f.(rtpMarker := false), pbx, AtPc(p, Restarting))
    case Restarting =>
      if !p.restartNeeded then (f, pbx, AtPc(p, ReloadingEndpoints))
      else (f, if pbx.Up? then Called(pbx, pbx.(queued := true), answer) else pbx,
            Then(pbx, p, answer, ClearingRestart))
    case _ => (f.(restartMarker := false), pbx, AtPc(p, Idle))
  }

  function PlainReloads(f: Files, pbx: Pbx, p: Process, answer: Answer): (Pbx, Process) {
    if !pbx.Up? then (pbx, AtPc(p, Idle))
    else
      var l := pbx.loaded;
      match p.pc
      case ReloadingEndpoints =>
        (Called(pbx, pbx.(loaded := l.(endpoints := l.endpoints + f.endpoints)), answer),
         Then(pbx, p, answer, ReloadingVoicemail))
      case ReloadingVoicemail =>
        (Called(pbx, pbx.(loaded := l.(voicemail := f.voicemail)), answer), Then(pbx, p, answer, ReloadingDialplan))
      case _ => (Called(pbx, pbx.(loaded := l.(dialplan := f.dialplan)), answer), AtPc(p, Idle))
  }

  /** The files, Asterisk and the process after one step; `Idle` is leaving the lock. */
  function WorkStep(f: Files, pbx: Pbx, p: Process, render: Render, answer: Answer): (Files, Pbx, Process) {
    match p.pc
    case Reading => (f, pbx, ReadStep(f, p, render))
    case Marking => (if p.restartNeeded then f.(restartMarker := true) else f, pbx, AtPc(p, Publishing))
    case Publishing => var (f', p') := IceStep(f, p); (f', pbx, p')
    case MappingIce => var (f', p') := IceStep(f, p); (f', pbx, p')
    case WritingIce => var (f', p') := IceStep(f, p); (f', pbx, p')
    case WritingTransports => var (f', p') := FileStep(f, p, render); (f', pbx, p')
    case WritingEndpoints => var (f', p') := FileStep(f, p, render); (f', pbx, p')
    case WritingDialplan => var (f', p') := FileStep(f, p, render); (f', pbx, p')
    case WritingVoicemail => var (f', p') := FileStep(f, p, render); (f', pbx, p')
    case ReloadingRtp => MarkedCalls(f, pbx, p, answer)
    case ClearingRtp => MarkedCalls(f, pbx, p, answer)
    case Restarting => MarkedCalls(f, pbx, p, answer)
    case ClearingRestart => MarkedCalls(f, pbx, p, answer)
    case ReloadingEndpoints => var (pbx', p') := PlainReloads(f, pbx, p, answer); (f, pbx', p')
    case ReloadingVoicemail => var (pbx', p') := PlainReloads(f, pbx, p, answer); (f, pbx', p')
    case ReloadingDialplan => var (pbx', p') := PlainReloads(f, pbx, p, answer); (f, pbx', p')
    case _ => (f, pbx, p)
  }

  /** The boot helper publishes the container's addresses, then the map for a still valid public address. */
  function BootStep(f: Files, p: Process, found: set<string>, valid: bool): (Files, Process) {
    match p.pc
    case BootLocals => (f.(locals := Some(found)), AtPc(p, BootIce))
    case BootIce => (f.(ice := IceFor(f.locals.GetOr({}), if valid then f.public else "")), AtPc(p, Idle))
    case _ => (f, p)
  }

  /** Asterisk reads its files one after another. */
  function ReadStage(l: Loaded, f: Files, stage: nat): Loaded {
    if stage == 0 then l.(transports := f.transports)
    else if stage == 1 then l.(endpoints := f.endpoints)
    else if stage == 2 then l.(ice := f.ice)
    else if stage == 3 then l.(voicemail := f.voicemail)
    else l.(dialplan := f.dialplan)
  }

  function Release(w: World, id: nat, p: Process): Option<nat> {
    if w.lock == Some(id) && !Holds(p) then None else w.lock
  }

  /** One action, or None where it cannot happen. Without `locking`, acquiring does not wait. */
  function Do(w: World, a: Action, locking: bool): Option<World> {
    match a
    case Ask(id, onlyPending) =>
      if id !in w.processes || w.processes[id].pc != Idle || (onlyPending && !Pending(w.files)) then None
      else Some(w.(processes := w.processes[id := w.processes[id].(pc := Asking, onlyPending := onlyPending)]))
    case Acquire(id) =>
      if id !in w.processes || w.processes[id].pc != Asking || (locking && w.lock.Some?) then None
      else if w.processes[id].onlyPending && !Pending(w.files) then
        Some(w.(processes := w.processes[id := AtPc(w.processes[id], Idle)]))
      else Some(w.(lock := Some(id), processes := w.processes[id := AtPc(w.processes[id], Reading)]))
    case Work(id, render, answer) =>
      if id !in w.processes || !Holds(w.processes[id]) || IsBoot(w.processes[id].pc) then None
      else
        var (f, pbx, p) := WorkStep(w.files, w.pbx, w.processes[id], render, answer);
        Some(World(f, pbx, Release(w, id, p), w.processes[id := p]))
    case Stop(id) =>
      if id !in w.processes then None
      else Some(World(w.files, w.pbx, Release(w, id, AtPc(w.processes[id], Idle)),
                      w.processes[id := AtPc(w.processes[id], Idle)]))
    case BootHelper(id) =>
      if id !in w.processes || w.processes[id].pc != Idle || w.pbx != Down || (locking && w.lock.Some?) then None
      else Some(w.(lock := Some(id), processes := w.processes[id := AtPc(w.processes[id], BootLocals)]))
    case BootWork(id, found, valid) =>
      if id !in w.processes || !IsBoot(w.processes[id].pc) then None
      else
        var (f, p) := BootStep(w.files, w.processes[id], found, valid);
        Some(World(f, w.pbx, Release(w, id, p), w.processes[id := p]))
    case GoDown => Some(w.(pbx := Down))
    case StartUp =>
      if w.pbx != Down || (exists id :: id in w.processes && IsBoot(w.processes[id].pc)) then None
      else Some(w.(pbx := Booting(NOTHING, 0)))
    case ReadNext =>
      if !w.pbx.Booting? then None
      else if w.pbx.stage < 5 then
        Some(w.(pbx := Booting(ReadStage(w.pbx.loaded, w.files, w.pbx.stage), w.pbx.stage + 1)))
      else Some(w.(pbx := Up(w.pbx.loaded, false)))
    case DoRestart =>
      if !w.pbx.Up? || !w.pbx.queued then None else Some(w.(pbx := Booting(NOTHING, 0)))
  }

  function Run(w: World, actions: seq<Action>, locking: bool): Option<World>
    decreases |actions|
  {
    if actions == [] then Some(w)
    else match Do(w, actions[0], locking)
         case None => None
         case Some(w') => Run(w', actions[1..], locking)
  }

  // ---------------------------------------------------------------- what must never be lost

  /** Asterisk runs transports that differ from the file, or still holds a section the file has dropped. */
  predicate RestartOwed(f: Files, pbx: Pbx) {
    match pbx
    case Down => false
    case Booting(l, k) =>
      (k > 0 && l.transports != f.transports) || (k > 1 && !(l.endpoints.Keys <= f.endpoints.Keys))
    case Up(l, _) => l.transports != f.transports || !(l.endpoints.Keys <= f.endpoints.Keys)
  }

  /** Asterisk runs an ICE map that differs from the file. */
  predicate RtpOwed(f: Files, pbx: Pbx) {
    match pbx
    case Down => false
    case Booting(l, k) => k > 2 && l.ice != f.ice
    case Up(l, _) => l.ice != f.ice
  }

  predicate Queued(pbx: Pbx) {
    pbx.Up? && pbx.queued
  }

  predicate NothingLost(f: Files, pbx: Pbx) {
    && (RestartOwed(f, pbx) ==> f.restartMarker || Queued(pbx))
    && (RtpOwed(f, pbx) ==> f.rtpMarker)
  }

  /** Between the mark and the restart. */
  predicate Marked(pc: Pc) {
    || pc == Publishing || pc == MappingIce || pc == WritingIce || pc == WritingTransports || pc == WritingEndpoints
    || pc == WritingDialplan || pc == WritingVoicemail || pc == ReloadingRtp || pc == ClearingRtp || pc == Restarting
  }

  predicate Plain(pc: Pc) {
    pc == ReloadingEndpoints || pc == ReloadingVoicemail || pc == ReloadingDialplan
  }

  /** What the lock holder knows at each of its steps. */
  predicate HolderKnows(f: Files, pbx: Pbx, p: Process) {
    && (Marked(p.pc) && p.restartNeeded ==> f.restartMarker)
    && ((p.pc == Marking || Marked(p.pc)) && !p.restartNeeded ==>
          f.transports == p.render.transports && f.endpoints.Keys <= p.render.endpoints.Keys && !f.restartMarker)
    && (p.pc == Restarting || p.pc == ClearingRestart ==> !f.rtpMarker)
    && (Plain(p.pc) ==> !Pending(f))
    && (p.pc == WritingIce ==> f.rtpMarker)
    && (p.pc == ClearingRtp ==> !RtpOwed(f, pbx))
    && (p.pc == ClearingRestart ==> (RestartOwed(f, pbx) ==> Queued(pbx)))
    && (IsBoot(p.pc) ==> pbx == Down)
  }

  ghost predicate Inv(w: World) {
    && NothingLost(w.files, w.pbx)
    && (forall id :: id in w.processes && Holds(w.processes[id]) ==> w.lock == Some(id))
    && (w.lock.Some? ==> w.lock.value in w.processes && HolderKnows(w.files, w.pbx, w.processes[w.lock.value]))
  }

  /** Nothing is lost, and the process knows what it needs at its next step. */
  predicate Sound(f: Files, pbx: Pbx, p: Process) {
    NothingLost(f, pbx) && HolderKnows(f, pbx, p) && !IsBoot(p.pc) && p.pc != Asking
  }

  lemma ReadKeeps(f: Files, pbx: Pbx, p: Process, render: Render)
    requires NothingLost(f, pbx)
    ensures Sound(f, pbx, ReadStep(f, p, render))
  {
    var removed := f.endpoints.Keys - render.endpoints.Keys;
    assert f.endpoints.Keys <= removed + render.endpoints.Keys;
  }

  lemma MarkKeeps(f: Files, pbx: Pbx, p: Process)
    requires Sound(f, pbx, p) && p.pc == Marking
    ensures Sound(if p.restartNeeded then f.(restartMarker := true) else f, pbx, AtPc(p, Publishing))
  {
  }

  lemma IceKeeps(f: Files, pbx: Pbx, p: Process)
    requires Sound(f, pbx, p) && (p.pc == Publishing || p.pc == MappingIce || p.pc == WritingIce)
    ensures var (f', p') := IceStep(f, p); Sound(f', pbx, p')
  {
  }

  lemma FileKeeps(f: Files, pbx: Pbx, p: Process, render: Render)
    requires Sound(f, pbx, p)
    requires p.pc == WritingTransports || p.pc == WritingEndpoints || p.pc == WritingDialplan || p.pc == WritingVoicemail
    ensures var (f', p') := FileStep(f, p, render); Sound(f', pbx, p')
  {
  }

  lemma RtpCallKeeps(f: Files, pbx: Pbx, p: Process, answer: Answer)
    requires Sound(f, pbx, p) && (p.pc == ReloadingRtp || p.pc == ClearingRtp)
    ensures var (f', pbx', p') := MarkedCalls(f, pbx, p, answer); Sound(f', pbx', p')
  {
  }

  lemma RestartCallKeeps(f: Files, pbx: Pbx, p: Process, answer: Answer)
    requires Sound(f, pbx, p) && (p.pc == Restarting || p.pc == ClearingRestart)
    ensures var (f', pbx', p') := MarkedCalls(f, pbx, p, answer); Sound(f', pbx', p')
  {
  }

  /** Loading what is on disk, without losing a transport or an ICE entry, owes nothing new. */
  lemma FresherOwesNoMore(f: Files, pbx: Pbx, loaded: Loaded)
    requires pbx.Up? && NothingLost(f, pbx)
    requires loaded.transports == pbx.loaded.transports && loaded.ice == pbx.loaded.ice
    requires loaded.endpoints.Keys <= pbx.loaded.endpoints.Keys + f.endpoints.Keys
    ensures NothingLost(f, pbx.(loaded := loaded))
  {
  }

  lemma PlainReloadKeeps(f: Files, pbx: Pbx, p: Process, answer: Answer)
    requires Sound(f, pbx, p) && Plain(p.pc)
    ensures var (pbx', p') := PlainReloads(f, pbx, p, answer); Sound(f, pbx', p')
  {
    hide NothingLost, RestartOwed, RtpOwed;
    if pbx.Up? {
      var l := pbx.loaded;
      FresherOwesNoMore(f, pbx, l.(endpoints := l.endpoints + f.endpoints));
      FresherOwesNoMore(f, pbx, l.(voicemail := f.voicemail));
      FresherOwesNoMore(f, pbx, l.(dialplan := f.dialplan));
    }
  }

  lemma WorkKeeps(f: Files, pbx: Pbx, p: Process, render: Render, answer: Answer)
    requires Sound(f, pbx, p) && Holds(p)
    ensures var (f', pbx', p') := WorkStep(f, pbx, p, render, answer); Sound(f', pbx', p')
  {
    hide ReadStep, IceStep, FileStep, MarkedCalls, PlainReloads, NothingLost, HolderKnows;
    match p.pc
    case Reading => ReadKeeps(f, pbx, p, render);
    case Marking => MarkKeeps(f, pbx, p);
    case Publishing => IceKeeps(f, pbx, p);
    case MappingIce => IceKeeps(f, pbx, p);
    case WritingIce => IceKeeps(f, pbx, p);
    case WritingTransports => FileKeeps(f, pbx, p, render);
    case WritingEndpoints => FileKeeps(f, pbx, p, render);
    case WritingDialplan => FileKeeps(f, pbx, p, render);
    case WritingVoicemail => FileKeeps(f, pbx, p, render);
    case ReloadingRtp => RtpCallKeeps(f, pbx, p, answer);
    case ClearingRtp => RtpCallKeeps(f, pbx, p, answer);
    case Restarting => RestartCallKeeps(f, pbx, p, answer);
    case ClearingRestart => RestartCallKeeps(f, pbx, p, answer);
    case ReloadingEndpoints => PlainReloadKeeps(f, pbx, p, answer);
    case ReloadingVoicemail => PlainReloadKeeps(f, pbx, p, answer);
    case ReloadingDialplan => PlainReloadKeeps(f, pbx, p, answer);
  }

  lemma BootKeeps(f: Files, pbx: Pbx, p: Process, found: set<string>, valid: bool)
    requires HolderKnows(f, pbx, p) && IsBoot(p.pc)
    ensures var (f', p') := BootStep(f, p, found, valid);
            && NothingLost(f', pbx) && HolderKnows(f', pbx, p')
  {
    hide IceFor, HolderKnows, NothingLost;
    BootMeansDown(f, pbx, p);
    var (f', p') := BootStep(f, p, found, valid);
    IdleKnows(f', pbx, p');
  }

  /** While Asterisk is down nothing is owed. */
  lemma BootMeansDown(f: Files, pbx: Pbx, p: Process)
    requires HolderKnows(f, pbx, p) && IsBoot(p.pc)
    ensures pbx == Down && forall f': Files :: NothingLost(f', Down)
  {
  }

  lemma PbxKeeps(f: Files, pbx: Pbx, pbx': Pbx, p: Process)
    requires NothingLost(f, pbx) && HolderKnows(f, pbx, p)
    requires || pbx' == Down
             || (!IsBoot(p.pc) && pbx' == Booting(NOTHING, 0))
             || (pbx.Booting? && pbx.stage < 5 && pbx' == Booting(ReadStage(pbx.loaded, f, pbx.stage), pbx.stage + 1))
             || (pbx.Booting? && pbx.stage >= 5 && pbx' == Up(pbx.loaded, false))
    ensures NothingLost(f, pbx') && HolderKnows(f, pbx', p)
  {
  }

  function Holder(w: World): Process
    requires w.lock.Some? ==> w.lock.value in w.processes
  {
    if w.lock.Some? then w.processes[w.lock.value] else Process(Idle, false, Render("", map[], "", "", ""), false)
  }

  lemma HolderIs(w: World)
    requires Inv(w)
    ensures HolderKnows(w.files, w.pbx, Holder(w))
    ensures IsBoot(Holder(w).pc) ==> w.pbx == Down
  {
    if w.lock.None? {
      IdleKnows(w.files, w.pbx, Holder(w));
    }
  }

  lemma PbxActionKeeps(w: World, a: Action)
    requires Inv(w) && Do(w, a, true).Some?
    requires a.GoDown? || a.StartUp? || a.ReadNext? || a.DoRestart?
    ensures Inv(Do(w, a, true).value)
  {
    hide NothingLost, HolderKnows, ReadStage;
    HolderIs(w);
    assert a.StartUp? && w.lock.Some? ==> !IsBoot(Holder(w).pc);
    PbxKeeps(w.files, w.pbx, Do(w, a, true).value.pbx, Holder(w));
  }

  /** Every action, whoever takes it and however its calls end, keeps the invariant. */
  lemma DoKeeps(w: World, a: Action)
    requires Inv(w) && Do(w, a, true).Some?
    ensures Inv(Do(w, a, true).value)
  {
    hide NothingLost, HolderKnows, WorkStep, BootStep, ReadStage;
    var w' := Do(w, a, true).value;
    match a
    case Ask(id, onlyPending) => IdleKnows(w.files, w.pbx, w'.processes[id]);
    case Acquire(id) => IdleKnows(w.files, w.pbx, w'.processes[id]);
    case Work(id, render, answer) => WorkKeeps(w.files, w.pbx, w.processes[id], render, answer);
    case Stop(id) => IdleKnows(w.files, w.pbx, w'.processes[id]);
    case BootHelper(id) => IdleKnows(w.files, w.pbx, w'.processes[id]);
    case BootWork(id, found, valid) => BootKeeps(w.files, w.pbx, w.processes[id], found, valid);
    case GoDown => PbxActionKeeps(w, a);
    case StartUp => PbxActionKeeps(w, a);
    case ReadNext => PbxActionKeeps(w, a);
    case DoRestart => PbxActionKeeps(w, a);
  }

  /** A process that has only just arrived, or has left, claims nothing. */
  lemma IdleKnows(f: Files, pbx: Pbx, p: Process)
    requires p.pc == Idle || p.pc == Asking || p.pc == Reading || (IsBoot(p.pc) && pbx == Down)
    ensures HolderKnows(f, pbx, p)
  {
  }

  ghost predicate Fresh(w: World) {
    w.pbx == Down && w.lock.None? && forall id :: id in w.processes ==> w.processes[id].pc == Idle
  }

  lemma {:induction false} RunKeeps(w: World, actions: seq<Action>)
    requires Inv(w) && Run(w, actions, true).Some?
    ensures Inv(Run(w, actions, true).value)
    decreases |actions|
  {
    hide Inv, Do;
    if actions != [] {
      DoKeeps(w, actions[0]);
      RunKeeps(Do(w, actions[0], true).value, actions[1..]);
    }
  }

  /** No owed restart or RTP reload is lost, in any interleaving, at any crash, whatever AMI answers. */
  lemma NoReloadIsLost(w: World, actions: seq<Action>)
    requires Fresh(w) && Run(w, actions, true).Some?
    ensures var w' := Run(w, actions, true).value;
            && (RestartOwed(w'.files, w'.pbx) ==> w'.files.restartMarker || Queued(w'.pbx))
            && (RtpOwed(w'.files, w'.pbx) ==> w'.files.rtpMarker)
  {
    hide Run, Do;
    RunKeeps(w, actions);
  }

  /** With both markers gone and no restart queued, a running Asterisk has the transports and the ICE map on disk, and no endpoint that is gone. */
  lemma SettledMeansLoaded(w: World, actions: seq<Action>)
    requires Fresh(w) && Run(w, actions, true).Some?
    ensures var w' := Run(w, actions, true).value;
            !Pending(w'.files) && w'.pbx.Up? && !w'.pbx.queued ==>
              && w'.pbx.loaded.transports == w'.files.transports
              && w'.pbx.loaded.ice == w'.files.ice
              && w'.pbx.loaded.endpoints.Keys <= w'.files.endpoints.Keys
  {
    hide Run, Do;
    NoReloadIsLost(w, actions);
  }

  // ---------------------------------------------------------------- a retry that meets no failure

  function Rank(pc: Pc): nat {
    match pc
    case Reading => 16
    case Marking => 15
    case Publishing => 14
    case MappingIce => 13
    case WritingIce => 12
    case WritingTransports => 11
    case WritingEndpoints => 10
    case WritingDialplan => 9
    case WritingVoicemail => 8
    case ReloadingRtp => 7
    case ClearingRtp => 6
    case Restarting => 5
    case ClearingRestart => 4
    case ReloadingEndpoints => 3
    case ReloadingVoicemail => 2
    case ReloadingDialplan => 1
    case _ => 0
  }

  predicate GoesOn(f: Files, pbx: Pbx, p: Process, render: Render) {
    var (f', pbx', p') := WorkStep(f, pbx, p, render, Accepted);
    && pbx'.Up? && Rank(p'.pc) < Rank(p.pc)
    && (if p'.pc == Idle then !Pending(f') else Holds(p') && !IsBoot(p'.pc))
  }

  lemma AcceptedFileStep(f: Files, pbx: Pbx, p: Process, render: Render)
    requires pbx.Up? && Rank(p.pc) > 7
    ensures GoesOn(f, pbx, p, render)
  {
    hide IceFor, Pending;
  }

  lemma AcceptedCall(f: Files, pbx: Pbx, p: Process, render: Render)
    requires pbx.Up? && HolderKnows(f, pbx, p) && 1 <= Rank(p.pc) <= 7
    ensures GoesOn(f, pbx, p, render)
  {
    hide RestartOwed, RtpOwed, FileStep, IceStep, ReadStep;
  }

  /** An accepted step goes on, or leaves with both markers cleared. */
  lemma AcceptedStep(f: Files, pbx: Pbx, p: Process, render: Render)
    requires pbx.Up? && HolderKnows(f, pbx, p) && Holds(p) && !IsBoot(p.pc)
    ensures GoesOn(f, pbx, p, render)
  {
    hide GoesOn, HolderKnows;
    if Rank(p.pc) > 7 {
      AcceptedFileStep(f, pbx, p, render);
    } else {
      AcceptedCall(f, pbx, p, render);
    }
  }

  lemma {:induction false} Finishes(w: World, id: nat, render: Render) returns (actions: seq<Action>, w': World)
    requires Inv(w) && w.pbx.Up? && id in w.processes && Holds(w.processes[id]) && !IsBoot(w.processes[id].pc)
    ensures Run(w, actions, true) == Some(w') && Inv(w')
    ensures w'.lock.None? && w'.pbx.Up? && !Pending(w'.files)
    decreases Rank(w.processes[id].pc)
  {
    hide WorkStep, NothingLost, HolderKnows, Pending;
    var a := Work(id, render, Accepted);
    AcceptedStep(w.files, w.pbx, w.processes[id], render);
    DoKeeps(w, a);
    var w1 := Do(w, a, true).value;
    if w1.processes[id].pc == Idle {
      actions, w' := [a], w1;
      assert actions[1..] == [];
    } else {
      var rest;
      rest, w' := Finishes(w1, id, render);
      actions := [a] + rest;
      assert actions[1..] == rest;
    }
  }

  /** A retry whose calls are all accepted leaves no marker: what Asterisk does not run yet awaits a queued restart. */
  lemma RetrySettles(w: World, id: nat, render: Render) returns (actions: seq<Action>, w': World)
    requires Inv(w) && w.pbx.Up? && w.lock.None? && id in w.processes && w.processes[id].pc == Idle && Pending(w.files)
    ensures Run(w, actions, true) == Some(w') && Inv(w')
    ensures !Pending(w'.files) && w'.lock.None? && w'.pbx.Up?
    ensures RestartOwed(w'.files, w'.pbx) ==> Queued(w'.pbx)
    ensures !RtpOwed(w'.files, w'.pbx)
  {
    hide WorkStep, HolderKnows, RestartOwed, RtpOwed;
    var w1 := Do(w, Ask(id, true), true).value;
    DoKeeps(w, Ask(id, true));
    var w2 := Do(w1, Acquire(id), true).value;
    DoKeeps(w1, Acquire(id));
    var rest;
    rest, w' := Finishes(w2, id, render);
    actions := [Ask(id, true), Acquire(id)] + rest;
    assert actions[1..] == [Acquire(id)] + rest && ([Acquire(id)] + rest)[1..] == rest;
    assert Run(w1, [Acquire(id)] + rest, true) == Some(w');
  }

  // ---------------------------------------------------------------- what is not remembered

  /** An edit that needs plain reloads only is not remembered: where one of them fails, no marker stands, and
      `retry_pending` does nothing. */
  lemma PlainReloadIsNotRetried(w: World, id: nat, other: nat, render: Render, reached: bool)
    requires Inv(w) && id in w.processes && Plain(w.processes[id].pc)
    ensures var w' := Do(w, Work(id, render, Failed(reached)), true);
            && w'.Some? && w'.value.files == w.files && w'.value.processes[id].pc == Idle
            && !Pending(w'.value.files) && Do(w'.value, Ask(other, true), true).None?
  {
    assert HolderKnows(w.files, w.pbx, w.processes[id]);
  }
}
