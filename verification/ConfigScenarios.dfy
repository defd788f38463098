/** Runs of the configuration writers, from a directory and an Asterisk that nothing has happened to yet. */
module ConfigScenarios {
  import opened Wrappers
  import opened ConfigSync

  const EMPTY: Files := Files("", map[], map[], "", "", "", None, false, false)

  const READY: Process := Process(Idle, false, Render("", map[], "", "", ""), false)

  /** Two workers and a boot helper, none of which has done anything. */
  const START: World := World(EMPTY, Down, None, map[1 := READY, 2 := READY, 3 := READY])

  lemma StartIsFresh()
    ensures Fresh(START)
  {}

  // ---------------------------------------------------------------- running on

  lemma {:induction false} RunSum(w: World, s: seq<Action>, t: seq<Action>, locking: bool)
    ensures Run(w, s + t, locking) == match Run(w, s, locking) case None => None case Some(w') => Run(w', t, locking)
    decreases |s|
  {
    hide Do;
    if s == [] {
      assert s + t == t;
    } else {
      assert (s + t)[1..] == s[1..] + t;
      if Do(w, s[0], locking).Some? { RunSum(Do(w, s[0], locking).value, s[1..], t, locking); }
    }
  }

  /** From one world to another by these actions. */
  predicate Leads(w: World, s: seq<Action>, w': World, locking: bool) { Run(w, s, locking) == Some(w') }

  lemma LeadsThen(w: World, s: seq<Action>, w1: World, t: seq<Action>, w2: World, locking: bool)
    requires Leads(w, s, w1, locking) && Leads(w1, t, w2, locking)
    ensures Leads(w, s + t, w2, locking)
  {
    RunSum(w, s, t, locking);
  }

  lemma LeadsOne(w: World, a: Action, w1: World, locking: bool)
    requires Do(w, a, locking) == Some(w1)
    ensures Leads(w, [a], w1, locking)
  {
    hide Do;
    assert [a][1..] == [] && Run(w1, [], locking) == Some(w1);
    assert Run(w, [a], locking) == Run(w1, [a][1..], locking);
  }

  /** Asterisk starts and reads what is on disk. */
  const BOOT: seq<Action> := [StartUp, ReadNext, ReadNext, ReadNext, ReadNext, ReadNext, ReadNext]

  lemma BootsUp(w: World, locking: bool)
    requires w.pbx == Down && forall id :: id in w.processes ==> !IsBoot(w.processes[id].pc)
    ensures var f := w.files;
            Leads(w, BOOT, w.(pbx := Up(Loaded(f.transports, f.endpoints, f.ice, f.voicemail, f.dialplan), false)), locking)
  {
    hide Run;
    var f := w.files;
    var w0 := w.(pbx := Booting(NOTHING, 0));
    LeadsOne(w, StartUp, w0, locking);
    var l1 := NOTHING.(transports := f.transports);
    var l2 := l1.(endpoints := f.endpoints);
    var l3 := l2.(ice := f.ice);
    var l4 := l3.(voicemail := f.voicemail);
    var l5 := l4.(dialplan := f.dialplan);
    var r := [ReadNext];
    ReadsNext(w0, w, [StartUp], locking);
    ReadsNext(w.(pbx := Booting(l1, 1)), w, [StartUp] + r, locking);
    ReadsNext(w.(pbx := Booting(l2, 2)), w, [StartUp] + r + r, locking);
    ReadsNext(w.(pbx := Booting(l3, 3)), w, [StartUp] + r + r + r, locking);
    ReadsNext(w.(pbx := Booting(l4, 4)), w, [StartUp] + r + r + r + r, locking);
    ReadsNext(w.(pbx := Booting(l5, 5)), w, [StartUp] + r + r + r + r + r, locking);
    assert BOOT == [StartUp] + r + r + r + r + r + r;
    assert l5 == Loaded(f.transports, f.endpoints, f.ice, f.voicemail, f.dialplan);
  }

  lemma ReadsNext(at: World, start: World, so: seq<Action>, locking: bool)
    requires at.pbx.Booting? && Leads(start, so, at, locking)
    ensures Do(at, ReadNext, locking).Some? && Leads(start, so + [ReadNext], Do(at, ReadNext, locking).value, locking)
  {
    LeadsOne(at, ReadNext, Do(at, ReadNext, locking).value, locking);
    LeadsThen(start, so, at, [ReadNext], Do(at, ReadNext, locking).value, locking);
  }

  function Accept(id: nat, render: Render): Action { Work(id, render, Accepted) }

  lemma WorkIs(w: World, id: nat, render: Render, locking: bool)
    requires id in w.processes && Holds(w.processes[id]) && !IsBoot(w.processes[id].pc)
    ensures var (f, pbx, p) := WorkStep(w.files, w.pbx, w.processes[id], render, Accepted);
            var w1 := World(f, pbx, Release(w, id, p), w.processes[id := p]);
            Leads(w, [Accept(id, render)], w1, locking)
  {
    hide WorkStep, Run;
    LeadsOne(w, Accept(id, render), Do(w, Accept(id, render), locking).value, locking);
  }

  /** A process of this world, at one point of its work. */
  function At(w: World, f: Files, id: nat, pc: Pc, render: Render): World {
    World(f, w.pbx, Some(id), w.processes[id := Process(pc, false, render, false)])
  }

  /** Two more steps of one process, after which the first leaves no trace in the process table. */
  lemma WorksOn(w: World, f: Files, pc: Pc, f': Files, pc': Pc, id: nat, render: Render, start: World, so: seq<Action>, locking: bool)
    requires Leads(start, so, At(w, f, id, pc, render), locking)
    requires WorkStep(f, w.pbx, Process(pc, false, render, false), render, Accepted) == (f', w.pbx, Process(pc', false, render, false))
    requires pc != Idle && pc != Asking && !IsBoot(pc) && pc' != Idle && pc' != Asking
    ensures Leads(start, so + [Accept(id, render)], At(w, f', id, pc', render), locking)
  {
    hide WorkStep, Run;
    var here, there := At(w, f, id, pc, render), At(w, f', id, pc', render);
    WorkIs(here, id, render, locking);
    assert here.processes[id := Process(pc', false, render, false)] == there.processes;
    LeadsThen(start, so, here, [Accept(id, render)], there, locking);
  }

  /** The first steps of a writer that changes neither transports nor dropped sections: up to comparing the ICE maps. */
  function Opening(id: nat, render: Render): seq<Action> {
    [Ask(id, false), Acquire(id)] + [Accept(id, render)] + [Accept(id, render)] + [Accept(id, render)]
  }

  predicate Quiet(f: Files, render: Render) {
    render.transports == f.transports && f.endpoints == map[] && !f.restartMarker
  }

  lemma Opens(w: World, id: nat, render: Render, locking: bool)
    requires id in w.processes && w.processes[id].pc == Idle && (locking ==> w.lock.None?) && Quiet(w.files, render)
    ensures Leads(w, Opening(id, render), At(w, w.files.(public := render.public), id, MappingIce, render), locking)
  {
    var p := w.processes[id];
    var w1 := w.(processes := w.processes[id := p.(pc := Asking, onlyPending := false)]);
    var w2 := World(w.files, w.pbx, Some(id), w.processes[id := Process(Reading, false, p.render, p.restartNeeded)]);
    LeadsOne(w, Ask(id, false), w1, locking);
    assert w1.processes[id := Process(Reading, false, p.render, p.restartNeeded)] == w2.processes;
    LeadsOne(w1, Acquire(id), w2, locking);
    LeadsThen(w, [Ask(id, false)], w1, [Acquire(id)], w2, locking);
    assert [Ask(id, false)] + [Acquire(id)] == [Ask(id, false), Acquire(id)];
    Reads(w, w2, id, render, locking);
    WorksOn(w, w.files, Marking, w.files, Publishing, id, render, w, [Ask(id, false), Acquire(id)] + [Accept(id, render)], locking);
    WorksOn(w, w.files, Publishing, w.files.(public := render.public), MappingIce, id, render, w,
            [Ask(id, false), Acquire(id)] + [Accept(id, render)] + [Accept(id, render)], locking);
  }

  lemma Reads(w: World, w2: World, id: nat, render: Render, locking: bool)
    requires Leads(w, [Ask(id, false), Acquire(id)], w2, locking) && Quiet(w.files, render)
    requires w2.files == w.files && w2.pbx == w.pbx && w2.lock == Some(id) && id in w2.processes
    requires w2.processes[id].pc == Reading && !w2.processes[id].onlyPending && w2.processes == w.processes[id := w2.processes[id]]
    ensures Leads(w, [Ask(id, false), Acquire(id)] + [Accept(id, render)], At(w, w.files, id, Marking, render), locking)
  {
    hide Run;
    WorkIs(w2, id, render, locking);
    assert w2.processes[id := Process(Marking, false, render, false)] == w.processes[id := Process(Marking, false, render, false)];
    assert w.files.endpoints.Keys - render.endpoints.Keys == {};
    LeadsThen(w, [Ask(id, false), Acquire(id)], w2, [Accept(id, render)], At(w, w.files, id, Marking, render), locking);
  }

  function Written(f: Files, render: Render): Files {
    f.(transports := render.transports, endpoints := render.endpoints, dialplan := render.dialplan, voicemail := render.voicemail)
  }

  /** The four files are written. */
  lemma WritesFiles(w: World, f: Files, id: nat, render: Render, start: World, so: seq<Action>, locking: bool)
    requires Leads(start, so, At(w, f, id, WritingTransports, render), locking)
    ensures var step := [Accept(id, render)];
            Leads(start, so + step + step + step + step, At(w, Written(f, render), id, ReloadingRtp, render), locking)
  {
    hide Run;
    var f1 := f.(transports := render.transports);
    var f2 := f1.(endpoints := render.endpoints);
    var f3 := f2.(dialplan := render.dialplan);
    var step := [Accept(id, render)];
    WorksOn(w, f, WritingTransports, f1, WritingEndpoints, id, render, start, so, locking);
    WorksOn(w, f1, WritingEndpoints, f2, WritingDialplan, id, render, start, so + step, locking);
    WorksOn(w, f2, WritingDialplan, f3, WritingVoicemail, id, render, start, so + step + step, locking);
    WorksOn(w, f3, WritingVoicemail, Written(f, render), ReloadingRtp, id, render, start, so + step + step + step, locking);
  }

  // ---------------------------------------------------------------- an edit that is forgotten

  const EDIT: Render := Render("", map[], "", "", "new")

  /**
   * From a fresh start: Asterisk boots, a worker writes a new dial plan, and the last of its plain reloads does
   * not reach Asterisk. The dial plan on disk is new, the one in Asterisk old, and nothing is owed or queued.
   */
  lemma EditCanBeForgotten() returns (actions: seq<Action>, w: World)
    ensures Fresh(START) && Leads(START, actions, w, true)
    ensures w.pbx.Up? && w.pbx.loaded.dialplan != w.files.dialplan
    ensures !Pending(w.files) && !Queued(w.pbx) && w.lock.None?
  {
    hide Run, WorkStep;
    StartIsFresh();
    var step := [Accept(1, EDIT)];
    var up := START.(pbx := Up(NOTHING, false));
    BootsUp(START, true);
    Opens(up, 1, EDIT, true);
    LeadsThen(START, BOOT, up, Opening(1, EDIT), At(up, EMPTY, 1, MappingIce, EDIT), true);
    actions := BOOT + Opening(1, EDIT);
    ComparesEqual(up, actions);
    WritesFiles(up, EMPTY, 1, EDIT, START, actions + step, true);
    actions := actions + step + step + step + step + step;
    var f := Written(EMPTY, EDIT);
    ReloadsTwo(up, f, actions);
    actions := actions + step + step + step;
    EditedKeys(up, f);
    var last := At(up, f, 1, ReloadingVoicemail, EDIT);
    WorksOnVoicemail(up, f, actions);
    actions := actions + step;
    w := LeavesDialplan(up, f, actions);
    actions := actions + [Work(1, EDIT, Failed(false))];
  }

  lemma ComparesEqual(up: World, so: seq<Action>)
    requires Leads(START, so, At(up, EMPTY, 1, MappingIce, EDIT), true)
    ensures Leads(START, so + [Accept(1, EDIT)], At(up, EMPTY, 1, WritingTransports, EDIT), true)
  {
    hide Run;
    WorksOn(up, EMPTY, MappingIce, EMPTY, WritingTransports, 1, EDIT, START, so, true);
  }

  lemma ReloadsTwo(up: World, f: Files, so: seq<Action>)
    requires up.pbx == Up(NOTHING, false) && f == Written(EMPTY, EDIT) && Leads(START, so, At(up, f, 1, ReloadingRtp, EDIT), true)
    ensures var step := [Accept(1, EDIT)]; Leads(START, so + step + step + step, At(up, f, 1, ReloadingVoicemail, EDIT), true)
  {
    hide Run;
    var step := [Accept(1, EDIT)];
    WorksOn(up, f, ReloadingRtp, f, Restarting, 1, EDIT, START, so, true);
    WorksOn(up, f, Restarting, f, ReloadingEndpoints, 1, EDIT, START, so + step, true);
    EditedKeys(up, f);
    WorksOn(up, f, ReloadingEndpoints, f, ReloadingVoicemail, 1, EDIT, START, so + step + step, true);
  }

  lemma EditedKeys(up: World, f: Files)
    requires up.pbx == Up(NOTHING, false) && f == Written(EMPTY, EDIT)
    ensures up.pbx.(loaded := up.pbx.loaded.(endpoints := up.pbx.loaded.endpoints + f.endpoints)) == up.pbx
  {
    assert up.pbx.loaded.endpoints + f.endpoints == map[];
  }

  lemma WorksOnVoicemail(up: World, f: Files, so: seq<Action>)
    requires up.pbx == Up(NOTHING, false) && f == Written(EMPTY, EDIT) && Leads(START, so, At(up, f, 1, ReloadingVoicemail, EDIT), true)
    ensures Leads(START, so + [Accept(1, EDIT)], At(up, f, 1, ReloadingDialplan, EDIT), true)
  {
    hide Run;
    WorksOn(up, f, ReloadingVoicemail, f, ReloadingDialplan, 1, EDIT, START, so, true);
  }

  lemma LeavesDialplan(up: World, f: Files, so: seq<Action>) returns (w: World)
    requires up.pbx == Up(NOTHING, false) && f == Written(EMPTY, EDIT) && Leads(START, so, At(up, f, 1, ReloadingDialplan, EDIT), true)
    ensures Leads(START, so + [Work(1, EDIT, Failed(false))], w, true)
    ensures w.pbx == up.pbx && w.files == f && w.lock.None?
  {
    hide Run;
    var last := At(up, f, 1, ReloadingDialplan, EDIT);
    w := Do(last, Work(1, EDIT, Failed(false)), true).value;
    LeadsOne(last, Work(1, EDIT, Failed(false)), w, true);
    LeadsThen(START, so, last, [Work(1, EDIT, Failed(false))], w, true);
  }

  // ---------------------------------------------------------------- why the lock is needed

  const HERE: set<string> := {"172.22.0.4"}
  const FIRST: Render := Render("", map[], "198.51.100.1", "", "")
  const SECOND: Render := Render("", map[], "198.51.100.2", "", "")

  const STARTED: World := World(EMPTY.(locals := Some(HERE)), Up(NOTHING, false), None, map[1 := READY, 2 := READY, 3 := READY])

  const HELPED: World := World(EMPTY.(locals := Some(HERE)), Down, None, START.processes)

  /** The helper took the lock, and then wrote the container's addresses down. */
  const LOCKED: World := START.(lock := Some(3), processes := START.processes[3 := AtPc(READY, BootLocals)])
  const PUBLISHED: World := World(EMPTY.(locals := Some(HERE)), Down, Some(3), START.processes[3 := AtPc(READY, BootIce)])

  lemma HelperLocks()
    ensures Leads(START, [BootHelper(3)], LOCKED, false)
  {
    hide Run;
    LeadsOne(START, BootHelper(3), LOCKED, false);
  }

  lemma HelperWrites()
    ensures Leads(LOCKED, [BootWork(3, HERE, false)], PUBLISHED, false)
  {
    hide Run;
    assert LOCKED.processes[3 := AtPc(READY, BootIce)] == PUBLISHED.processes;
    LeadsOne(LOCKED, BootWork(3, HERE, false), PUBLISHED, false);
  }

  lemma HelperLeaves()
    ensures Leads(PUBLISHED, [BootWork(3, HERE, false)], HELPED, false)
  {
    hide Run;
    assert PUBLISHED.processes[3 := READY] == HELPED.processes;
    assert IceFor(HERE, "") == map[];
    LeadsOne(PUBLISHED, BootWork(3, HERE, false), HELPED, false);
  }

  /** The boot helper publishes the container's address while Asterisk is down. */
  lemma HelperPublishes()
    ensures Leads(START, [BootHelper(3), BootWork(3, HERE, false), BootWork(3, HERE, false)], HELPED, false)
  {
    hide Leads;
    HelperLocks();
    HelperWrites();
    HelperLeaves();
    LeadsThen(START, [BootHelper(3)], LOCKED, [BootWork(3, HERE, false)], PUBLISHED, false);
    LeadsThen(START, [BootHelper(3)] + [BootWork(3, HERE, false)], PUBLISHED, [BootWork(3, HERE, false)], HELPED, false);
    assert [BootHelper(3)] + [BootWork(3, HERE, false)] + [BootWork(3, HERE, false)] == [BootHelper(3), BootWork(3, HERE, false), BootWork(3, HERE, false)];
  }

  lemma HelperAndBoot()
    ensures Leads(START, [BootHelper(3), BootWork(3, HERE, false), BootWork(3, HERE, false)] + BOOT, STARTED, false)
  {
    hide Run;
    HelperPublishes();
    BootsUp(HELPED, false);
    LeadsThen(START, [BootHelper(3), BootWork(3, HERE, false), BootWork(3, HERE, false)], HELPED, BOOT, STARTED, false);
  }

  lemma MapsDiffer()
    ensures IceFor(HERE, FIRST.public) != IceFor(HERE, SECOND.public) && IceFor(HERE, FIRST.public) != map[]
  {
    assert "172.22.0.4" in IceFor(HERE, FIRST.public) && "172.22.0.4" in IceFor(HERE, SECOND.public);
    assert IceFor(HERE, FIRST.public)["172.22.0.4"] == FIRST.public && IceFor(HERE, SECOND.public)["172.22.0.4"] == SECOND.public;
    assert FIRST.public[|FIRST.public| - 1] != SECOND.public[|SECOND.public| - 1];
  }

  /** The first writer publishes a new address, maps it under its marker, and has it reloaded; the marker still stands. */
  function FirstFiles(): Files {
    EMPTY.(locals := Some(HERE), public := FIRST.public, ice := IceFor(HERE, FIRST.public), rtpMarker := true)
  }

  function FirstDone(): World {
    World(FirstFiles(), Up(NOTHING.(ice := IceFor(HERE, FIRST.public)), false), Some(1), STARTED.processes[1 := Process(ClearingRtp, false, FIRST, false)])
  }

  lemma FirstWriter(so: seq<Action>) returns (actions: seq<Action>)
    requires Leads(START, so, STARTED, false)
    ensures Leads(START, actions, FirstDone(), false)
  {
    hide Run, IceFor;
    MapsDiffer();
    var step := [Accept(1, FIRST)];
    var f := STARTED.files.(public := FIRST.public);
    Opens(STARTED, 1, FIRST, false);
    actions := so + Opening(1, FIRST);
    LeadsThen(START, so, STARTED, Opening(1, FIRST), At(STARTED, f, 1, MappingIce, FIRST), false);
    var marked := f.(rtpMarker := true);
    WorksOn(STARTED, f, MappingIce, marked, WritingIce, 1, FIRST, START, actions, false);
    WorksOn(STARTED, marked, WritingIce, FirstFiles(), WritingTransports, 1, FIRST, START, actions + step, false);
    WritesFiles(STARTED, FirstFiles(), 1, FIRST, START, actions + step + step, false);
    assert Written(FirstFiles(), FIRST) == FirstFiles();
    actions := actions + step + step + step + step + step + step;
    var here := At(STARTED, FirstFiles(), 1, ReloadingRtp, FIRST);
    WorkIs(here, 1, FIRST, false);
    assert here.processes[1 := Process(ClearingRtp, false, FIRST, false)] == FirstDone().processes;
    LeadsThen(START, actions, here, step, FirstDone(), false);
    actions := actions + step;
  }

  /**
   * Without the lock, from a fresh start: a second writer that does not wait marks and writes a newer map, the
   * first then clears the marker as its own, and the owed RTP reload is lost.
   */
  lemma LockIsNeeded() returns (actions: seq<Action>, w: World)
    ensures Fresh(START) && Leads(START, actions, w, false)
    ensures RtpOwed(w.files, w.pbx) && !w.files.rtpMarker
  {
    hide Run, IceFor, WorkStep;
    StartIsFresh();
    HelperAndBoot();
    var done := FirstDone();
    actions := FirstWriter([BootHelper(3), BootWork(3, HERE, false), BootWork(3, HERE, false)] + BOOT);
    var f := FirstFiles().(public := SECOND.public);
    Opens(done, 2, SECOND, false);
    LeadsThen(START, actions, done, Opening(2, SECOND), At(done, f, 2, MappingIce, SECOND), false);
    actions := actions + Opening(2, SECOND);
    w := ClearsTheOther(done, f, actions);
    actions := actions + [Accept(2, SECOND)] + [Accept(2, SECOND)] + [Accept(1, FIRST)];
  }

  lemma ClearsTheOther(done: World, f: Files, so: seq<Action>) returns (w: World)
    requires done == FirstDone() && f == FirstFiles().(public := SECOND.public)
    requires Leads(START, so, At(done, f, 2, MappingIce, SECOND), false)
    ensures Leads(START, so + [Accept(2, SECOND)] + [Accept(2, SECOND)] + [Accept(1, FIRST)], w, false)
    ensures RtpOwed(w.files, w.pbx) && !w.files.rtpMarker
  {
    hide Run, IceFor;
    MapsDiffer();
    WorksOn(done, f, MappingIce, f, WritingIce, 2, SECOND, START, so, false);
    var newer := f.(ice := IceFor(HERE, SECOND.public));
    WorksOn(done, f, WritingIce, newer, WritingTransports, 2, SECOND, START, so + [Accept(2, SECOND)], false);
    var here := At(done, newer, 2, WritingTransports, SECOND);
    WorkIs(here, 1, FIRST, false);
    w := Do(here, Accept(1, FIRST), false).value;
    LeadsOne(here, Accept(1, FIRST), w, false);
    LeadsThen(START, so + [Accept(2, SECOND)] + [Accept(2, SECOND)], here, [Accept(1, FIRST)], w, false);
  }
}
