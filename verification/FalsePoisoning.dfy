/** No allocation is condemned while its VM is alive. */
module FalsePoisoning {
  import opened Names
  import opened Runtime
  import opened Tasks
  import opened Machine
  import opened References
  import Agreement
  import Poison

  // ----- One task: an unfinished goroutine is backed by a reference -----

  predicate PastWaiting(pc: DestroyPc) {
    !pc.Killing? && !pc.Waiting?
  }

  predicate Backed(i: Info) {
    && (i.handle.Some? && Undecided(i.handle.value) ==> HoldsFor(i, i.handle.value.task.alloc))
    && (i.handle.Some? ==> !i.handle.value.sawDead)
    && (i.destroy.Some? && PastWaiting(i.destroy.value) ==> i.handle.Some? && i.handle.value.exit.Some?)
  }

  lemma BackedByStart(i: Info, a: StartAct)
    requires Ok(i) && FailsEarly(i) && Backed(i) && CanStart(i, a) && !a.EncodeFails?
    ensures Backed(AfterStart(i, a))
  {
  }

  lemma BackedByMonitor(i: Info, a: MonitorAct)
    requires Ok(i) && Backed(i) && CanMonitor(i, a) && !(a.Probe? && ConcludesDead(a.reading))
    ensures Backed(AfterMonitor(i, a))
  {
    HoldingByMonitorAny(i, a);
  }

  lemma HoldingByMonitorAny(i: Info, a: MonitorAct)
    requires Ok(i) && CanMonitor(i, a)
    ensures var h, j := i.handle.value, AfterMonitor(i, a);
            && HoldsFor(j, h.task.alloc) == HoldsFor(i, h.task.alloc)
            && j.handle.Some? && j.handle.value.task == h.task && j.destroy == i.destroy
            && (Undecided(j.handle.value) ==> Undecided(h))
            && (h.exit.Some? ==> j.handle.value.exit.Some?)
  {
  }

  lemma BackedByDestroy(i: Info, a: DestroyAct)
    requires Ok(i) && Backed(i) && CanDestroy(i, a) && !a.GiveUp?
    ensures Backed(AfterDestroy(i, a))
  {
    assert HandleOk(i.handle.value);
  }

  lemma BackedByRelease(i: Info, c: Caller, a: ReleaseAct)
    requires Ok(i) && FailsEarly(i) && Backed(i) && CanRelease(i, c, a)
    ensures Backed(AfterRelease(i, c, a))
  {
    if i.handle.Some? {
      assert HandleOk(i.handle.value);
    }
  }

  lemma BackedAfter(i: Info, a: Act)
    requires Ok(i) && FailsEarly(i) && Backed(i) && Can(i, a)
    requires a != Start(EncodeFails) && a != Destroy(GiveUp)
            && !(a.Monitor? && a.monitor.Probe? && ConcludesDead(a.monitor.reading))
    ensures Backed(After(i, a))
  {
    match a
    case Start(b) => BackedByStart(i, b);
    case Monitor(b) => BackedByMonitor(i, b);
    case Destroy(b) => BackedByDestroy(i, b);
    case Release(c, b) => BackedByRelease(i, c, b);
    case Create(b) =>
    case Recover(b) =>
  }

  // ----- Faults of one allocation -----

  /** A step that is a fault, and of this allocation: its VM dies by itself, or for one of its tasks
      a forced destroy stops waiting, the driver state cannot be encoded, or a probe of the live
      sandbox fails with a closed transport. */
  predicate Faulty(s: State, l: Label, alloc: string) {
    match l
    case VmDies(b) => b == alloc
    case Act(t, a) =>
      && Can(InfoOf(s, t), a) && Subject(InfoOf(s, t), a).alloc == alloc
      && (a == Destroy(GiveUp) || a == Start(EncodeFails)
          || (a == Monitor(Probe(TransportClosed)) && Up(s.store, SandboxOf(alloc))))
    case _ => false
  }

  /** Some step of the run is a fault of the allocation. */
  predicate HasFault(f: Faults, s: State, ls: seq<Label>, alloc: string)
    decreases |ls|
  {
    ls != [] && Enabled(f, s, ls[0]) && (Faulty(s, ls[0], alloc) || HasFault(f, Step(f, s, ls[0]), ls[1..], alloc))
  }

  // ----- An allocation without faults -----

  predicate BackedFor(i: Info, alloc: string) {
    i.handle.Some? && i.handle.value.task.alloc == alloc ==> Backed(i)
  }

  predicate SeenUp(st: Store, i: Info, alloc: string) {
    i.recover == Some(SeenRunning) && i.persisted.Some? && i.persisted.value.alloc == alloc ==>
      SandboxOf(alloc) in st.running
  }

  /** A booted sandbox is running. */
  predicate BootedUp(s: State, alloc: string) {
    Agreement.Booted(s, alloc) ==> SandboxOf(alloc) in s.store.running
  }

  predicate Live(s: State, alloc: string) {
    && alloc !in s.markers
    && (forall t :: t in s.tasks ==> BackedFor(s.tasks[t], alloc) && SeenUp(s.store, s.tasks[t], alloc))
    && BootedUp(s, alloc)
  }

  ghost predicate Sound(s: State, alloc: string) {
    AllOk(s) && Poison.MarkersFirst(s) && Agreement.Agrees(s) && RefsOk(s, alloc) && Live(s, alloc)
  }

  /** A task that holds a reference finds its sandbox up. */
  lemma HolderFindsSandboxUp(s: State, t: string, alloc: string)
    requires Sound(s, alloc) && t in s.tasks && HoldsFor(s.tasks[t], alloc)
    ensures Up(s.store, SandboxOf(alloc))
  {
    assert t in Holders(s.tasks, alloc);
    assert alloc in s.sandboxes && !TearingOf(s.lock, alloc);
    assert Agreement.Booted(s, alloc);
    assert Agreement.IntactAt(s.store, s.lock, alloc in s.sandboxes, alloc);
  }

  /** So what recordExit reads never makes it conclude that the sandbox is dead. */
  lemma ProbeFindsSandboxUp(f: Faults, s: State, t: string, reading: Reading, alloc: string)
    requires Sound(s, alloc) && Enabled(f, s, Act(t, Monitor(Probe(reading))))
    requires InfoOf(s, t).handle.value.task.alloc == alloc && !Faulty(s, Act(t, Monitor(Probe(reading))), alloc)
    ensures !ConcludesDead(reading)
  {
    var i := InfoOf(s, t);
    assert Ok(i) && HandleOk(i.handle.value) && BackedFor(i, alloc) && Undecided(i.handle.value);
    HolderFindsSandboxUp(s, t, alloc);
  }

  /** Does the action stop the VM of its allocation? */
  predicate StopsVm(a: Act) {
    Agreement.SweepingAct(a) || (a.Release? && a.release.TearHalt?)
  }

  lemma VmKept(f: Faults, s: State, t: string, r: TaskRecord, a: Act, alloc: string)
    requires WellFormedRecord(r) && Permitted(f, s, t, r, a) && (alloc != r.alloc || !StopsVm(a))
    requires SandboxOf(alloc) in s.store.running
    ensures SandboxOf(alloc) in StoreAfter(s.store, r, a).running
  {
    if alloc != r.alloc {
      Agreement.StoreElsewhere(s.store, r, a, alloc);
    } else {
      match a
      case Create(b) =>
      case Release(c, b) =>
      case Monitor(b) =>
      case _ => Agreement.StoreOfTask(s.store, r, a, alloc);
    }
  }

  lemma UpHere(f: Faults, s: State, t: string, r: TaskRecord, a: Act)
    requires WellFormedRecord(r) && Permitted(f, s, t, r, a) && !Agreement.SweepingAct(a)
    requires Agreement.Booted(s, r.alloc) || a == Recover(RecoverNew) ==> SandboxOf(r.alloc) in s.store.running
    requires Agreement.Booted(s.(lock := LockAfter(s.lock, t, r, a), sandboxes := SandboxesAfter(s.sandboxes, r, a)), r.alloc)
    ensures SandboxOf(r.alloc) in StoreAfter(s.store, r, a).running
  {
    if a != Create(BootVm) {
      if a != Recover(RecoverNew) {
        BootedBefore(f, s, t, r, a);
      }
      VmKept(f, s, t, r, a, r.alloc);
    }
  }

  lemma BootedBefore(f: Faults, s: State, t: string, r: TaskRecord, a: Act)
    requires Permitted(f, s, t, r, a) && a != Create(BootVm) && a != Recover(RecoverNew)
    requires Agreement.Booted(s.(lock := LockAfter(s.lock, t, r, a), sandboxes := SandboxesAfter(s.sandboxes, r, a)), r.alloc)
    ensures Agreement.Booted(s, r.alloc)
  {
    match a
    case Start(b) =>
    case Create(b) =>
    case Release(c, b) =>
    case _ =>
  }

  lemma NoSweep(i: Info, a: Act)
    requires Ok(i) && Backed(i) && Can(i, a)
    ensures !Agreement.SweepingAct(a) && a != Monitor(WriteMarker)
  {
    if i.handle.Some? {
      assert HandleOk(i.handle.value);
    }
  }

  lemma CallerTouched(touched: set<string>, i: Info, a: Act)
    requires Ok(i) && Can(i, a) && a.Release? && Agreement.Touching(touched, i)
    ensures Subject(i, a).alloc in touched
  {
  }

  /** An action of another allocation. */
  lemma LiveElsewhere(f: Faults, s: State, t: string, a: Act, alloc: string)
    requires AllOk(s) && Live(s, alloc) && ActEnabled(f, s, t, a) && Subject(InfoOf(s, t), a).alloc != alloc
    ensures Live(ActStep(f, s, t, a), alloc)
  {
    var i := InfoOf(s, t);
    var s' := ActStep(f, s, t, a);
    BootedUpElsewhere(f, s, t, a, alloc);
    EntryElsewhere(i, a, alloc);
    forall u | u in s'.tasks
      ensures BackedFor(s'.tasks[u], alloc) && SeenUp(s'.store, s'.tasks[u], alloc)
    {
      assert u != t ==> u in s.tasks && s'.tasks[u] == s.tasks[u];
    }
  }

  lemma BootedUpElsewhere(f: Faults, s: State, t: string, a: Act, alloc: string)
    requires AllOk(s) && ActEnabled(f, s, t, a) && Subject(InfoOf(s, t), a).alloc != alloc
    ensures var s' := ActStep(f, s, t, a);
            && (BootedUp(s, alloc) ==> BootedUp(s', alloc))
            && (SandboxOf(alloc) in s.store.running ==> SandboxOf(alloc) in s'.store.running)
            && (alloc !in s.markers ==> alloc !in s'.markers)
  {
    var r := Subject(InfoOf(s, t), a);
    SubjectWellFormed(InfoOf(s, t), a);
    Agreement.StoreElsewhere(s.store, r, a, alloc);
    Agreement.BootedActElsewhere(f, s, t, r, a, alloc);
    assert alloc !in s.markers ==> alloc !in MarkersAfter(s.markers, r, a);
  }

  lemma EntryElsewhere(i: Info, a: Act, alloc: string)
    requires Ok(i) && Can(i, a) && Subject(i, a).alloc != alloc
    ensures After(i, a).handle.Some? ==> After(i, a).handle.value.task.alloc != alloc
    ensures After(i, a).persisted.Some? ==> After(i, a).persisted.value.alloc != alloc
  {
    if a != Start(Refuse(Subject(i, a))) {
      StillBelongs(i, a);
    }
  }

  // ----- An action of the allocation itself -----

  ghost predicate OwnStep(f: Faults, s: State, t: string, a: Act, alloc: string) {
    && Sound(s, alloc) && ActEnabled(f, s, t, a) && Subject(InfoOf(s, t), a).alloc == alloc
    && !Faulty(s, Act(t, a), alloc)
  }

  lemma OwnEntry(f: Faults, s: State, t: string, a: Act, alloc: string)
    requires OwnStep(f, s, t, a, alloc)
    ensures Ok(InfoOf(s, t)) && FailsEarly(InfoOf(s, t)) && Backed(InfoOf(s, t))
    ensures WellFormedRecord(Subject(InfoOf(s, t), a)) && Agreement.Touching(s.touched, InfoOf(s, t))
    ensures SeenUp(s.store, InfoOf(s, t), alloc)
  {
    var i := InfoOf(s, t);
    SubjectWellFormed(i, a);
    BelongsToSubject(i, a);
    assert EarlyFor(i, alloc) && BackedFor(i, alloc);
  }

  lemma BootedUpOwn(f: Faults, s: State, t: string, a: Act, alloc: string)
    requires OwnStep(f, s, t, a, alloc)
    ensures BootedUp(ActStep(f, s, t, a), alloc)
  {
    var i := InfoOf(s, t);
    OwnEntry(f, s, t, a, alloc);
    NoSweep(i, a);
    if Agreement.Booted(ActStep(f, s, t, a), alloc) {
      UpHere(f, s, t, Subject(i, a), a);
    }
  }

  lemma SeenUpKept(f: Faults, s: State, t: string, a: Act, alloc: string, j: Info)
    requires OwnStep(f, s, t, a, alloc) && SeenUp(s.store, j, alloc) && Agreement.Touching(s.touched, j)
    ensures SeenUp(ActStep(f, s, t, a).store, j, alloc)
  {
    var i := InfoOf(s, t);
    OwnEntry(f, s, t, a, alloc);
    NoSweep(i, a);
    if j.recover == Some(SeenRunning) && j.persisted.Some? && j.persisted.value.alloc == alloc {
      if StopsVm(a) {
        CallerTouched(s.touched, i, a);
      }
      VmKept(f, s, t, Subject(i, a), a, alloc);
    }
  }

  lemma SeenUpOwn(f: Faults, s: State, t: string, a: Act, alloc: string)
    requires OwnStep(f, s, t, a, alloc)
    ensures SeenUp(ActStep(f, s, t, a).store, After(InfoOf(s, t), a), alloc)
  {
    var i := InfoOf(s, t);
    OwnEntry(f, s, t, a, alloc);
    if a == Recover(FindRunning) {
      var r := i.persisted.value;
      assert r == RecordOf(r.alloc, r.name);
      assert SandboxOf(r.alloc) in s.store.running;
    } else {
      Agreement.SeenRunningNew(i, a);
      SeenUpKept(f, s, t, a, alloc, i);
    }
  }

  lemma BackedOwn(f: Faults, s: State, t: string, a: Act, alloc: string)
    requires OwnStep(f, s, t, a, alloc)
    ensures Backed(After(InfoOf(s, t), a)) && alloc !in MarkersAfter(s.markers, Subject(InfoOf(s, t), a), a)
  {
    var i := InfoOf(s, t);
    OwnEntry(f, s, t, a, alloc);
    NoSweep(i, a);
    if a.Monitor? && a.monitor.Probe? {
      ProbeFindsSandboxUp(f, s, t, a.monitor.reading, alloc);
    }
    BackedAfter(i, a);
  }

  lemma LiveOwn(f: Faults, s: State, t: string, a: Act, alloc: string)
    requires OwnStep(f, s, t, a, alloc)
    ensures Live(ActStep(f, s, t, a), alloc)
  {
    var s' := ActStep(f, s, t, a);
    BackedOwn(f, s, t, a, alloc);
    BootedUpOwn(f, s, t, a, alloc);
    SeenUpOwn(f, s, t, a, alloc);
    forall u | u in s'.tasks
      ensures BackedFor(s'.tasks[u], alloc) && SeenUp(s'.store, s'.tasks[u], alloc)
    {
      if u != t {
        SeenUpKept(f, s, t, a, alloc, s.tasks[u]);
      }
    }
  }

  // ----- Runs -----

  lemma LiveStep(f: Faults, s: State, l: Label, alloc: string)
    requires Sound(s, alloc) && Enabled(f, s, l) && !Faulty(s, l, alloc)
    ensures Live(Step(f, s, l), alloc)
  {
    match l
    case Act(t, a) =>
      if Subject(InfoOf(s, t), a).alloc == alloc {
        LiveOwn(f, s, t, a, alloc);
      } else {
        LiveElsewhere(f, s, t, a, alloc);
      }
    case Crash => CrashLive(s, alloc);
    case _ => QuietLive(f, s, l, alloc);
  }

  lemma CrashLive(s: State, alloc: string)
    requires Live(s, alloc)
    ensures Live(CrashStep(s), alloc)
  {
  }

  lemma QuietLive(f: Faults, s: State, l: Label, alloc: string)
    requires Live(s, alloc) && Enabled(f, s, l) && !Faulty(s, l, alloc) && !l.Act? && !l.Crash?
    ensures Live(Step(f, s, l), alloc)
  {
    var s' := Step(f, s, l);
    assert Agreement.Booted(s', alloc) == Agreement.Booted(s, alloc);
    assert SandboxOf(alloc) in s.store.running ==> SandboxOf(alloc) in s'.store.running;
  }

  lemma SoundStep(f: Faults, s: State, l: Label, alloc: string)
    requires Sound(s, alloc) && Enabled(f, s, l) && !Faulty(s, l, alloc)
    ensures Sound(Step(f, s, l), alloc)
  {
    AllOkStep(f, s, l);
    Poison.MarkersFirstStep(f, s, l);
    Agreement.AgreesStep(f, s, l);
    RefsStep(f, s, l, alloc);
    LiveStep(f, s, l, alloc);
  }

  lemma {:induction false} SoundRun(f: Faults, s: State, ls: seq<Label>, s': State, alloc: string)
    requires Sound(s, alloc) && Run(f, s, ls, s') && !HasFault(f, s, ls, alloc)
    ensures Sound(s', alloc)
    decreases |ls|
  {
    if ls != [] {
      SoundStep(f, s, ls[0], alloc);
      SoundRun(f, Step(f, s, ls[0]), ls[1..], s', alloc);
    }
  }

  lemma SoundInitially(alloc: string)
    ensures Sound(INIT, alloc)
  {
    Agreement.AgreesInitially();
    assert Holders(INIT.tasks, alloc) == {};
  }

  /** In every run with whatever faults, crashes and recoveries included: an allocation that is marked
      dead, or that a goroutine has come to believe dead, has had a fault of its own in that run. The
      faults of other allocations, their VMs dying included, never mark it. */
  lemma MarkedByItsOwnFault(f: Faults, ls: seq<Label>, s: State, alloc: string)
    requires Run(f, INIT, ls, s)
    ensures alloc in s.markers ==> HasFault(f, INIT, ls, alloc)
    ensures (exists t :: t in s.tasks && s.tasks[t].handle.Some? && s.tasks[t].handle.value.task.alloc == alloc
                         && s.tasks[t].handle.value.sawDead) ==> HasFault(f, INIT, ls, alloc)
  {
    if !HasFault(f, INIT, ls, alloc) {
      SoundInitially(alloc);
      SoundRun(f, INIT, ls, s, alloc);
      forall t | t in s.tasks
        ensures BackedFor(s.tasks[t], alloc)
      {
      }
    }
  }

  lemma {:induction false} NoFaults(s: State, ls: seq<Label>, alloc: string)
    requires AllOk(s)
    ensures !HasFault(NO_FAULTS, s, ls, alloc)
    decreases |ls|
  {
    if ls != [] && Enabled(NO_FAULTS, s, ls[0]) {
      NoFaultyStep(s, ls[0], alloc);
      AllOkStep(NO_FAULTS, s, ls[0]);
      NoFaults(Step(NO_FAULTS, s, ls[0]), ls[1..], alloc);
    }
  }

  lemma NoFaultyStep(s: State, l: Label, alloc: string)
    requires AllOk(s) && Enabled(NO_FAULTS, s, l)
    ensures !Faulty(s, l, alloc)
  {
  }

  /** In every run, crashes and recoveries included, in which no VM dies by itself, no forced
      destroy gives up waiting, driver state can be encoded and probes of live sandboxes do not
      report a closed transport, no allocation is ever marked dead and no goroutine ever comes to
      believe its sandbox is, whatever exit codes and errors tasks return. */
  lemma NoFalsePoisoning(ls: seq<Label>, s: State)
    requires Run(NO_FAULTS, INIT, ls, s)
    ensures s.markers == {}
    ensures forall t :: t in s.tasks && s.tasks[t].handle.Some? ==> !s.tasks[t].handle.value.sawDead
  {
    forall alloc
      ensures alloc !in s.markers
    {
      NoFaults(INIT, ls, alloc);
      MarkedByItsOwnFault(NO_FAULTS, ls, s, alloc);
    }
    forall t | t in s.tasks && s.tasks[t].handle.Some?
      ensures !s.tasks[t].handle.value.sawDead
    {
      NoFaults(INIT, ls, s.tasks[t].handle.value.task.alloc);
      MarkedByItsOwnFault(NO_FAULTS, ls, s, s.tasks[t].handle.value.task.alloc);
    }
  }
}
