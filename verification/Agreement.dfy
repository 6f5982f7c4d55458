/** The manager's map and containerd agree about sandboxes, although only the map is under the mutex. */
module Agreement {
  import opened Names
  import opened Runtime
  import opened Tasks
  import opened Machine
  import Poison

  // ----- Nothing is left behind -----

  /** Which sandbox resources a creation in progress has not made itself. */
  predicate NotYetMine(st: Store, c: Cid, stage: CreateStage) {
    || (c in st.containers && (stage.AtPause? || stage.AtContainer?))
    || (c in st.metadata && !(stage.AtBoot? || stage.AtPublish? || stage.AtUndoMetadata?))
    || (c in st.running && !stage.AtPublish?)
  }

  predicate TornSoFar(st: Store, c: Cid, stage: TearStage) {
    && (!stage.AtHalt? ==> c !in st.running)
    && (stage.AtDropMetadata? || stage.AtUnmap? ==> c !in st.containers)
    && (stage.AtUnmap? ==> c !in st.metadata)
  }

  predicate NoLeakAt(st: Store, lock: Lock, inMap: bool, stale: bool, alloc: string) {
    var c := SandboxOf(alloc);
    && (CreatingOf(lock, alloc) ==> !inMap && (NotYetMine(st, c, lock.stage) ==> stale))
    && (TearingOf(lock, alloc) ==> inMap && TornSoFar(st, c, lock.tear))
    && (!inMap && !CreatingOf(lock, alloc) && HasSandbox(st, alloc) ==> stale)
  }

  // ----- Nothing is missing, unless the allocation is marked dead -----

  predicate MadeSoFar(st: Store, c: Cid, stage: CreateStage) {
    && (!(stage.AtPause? || stage.AtContainer?) ==> c in st.containers)
    && (stage.AtBoot? || stage.AtPublish? || stage.AtUndoMetadata? ==> c in st.metadata)
    && (stage.AtMetadata? || stage.AtBoot? || stage.AtUndoMetadata? || stage.AtUndoContainer? ==> c !in st.running)
  }

  predicate IntactAt(st: Store, lock: Lock, inMap: bool, alloc: string) {
    && (SandboxOf(alloc) in st.running ==> SandboxIntact(st, alloc))
    && (inMap && !(TearingOf(lock, alloc) && !lock.tear.AtHalt?) ==> SandboxIntact(st, alloc))
    && (CreatingOf(lock, alloc) ==> MadeSoFar(st, SandboxOf(alloc), lock.stage))
  }

  // ----- Calls of an allocation in flight since the last restart -----

  predicate Touching(touched: set<string>, i: Info) {
    && (i.start.Some? ==> i.start.value.task.alloc in touched)
    && (i.destroy.Some? && i.handle.Some? ==> i.handle.value.task.alloc in touched)
    && (i.recover.Some? && i.persisted.Some? ==> i.persisted.value.alloc !in touched)
  }

  predicate AllTouching(s: State) {
    && (forall t :: t in s.tasks ==> Touching(s.touched, s.tasks[t]))
    && (!s.lock.Free? ==> s.lock.alloc in s.touched)
  }

  /** A task runs only inside a running VM. */
  predicate InsideVm(st: Store) {
    forall c :: c in st.running && c.TaskOf? ==> SandboxOf(c.alloc) in st.running
  }

  /** A RecoverTask call past its check has seen a task running, so the sandbox was there. */
  predicate SeenIntact(s: State, i: Info) {
    i.recover == Some(SeenRunning) && i.persisted.Some? && i.persisted.value.alloc !in s.markers
    ==> SandboxIntact(s.store, i.persisted.value.alloc)
  }

  predicate AllSeenIntact(s: State) {
    forall t :: t in s.tasks ==> SeenIntact(s, s.tasks[t])
  }

  ghost predicate NoLeaks(s: State) {
    forall a :: NoLeakAt(s.store, s.lock, a in s.sandboxes, a in s.stale, a)
  }

  ghost predicate AllIntact(s: State) {
    forall a :: a !in s.markers ==> IntactAt(s.store, s.lock, a in s.sandboxes, a)
  }

  // ----- One action, seen from one allocation -----

  /** What is stored under the sandbox ID of another allocation does not move. */
  lemma StoreElsewhere(st: Store, r: TaskRecord, a: Act, alloc: string)
    requires WellFormedRecord(r) && alloc != r.alloc
    ensures var c, st' := SandboxOf(alloc), StoreAfter(st, r, a);
            && (c in st'.containers <==> c in st.containers)
            && (c in st'.metadata <==> c in st.metadata)
            && (c in st'.running <==> c in st.running)
  {
  }

  /** The acts on the task's own container do not move what is stored under a sandbox ID. */
  lemma StoreOfTask(st: Store, r: TaskRecord, a: Act, alloc: string)
    requires WellFormedRecord(r) && (a.Start? || a.Destroy? || a.Recover? || a == Monitor(RunTask))
    ensures var c, st' := SandboxOf(alloc), StoreAfter(st, r, a);
            && (c in st'.containers <==> c in st.containers)
            && (c in st'.metadata <==> c in st.metadata)
            && (c in st'.running <==> c in st.running)
  {
  }

  lemma InsideVmAct(f: Faults, s: State, t: string, r: TaskRecord, a: Act)
    requires InsideVm(s.store) && WellFormedRecord(r) && Permitted(f, s, t, r, a)
    ensures InsideVm(StoreAfter(s.store, r, a))
  {
    match a
    case Start(b) =>
    case Create(b) =>
    case Monitor(b) =>
    case Destroy(b) =>
    case Release(c, b) =>
    case _ =>
  }

  lemma LockElsewhere(f: Faults, s: State, t: string, r: TaskRecord, a: Act, alloc: string)
    requires Permitted(f, s, t, r, a) && alloc != r.alloc
    ensures var lock' := LockAfter(s.lock, t, r, a);
            && CreatingOf(lock', alloc) == CreatingOf(s.lock, alloc)
            && TearingOf(lock', alloc) == TearingOf(s.lock, alloc)
            && (lock' == s.lock || (!CreatingOf(s.lock, alloc) && !TearingOf(s.lock, alloc)))
    ensures alloc in SandboxesAfter(s.sandboxes, r, a) <==> alloc in s.sandboxes
    ensures alloc in StaleAfter(s.stale, r, a) <==> alloc in s.stale
  {
  }

  lemma NoLeakByCreate(s: State, t: string, r: TaskRecord, a: CreateAct)
    requires WellFormedRecord(r) && CreatePermitted(s, t, r, a)
    requires NoLeakAt(s.store, s.lock, r.alloc in s.sandboxes, r.alloc in s.stale, r.alloc)
    ensures NoLeakAt(StoreAfter(s.store, r, Create(a)), LockAfter(s.lock, t, r, Create(a)),
                     r.alloc in SandboxesAfter(s.sandboxes, r, Create(a)), r.alloc in StaleAfter(s.stale, r, Create(a)), r.alloc)
  {
  }

  lemma NoLeakByRelease(s: State, t: string, r: TaskRecord, c: Caller, a: ReleaseAct)
    requires WellFormedRecord(r) && ReleasePermitted(s, t, r, c, a)
    requires NoLeakAt(s.store, s.lock, r.alloc in s.sandboxes, r.alloc in s.stale, r.alloc)
    ensures NoLeakAt(StoreAfter(s.store, r, Release(c, a)), LockAfter(s.lock, t, r, Release(c, a)),
                     r.alloc in SandboxesAfter(s.sandboxes, r, Release(c, a)), r.alloc in StaleAfter(s.stale, r, Release(c, a)), r.alloc)
  {
  }

  lemma NoLeakByMonitor(s: State, t: string, r: TaskRecord, a: MonitorAct)
    requires WellFormedRecord(r)
    requires NoLeakAt(s.store, s.lock, r.alloc in s.sandboxes, r.alloc in s.stale, r.alloc)
    ensures NoLeakAt(StoreAfter(s.store, r, Monitor(a)), s.lock, r.alloc in s.sandboxes, r.alloc in s.stale, r.alloc)
  {
  }

  lemma NoLeakAct(f: Faults, s: State, t: string, r: TaskRecord, a: Act, alloc: string)
    requires WellFormedRecord(r) && Permitted(f, s, t, r, a)
    requires NoLeakAt(s.store, s.lock, alloc in s.sandboxes, alloc in s.stale, alloc)
    ensures NoLeakAt(StoreAfter(s.store, r, a), LockAfter(s.lock, t, r, a),
                     alloc in SandboxesAfter(s.sandboxes, r, a), alloc in StaleAfter(s.stale, r, a), alloc)
  {
    if alloc != r.alloc {
      StoreElsewhere(s.store, r, a, alloc);
      LockElsewhere(f, s, t, r, a, alloc);
    } else {
      match a
      case Create(b) => NoLeakByCreate(s, t, r, b);
      case Release(c, b) => NoLeakByRelease(s, t, r, c, b);
      case Monitor(b) => NoLeakByMonitor(s, t, r, b);
      case _ => StoreOfTask(s.store, r, a, alloc);
    }
  }

  /** Sandbox resources exist only under an ID the map knows, or the creation in progress is
      making, or a restart has left behind. */
  lemma NoLeaksStep(f: Faults, s: State, l: Label)
    requires AllOk(s) && NoLeaks(s) && Enabled(f, s, l)
    ensures NoLeaks(Step(f, s, l))
  {
    var s' := Step(f, s, l);
    forall a
      ensures NoLeakAt(s'.store, s'.lock, a in s'.sandboxes, a in s'.stale, a)
    {
      assert NoLeakAt(s.store, s.lock, a in s.sandboxes, a in s.stale, a);
      match l
      case Act(t, b) =>
        SubjectWellFormed(InfoOf(s, t), b);
        NoLeakAct(f, s, t, Subject(InfoOf(s, t), b), b, a);
      case Crash => StaleAfterCrash(s, a);
      case _ =>
    }
  }

  lemma StaleAfterCrash(s: State, a: string)
    ensures HasSandbox(s.store, a) ==> a in CrashStep(s).stale
  {
    if HasSandbox(s.store, a) {
      assert SandboxOf(a) in s.store.containers + s.store.metadata + s.store.running;
      assert SandboxOf(a).alloc == a;
    }
  }

  // ----- Intact sandboxes -----

  lemma IntactByCreate(s: State, t: string, r: TaskRecord, a: CreateAct)
    requires WellFormedRecord(r) && CreatePermitted(s, t, r, a) && r.alloc !in s.sandboxes
    requires IntactAt(s.store, s.lock, r.alloc in s.sandboxes, r.alloc)
    ensures IntactAt(StoreAfter(s.store, r, Create(a)), LockAfter(s.lock, t, r, Create(a)),
                     r.alloc in SandboxesAfter(s.sandboxes, r, Create(a)), r.alloc)
  {
  }

  lemma IntactByRelease(s: State, t: string, r: TaskRecord, c: Caller, a: ReleaseAct)
    requires WellFormedRecord(r) && ReleasePermitted(s, t, r, c, a)
    requires IntactAt(s.store, s.lock, r.alloc in s.sandboxes, r.alloc)
    requires NoLeakAt(s.store, s.lock, r.alloc in s.sandboxes, r.alloc in s.stale, r.alloc)
    ensures IntactAt(StoreAfter(s.store, r, Release(c, a)), LockAfter(s.lock, t, r, Release(c, a)),
                     r.alloc in SandboxesAfter(s.sandboxes, r, Release(c, a)), r.alloc)
  {
  }

  lemma IntactByTask(f: Faults, s: State, t: string, r: TaskRecord, a: Act)
    requires WellFormedRecord(r) && Permitted(f, s, t, r, a) && (a.Start? || a.Destroy? || a == Monitor(RunTask))
    requires IntactAt(s.store, s.lock, r.alloc in s.sandboxes, r.alloc)
    ensures IntactAt(StoreAfter(s.store, r, a), LockAfter(s.lock, t, r, a), r.alloc in SandboxesAfter(s.sandboxes, r, a), r.alloc)
  {
    StoreOfTask(s.store, r, a, r.alloc);
  }

  lemma IntactByRecover(s: State, r: TaskRecord, a: RecoverAct)
    requires WellFormedRecord(r) && RecoverPermitted(s, r, a)
    requires IntactAt(s.store, s.lock, r.alloc in s.sandboxes, r.alloc)
    requires a.RecoverNew? ==> SandboxIntact(s.store, r.alloc)
    ensures IntactAt(s.store, s.lock, r.alloc in SandboxesAfter(s.sandboxes, r, Recover(a)), r.alloc)
  {
  }

  predicate SweepingAct(a: Act) {
    a.Monitor? && (a.monitor.SweepHalt? || a.monitor.SweepContainer? || a.monitor.SweepMetadata? || a.monitor.SweepProcesses?)
  }

  lemma IntactAct(f: Faults, s: State, t: string, r: TaskRecord, a: Act, alloc: string)
    requires WellFormedRecord(r) && Permitted(f, s, t, r, a) && (SweepingAct(a) ==> alloc != r.alloc)
    requires IntactAt(s.store, s.lock, alloc in s.sandboxes, alloc)
    requires NoLeakAt(s.store, s.lock, alloc in s.sandboxes, alloc in s.stale, alloc)
    requires a == Recover(RecoverNew) && alloc == r.alloc ==> SandboxIntact(s.store, alloc)
    ensures IntactAt(StoreAfter(s.store, r, a), LockAfter(s.lock, t, r, a), alloc in SandboxesAfter(s.sandboxes, r, a), alloc)
  {
    if alloc != r.alloc {
      StoreElsewhere(s.store, r, a, alloc);
      LockElsewhere(f, s, t, r, a, alloc);
    } else {
      match a
      case Create(b) => IntactByCreate(s, t, r, b);
      case Release(c, b) => IntactByRelease(s, t, r, c, b);
      case Monitor(b) => if b.RunTask? { IntactByTask(f, s, t, r, a); }
      case Recover(b) => IntactByRecover(s, r, b);
      case _ => IntactByTask(f, s, t, r, a);
    }
  }

  lemma AllIntactStep(f: Faults, s: State, l: Label)
    requires AllOk(s) && Poison.MarkersFirst(s) && NoLeaks(s) && AllIntact(s) && AllSeenIntact(s) && Enabled(f, s, l)
    ensures AllIntact(Step(f, s, l))
  {
    Poison.MarkersGrow(f, s, l);
    var s' := Step(f, s, l);
    forall a | a !in s'.markers
      ensures IntactAt(s'.store, s'.lock, a in s'.sandboxes, a)
    {
      assert IntactAt(s.store, s.lock, a in s.sandboxes, a);
      assert NoLeakAt(s.store, s.lock, a in s.sandboxes, a in s.stale, a);
      if l.Act? {
        IntactActStep(f, s, l.tid, l.act, a);
      }
    }
  }

  lemma IntactActStep(f: Faults, s: State, t: string, a: Act, alloc: string)
    requires AllOk(s) && Poison.MarkersFirst(s) && AllSeenIntact(s) && ActEnabled(f, s, t, a)
    requires IntactAt(s.store, s.lock, alloc in s.sandboxes, alloc)
    requires NoLeakAt(s.store, s.lock, alloc in s.sandboxes, alloc in s.stale, alloc) && alloc !in s.markers
    ensures var r := Subject(InfoOf(s, t), a);
            IntactAt(StoreAfter(s.store, r, a), LockAfter(s.lock, t, r, a), alloc in SandboxesAfter(s.sandboxes, r, a), alloc)
  {
    var i := InfoOf(s, t);
    SubjectWellFormed(i, a);
    SweeperMarked(i, a, s.markers);
    assert SeenIntact(s, i);
    IntactAct(f, s, t, Subject(i, a), a, alloc);
  }

  lemma SweeperMarked(i: Info, a: Act, markers: set<string>)
    requires Ok(i) && Can(i, a) && (i.handle.Some? ==> Poison.MarkerFirst(i.handle.value, markers))
    ensures SweepingAct(a) ==> Subject(i, a).alloc in markers
  {
    if SweepingAct(a) {
      assert Sweeping(i.handle.value);
    }
  }

  // ----- RecoverTask calls in flight -----

  lemma TouchingOwn(i: Info, touched: set<string>, a: Act)
    requires Ok(i) && Touching(touched, i) && Can(i, a)
    requires a == Recover(FindRunning) ==> i.persisted.value.alloc !in touched
    ensures Touching(TouchedAfter(touched, Subject(i, a), a), After(i, a))
  {
    match a
    case Start(b) => TouchingStart(i, touched, b);
    case Monitor(b) => TouchingMonitor(i, b);
    case Destroy(b) => TouchingDestroy(i, touched, b);
    case Create(b) =>
    case Release(c, b) =>
    case Recover(b) =>
  }

  lemma TouchingStart(i: Info, touched: set<string>, a: StartAct)
    requires Ok(i) && Touching(touched, i) && CanStart(i, a)
    ensures Touching(TouchedAfter(touched, Subject(i, Start(a)), Start(a)), AfterStart(i, a))
  {
  }

  lemma TouchingDestroy(i: Info, touched: set<string>, a: DestroyAct)
    requires Ok(i) && Touching(touched, i) && CanDestroy(i, a)
    ensures Touching(TouchedAfter(touched, i.handle.value.task, Destroy(a)), AfterDestroy(i, a))
  {
  }

  lemma TouchingMonitor(i: Info, a: MonitorAct)
    requires CanMonitor(i, a)
    ensures var j := AfterMonitor(i, a);
            && j.start == i.start && j.destroy == i.destroy && j.recover == i.recover && j.persisted == i.persisted
            && j.handle.Some? && j.handle.value.task == i.handle.value.task
  {
  }

  lemma TouchingOther(f: Faults, s: State, t: string, a: Act, u: string)
    requires ActEnabled(f, s, t, a) && u != t && u in s.tasks && Touching(s.touched, s.tasks[u])
    ensures Touching(ActStep(f, s, t, a).touched, s.tasks[u])
  {
  }

  lemma LockTouched(f: Faults, s: State, t: string, a: Act)
    requires Touching(s.touched, InfoOf(s, t)) && ActEnabled(f, s, t, a)
            && (!s.lock.Free? ==> s.lock.alloc in s.touched)
    ensures var s' := ActStep(f, s, t, a); !s'.lock.Free? ==> s'.lock.alloc in s'.touched
  {
    match a
    case Start(b) =>
    case Create(b) =>
    case Release(c, b) =>
    case _ =>
  }

  lemma AllTouchingStep(f: Faults, s: State, l: Label)
    requires AllOk(s) && AllTouching(s) && Enabled(f, s, l)
    ensures AllTouching(Step(f, s, l))
  {
    if l.Act? {
      var s' := Step(f, s, l);
      assert Touching(s.touched, InfoOf(s, l.tid));
      TouchingOwn(InfoOf(s, l.tid), s.touched, l.act);
      LockTouched(f, s, l.tid, l.act);
      forall u | u in s'.tasks
        ensures Touching(s'.touched, s'.tasks[u])
      {
        if u != l.tid {
          TouchingOther(f, s, l.tid, l.act, u);
        }
      }
    }
  }

  /** Start and destroy calls, the only ones to take sandbox resources away from a live sandbox,
      wait for the RecoverTask calls of their allocation. */
  lemma SeenIntactKept(f: Faults, s: State, t: string, a: Act, j: Info)
    requires AllOk(s) && Poison.MarkersFirst(s) && AllTouching(s) && ActEnabled(f, s, t, a)
    requires SeenIntact(s, j) && Touching(s.touched, j)
    ensures s.markers <= ActStep(f, s, t, a).markers ==> SeenIntact(ActStep(f, s, t, a), j)
  {
    var i := InfoOf(s, t);
    var r := Subject(i, a);
    SubjectWellFormed(i, a);
    if j.recover == Some(SeenRunning) && j.persisted.Some? && j.persisted.value.alloc !in s.markers {
      if r.alloc != j.persisted.value.alloc {
        StoreElsewhere(s.store, r, a, j.persisted.value.alloc);
      } else {
        if SweepingAct(a) {
          SweeperMarked(i, a, s.markers);
        }
        KeepsSandbox(s, i, a);
      }
    }
  }

  lemma KeepsSandbox(s: State, i: Info, a: Act)
    requires Ok(i) && Touching(s.touched, i) && Can(i, a) && !SweepingAct(a) && Subject(i, a).alloc !in s.touched
    requires SandboxIntact(s.store, Subject(i, a).alloc)
    ensures SandboxIntact(StoreAfter(s.store, Subject(i, a), a), Subject(i, a).alloc)
  {
    SubjectWellFormed(i, a);
    match a
    case Create(b) =>
    case Release(c, b) =>
    case Monitor(b) =>
    case _ => StoreOfTask(s.store, Subject(i, a), a, Subject(i, a).alloc);
  }

  lemma SeenIntactOwn(f: Faults, s: State, t: string, a: Act)
    requires AllOk(s) && Agrees(s) && Poison.MarkersFirst(s) && ActEnabled(f, s, t, a)
    requires s.markers <= ActStep(f, s, t, a).markers
    ensures SeenIntact(ActStep(f, s, t, a), After(InfoOf(s, t), a))
  {
    var i := InfoOf(s, t);
    assert SeenIntact(s, i) && Touching(s.touched, i);
    if a == Recover(FindRunning) {
      var r := i.persisted.value;
      assert r == RecordOf(r.alloc, r.name);
      assert SandboxOf(r.alloc) in s.store.running;
      assert r.alloc !in s.markers ==> IntactAt(s.store, s.lock, r.alloc in s.sandboxes, r.alloc);
    } else {
      SeenIntactKept(f, s, t, a, i);
      SeenRunningNew(i, a);
    }
  }

  lemma SeenRunningNew(i: Info, a: Act)
    requires Ok(i) && Can(i, a) && a != Recover(FindRunning)
    ensures After(i, a).recover == Some(SeenRunning)
            ==> i.recover == Some(SeenRunning) && After(i, a).persisted == i.persisted
  {
  }

  lemma AllSeenIntactStep(f: Faults, s: State, l: Label)
    requires AllOk(s) && Agrees(s) && Poison.MarkersFirst(s) && Enabled(f, s, l)
    ensures AllSeenIntact(Step(f, s, l))
  {
    Poison.MarkersGrow(f, s, l);
    if l.Act? {
      var s' := Step(f, s, l);
      SeenIntactOwn(f, s, l.tid, l.act);
      forall u | u in s'.tasks
        ensures SeenIntact(s', s'.tasks[u])
      {
        if u != l.tid {
          SeenIntactKept(f, s, l.tid, l.act, s.tasks[u]);
        }
      }
    }
  }

  // ----- The whole invariant -----

  ghost predicate Agrees(s: State) {
    NoLeaks(s) && AllIntact(s) && InsideVm(s.store) && AllSeenIntact(s) && AllTouching(s)
  }

  lemma AgreesStep(f: Faults, s: State, l: Label)
    requires AllOk(s) && Poison.MarkersFirst(s) && Agrees(s) && Enabled(f, s, l)
    ensures Agrees(Step(f, s, l))
  {
    NoLeaksStep(f, s, l);
    AllIntactStep(f, s, l);
    AllSeenIntactStep(f, s, l);
    AllTouchingStep(f, s, l);
    if l.Act? {
      SubjectWellFormed(InfoOf(s, l.tid), l.act);
      InsideVmAct(f, s, l.tid, Subject(InfoOf(s, l.tid), l.act), l.act);
    }
  }

  lemma {:induction false} AgreesRun(f: Faults, s: State, ls: seq<Label>, s': State)
    requires AllOk(s) && Poison.MarkersFirst(s) && Agrees(s) && Run(f, s, ls, s')
    ensures AllOk(s') && Poison.MarkersFirst(s') && Agrees(s')
    decreases |ls|
  {
    if ls != [] {
      AllOkStep(f, s, ls[0]);
      Poison.MarkersFirstStep(f, s, ls[0]);
      AgreesStep(f, s, ls[0]);
      AgreesRun(f, Step(f, s, ls[0]), ls[1..], s');
    }
  }

  lemma AgreesInitially()
    ensures AllOk(INIT) && Poison.MarkersFirst(INIT) && Agrees(INIT)
  {
  }

  /** Only a restart leaves a sandbox behind. */
  lemma {:induction false} NothingStale(f: Faults, s: State, ls: seq<Label>, s': State)
    requires s.stale == {} && Run(f, s, ls, s') && Crash !in ls
    ensures s'.stale == {}
    decreases |ls|
  {
    if ls != [] {
      NothingStale(f, Step(f, s, ls[0]), ls[1..], s');
    }
  }

  /** In every state of every run, whatever fails: resources exist under a sandbox ID only if the
      allocation is in the map, is being created under the mutex, or was left behind by a restart;
      and an unmarked allocation in the map has its container and metadata unless its last
      reference is being torn down. */
  lemma MapAgreesWithContainerd(f: Faults, ls: seq<Label>, s: State, alloc: string)
    requires Run(f, INIT, ls, s)
    ensures HasSandbox(s.store, alloc) ==> alloc in s.sandboxes || CreatingOf(s.lock, alloc) || alloc in s.stale
    ensures Crash !in ls ==> s.stale == {}
    ensures alloc in s.sandboxes && alloc !in s.markers && !TearingOf(s.lock, alloc) ==> SandboxIntact(s.store, alloc)
  {
    AgreesInitially();
    AgreesRun(f, INIT, ls, s);
    if Crash !in ls {
      NothingStale(f, INIT, ls, s);
    }
    assert NoLeakAt(s.store, s.lock, alloc in s.sandboxes, alloc in s.stale, alloc);
    assert alloc !in s.markers ==> IntactAt(s.store, s.lock, alloc in s.sandboxes, alloc);
  }

  // ----- Creations and teardowns -----

  /** A VM is booted for the allocation, adopted from before a restart, or shut down by Release. */
  datatype Event = Boots | Adopts | TearsDown

  predicate Happens(s: State, l: Label, alloc: string, e: Event) {
    && l.Act?
    && match e
       case Boots => l.act == Create(BootVm) && CreatingOf(s.lock, alloc)
       case Adopts =>
         && l.act == Recover(RecoverNew)
         && InfoOf(s, l.tid).persisted.Some? && InfoOf(s, l.tid).persisted.value.alloc == alloc
       case TearsDown => l.act.Release? && l.act.release.TearHalt? && TearingOf(s.lock, alloc)
  }

  function Count(f: Faults, s: State, ls: seq<Label>, alloc: string, e: Event): nat
    decreases |ls|
  {
    if ls == [] || !Enabled(f, s, ls[0]) then 0
    else One(Happens(s, ls[0], alloc, e)) + Count(f, Step(f, s, ls[0]), ls[1..], alloc, e)
  }

  /** Booted and not yet torn down by Release, as map and mutex show it. */
  predicate Booted(s: State, alloc: string) {
    || (alloc in s.sandboxes && !(TearingOf(s.lock, alloc) && !s.lock.tear.AtHalt?))
    || (CreatingOf(s.lock, alloc) && s.lock.stage.AtPublish?)
  }

  predicate LockFits(lock: Lock, inMap: bool, alloc: string) {
    (CreatingOf(lock, alloc) ==> !inMap) && (TearingOf(lock, alloc) ==> inMap)
  }

  lemma BootedActHere(f: Faults, s: State, t: string, r: TaskRecord, a: Act)
    requires Permitted(f, s, t, r, a) && LockFits(s.lock, r.alloc in s.sandboxes, r.alloc)
    ensures var lock', m := LockAfter(s.lock, t, r, a), SandboxesAfter(s.sandboxes, r, a);
            One(Booted(s.(lock := lock', sandboxes := m), r.alloc)) + One(Happens(s, Act(t, a), r.alloc, TearsDown))
            == One(Booted(s, r.alloc)) + One(Happens(s, Act(t, a), r.alloc, Boots)) + One(a == Recover(RecoverNew))
  {
    match a
    case Start(b) =>
    case Create(b) =>
    case Release(c, b) =>
    case _ =>
  }

  lemma BootedActElsewhere(f: Faults, s: State, t: string, r: TaskRecord, a: Act, alloc: string)
    requires Permitted(f, s, t, r, a) && alloc != r.alloc
    ensures !Happens(s, Act(t, a), alloc, TearsDown) && !Happens(s, Act(t, a), alloc, Boots)
    ensures Booted(s.(lock := LockAfter(s.lock, t, r, a), sandboxes := SandboxesAfter(s.sandboxes, r, a)), alloc)
            == Booted(s, alloc)
  {
    LockElsewhere(f, s, t, r, a, alloc);
  }

  lemma BootedStep(f: Faults, s: State, l: Label, alloc: string)
    requires AllOk(s) && NoLeaks(s) && Enabled(f, s, l) && l != Crash
    ensures One(Booted(Step(f, s, l), alloc)) + One(Happens(s, l, alloc, TearsDown))
            == One(Booted(s, alloc)) + One(Happens(s, l, alloc, Boots)) + One(Happens(s, l, alloc, Adopts))
  {
    if l.Act? {
      var r := Subject(InfoOf(s, l.tid), l.act);
      assert NoLeakAt(s.store, s.lock, alloc in s.sandboxes, alloc in s.stale, alloc);
      if alloc == r.alloc {
        BootedActHere(f, s, l.tid, r, l.act);
      } else {
        BootedActElsewhere(f, s, l.tid, r, l.act, alloc);
      }
    }
  }

  /** Between two restarts, the teardowns of a sandbox are its boots and adoptions, less the one
      that is still up: no teardown is missed and none happens twice. */
  lemma {:induction false} TeardownsBalance(f: Faults, s: State, ls: seq<Label>, s': State, alloc: string)
    requires AllOk(s) && NoLeaks(s) && Run(f, s, ls, s') && Crash !in ls
    ensures One(Booted(s', alloc)) + Count(f, s, ls, alloc, TearsDown)
            == One(Booted(s, alloc)) + Count(f, s, ls, alloc, Boots) + Count(f, s, ls, alloc, Adopts)
    decreases |ls|
  {
    if ls != [] {
      AllOkStep(f, s, ls[0]);
      NoLeaksStep(f, s, ls[0]);
      BootedStep(f, s, ls[0], alloc);
      TeardownsBalance(f, Step(f, s, ls[0]), ls[1..], s', alloc);
    }
  }

  predicate NotRecovering(i: Info) {
    i.recover.None? && (i.persisted.Some? ==> i.handle.Some?)
  }

  predicate NothingToRecover(s: State) {
    forall t :: t in s.tasks ==> NotRecovering(s.tasks[t])
  }

  lemma NotRecoveringAfter(i: Info, a: Act)
    requires Ok(i) && NotRecovering(i) && Can(i, a)
    ensures NotRecovering(After(i, a)) && !a.Recover?
  {
    if a.Monitor? {
      TouchingMonitor(i, a.monitor);
    }
  }

  lemma NothingToRecoverStep(f: Faults, s: State, l: Label, alloc: string)
    requires AllOk(s) && NothingToRecover(s) && Enabled(f, s, l) && l != Crash
    ensures NothingToRecover(Step(f, s, l)) && !Happens(s, l, alloc, Adopts)
  {
    if l.Act? {
      NotRecoveringAfter(InfoOf(s, l.tid), l.act);
    }
  }

  lemma {:induction false} NothingAdopted(f: Faults, s: State, ls: seq<Label>, s': State, alloc: string)
    requires AllOk(s) && NothingToRecover(s) && Run(f, s, ls, s') && Crash !in ls
    ensures Count(f, s, ls, alloc, Adopts) == 0
    decreases |ls|
  {
    if ls != [] {
      AllOkStep(f, s, ls[0]);
      NothingToRecoverStep(f, s, ls[0], alloc);
      NothingAdopted(f, Step(f, s, ls[0]), ls[1..], s', alloc);
    }
  }

  /** In a run without restarts, VM boots for an allocation minus teardowns by Release is 1 while
      its sandbox is up and 0 otherwise. */
  lemma BootsMinusTeardowns(f: Faults, ls: seq<Label>, s: State, alloc: string)
    requires Run(f, INIT, ls, s) && Crash !in ls
    ensures Count(f, INIT, ls, alloc, Boots) - Count(f, INIT, ls, alloc, TearsDown) == One(Booted(s, alloc))
  {
    TeardownsBalance(f, INIT, ls, s, alloc);
    NothingAdopted(f, INIT, ls, s, alloc);
  }
}
