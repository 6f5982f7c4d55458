/** Each of the excluded faults really lets an allocation be marked dead. */
module Counterexamples {
  import opened Names
  import opened Runtime
  import opened Tasks
  import opened Machine
  import opened References
  import FalsePoisoning

  ghost predicate CanReach(f: Faults, s: State) {
    exists ls :: Run(f, INIT, ls, s)
  }

  lemma Extend(f: Faults, s: State, l: Label)
    requires CanReach(f, s) && Enabled(f, s, l)
    ensures CanReach(f, Step(f, s, l))
  {
    var ls :| Run(f, INIT, ls, s);
    RunSnoc(f, INIT, ls, s, l);
  }

  // ----- States with one task of one allocation, past its check and not marked -----

  const T := "t"
  const A := "a"
  const R := RecordOf(A, "web")
  const VM := SandboxOf(A)
  const MAPPED: SandboxMap := map[A := Entry(VM, 1)]

  const UP := Store({VM}, {VM}, {VM})
  const DOWN := Store({VM}, {VM}, {})
  const READY := Store({VM, R.container}, {VM}, {VM})
  const BUSY := Store({VM, R.container}, {VM}, {VM, R.container})

  /** The entry while the last reference is being torn down. */
  const UNHELD: SandboxMap := map[A := Entry(VM, 0)]

  lemma Shutdown()
    ensures Halt(UP, VM) == DOWN
    ensures DeleteContainer(READY, R.container) == DeleteContainer(Halt(READY, R.container), R.container) == UP
    ensures AddRefs(MAPPED, A, -1) == UNHELD
  {
    assert Halt(READY, R.container) == READY;
  }

  function St(st: Store, lock: Lock, sandboxes: SandboxMap, i: Info): State {
    State(st, {}, lock, sandboxes, map[T := i], map[], {A}, {})
  }

  lemma Go(f: Faults, st: Store, lock: Lock, m: SandboxMap, i: Info, a: Act)
    requires CanReach(f, St(st, lock, m, i)) && Can(i, a) && Subject(i, a) == R
    requires Permitted(f, St(st, lock, m, i), T, R, a) && a != Monitor(WriteMarker)
    ensures CanReach(f, St(StoreAfter(st, R, a), LockAfter(lock, T, R, a), SandboxesAfter(m, R, a), After(i, a)))
  {
    var s := St(st, lock, m, i);
    Extend(f, s, Act(T, a));
    assert MarkersAfter({}, R, a) == {};
    assert TouchedAfter({A}, R, a) == {A};
    assert StaleAfter({}, R, a) == {};
    assert s.tasks[T := After(i, a)] == map[T := After(i, a)];
    assert ActStep(f, s, T, a)
            == St(StoreAfter(st, R, a), LockAfter(lock, T, R, a), SandboxesAfter(m, R, a), After(i, a));
  }

  function Starting(pc: StartPc): Info {
    BLANK.(start := Some(StartCall(R, pc)))
  }

  lemma ReachBegun(f: Faults)
    ensures CanReach(f, St(EMPTY, Free, map[], Starting(Checked)))
  {
    assert Run(f, INIT, [], INIT);
    assert PlainComponent("web") by {
      assert |"web"| == 3;
    }
    Extend(f, INIT, Act(T, Start(Begin(R))));
    assert Step(f, INIT, Act(T, Start(Begin(R)))) == St(EMPTY, Free, map[], Starting(Checked));
  }

  lemma ReachCreating(f: Faults)
    ensures CanReach(f, St(EMPTY, Creating(T, A, AtPause), map[], Starting(InCreate)))
  {
    ReachBegun(f);
    Go(f, EMPTY, Free, map[], Starting(Checked), Start(HaltLeftover));
    assert Halt(EMPTY, R.container) == EMPTY;
    Go(f, EMPTY, Free, map[], Starting(Halted), Start(DeleteLeftover));
    assert DeleteContainer(EMPTY, R.container) == EMPTY;
    Go(f, EMPTY, Free, map[], Starting(Cleaned), Start(Miss));
  }

  lemma ReachCreated(f: Faults)
    ensures CanReach(f, St(Store({VM}, {VM}, {}), Creating(T, A, AtBoot), map[], Starting(InCreate)))
  {
    var i := Starting(InCreate);
    ReachCreating(f);
    Go(f, EMPTY, Creating(T, A, AtPause), map[], i, Create(PullPause));
    Go(f, EMPTY, Creating(T, A, AtContainer), map[], i, Create(CreateSandbox));
    assert AddContainer(EMPTY, VM) == Store({VM}, {}, {});
    Go(f, Store({VM}, {}, {}), Creating(T, A, AtMetadata), map[], i, Create(CreateMetadata));
  }

  lemma ReachBooting(f: Faults)
    ensures CanReach(f, St(UP, Creating(T, A, AtPublish), map[], Starting(InCreate)))
  {
    ReachCreated(f);
    Go(f, DOWN, Creating(T, A, AtBoot), map[], Starting(InCreate), Create(BootVm));
    assert Boot(DOWN, VM) == UP;
  }

  lemma ReachBooted(f: Faults)
    ensures CanReach(f, St(UP, Free, MAPPED, Starting(Acquired)))
  {
    var i := Starting(InCreate);
    ReachBooting(f);
    Go(f, UP, Creating(T, A, AtPublish), map[], i, Create(Publish));
  }

  lemma ReachStored(f: Faults)
    ensures CanReach(f, St(READY, Free, MAPPED, Starting(Stored).(handle := Some(NewHandle(R, false)), stored := true)))
  {
    ReachBooted(f);
    Go(f, UP, Free, MAPPED, Starting(Acquired), Start(CreateTask));
    assert AddContainer(UP, R.container) == READY;
    Go(f, READY, Free, MAPPED, Starting(Made), Start(Launch));
    Go(f, READY, Free, MAPPED, Starting(Launched).(handle := Some(NewHandle(R, false))), Start(StoreHandle));
  }

  function Running(pc: MonitorPc, sawDead: bool, destroy: Option<DestroyPc>): Info {
    Info(Some(R), None, Some(Handle(R, false, pc, None, false, sawDead, false)), true, destroy, None)
  }

  lemma ReachRunning(f: Faults)
    ensures CanReach(f, St(BUSY, Free, MAPPED, Running(InTask, false, None)))
  {
    ReachStored(f);
    Go(f, READY, Free, MAPPED, Starting(Stored).(handle := Some(NewHandle(R, false)), stored := true), Start(Return));
    Go(f, READY, Free, MAPPED, Running(Opening, false, None), Monitor(OpenLogs));
    Go(f, READY, Free, MAPPED, Running(Opened, false, None), Monitor(RunTask));
    assert Boot(READY, R.container) == BUSY;
  }

  ghost predicate Poisonable(f: Faults) {
    exists s :: CanReach(f, s) && s.markers != {}
  }

  lemma WriteIt(f: Faults, st: Store, lock: Lock, m: SandboxMap, i: Info)
    requires CanReach(f, St(st, lock, m, i)) && CanMonitor(i, WriteMarker) && i.handle.value.task == R
    ensures Poisonable(f)
  {
    var s := St(st, lock, m, i);
    Extend(f, s, Act(T, Monitor(WriteMarker)));
    assert A in Step(f, s, Act(T, Monitor(WriteMarker))).markers;
  }

  const KILLED := Exit(137, false)

  /** The intended case: the VM dies under its task. */
  lemma VmDeathPoisons(f: Faults)
    requires f.vmDies
    ensures Poisonable(f)
  {
    var i := Running(InTask, false, None);
    ReachRunning(f);
    Extend(f, St(BUSY, Free, MAPPED, i), VmDies(A));
    var down := Store({VM, R.container}, {VM}, {});
    assert Halt(BUSY, VM) == down;
    Go(f, down, Free, MAPPED, i, Monitor(TaskReturns(KILLED)));
    Go(f, down, Free, MAPPED, Running(Returned(KILLED), false, None), Monitor(Probe(NotRunning)));
    WriteIt(f, down, Free, MAPPED, Running(Condemning(KILLED), true, None));
  }

  /** A probe of a live sandbox that reports a closed transport. */
  lemma LyingProbePoisons(f: Faults)
    requires f.probeLies
    ensures Poisonable(f)
  {
    ReachRunning(f);
    Go(f, BUSY, Free, MAPPED, Running(InTask, false, None), Monitor(TaskReturns(KILLED)));
    Go(f, BUSY, Free, MAPPED, Running(Returned(KILLED), false, None), Monitor(Probe(TransportClosed)));
    WriteIt(f, BUSY, Free, MAPPED, Running(Condemning(KILLED), true, None));
  }

  /** A forced destroy that stops waiting releases the last reference under a goroutine that has
      not read the sandbox's state yet. */
  lemma GivingUpPoisons(f: Faults)
    requires f.destroyGivesUp
    ensures Poisonable(f)
  {
    ReachRunning(f);
    Go(f, BUSY, Free, MAPPED, Running(InTask, false, None), Destroy(BeginForced));
    Go(f, BUSY, Free, MAPPED, Running(InTask, false, Some(Killing)), Destroy(KillTask));
    assert Halt(BUSY, R.container) == READY;
    Go(f, READY, Free, MAPPED, Running(InTask, false, Some(Waiting)), Destroy(GiveUp));
    Go(f, READY, Free, MAPPED, Running(InTask, false, Some(Stopped)), Destroy(DeleteTask));
    assert Halt(READY, R.container) == READY;
    Go(f, READY, Free, MAPPED, Running(InTask, false, Some(TaskDeleted)), Destroy(DeleteTaskContainer));
    GivenUpReleases(f);
  }

  lemma GivenUpReleases(f: Faults)
    requires CanReach(f, St(DeleteContainer(READY, R.container), Free, MAPPED, Running(InTask, false, Some(ContainerDeleted))))
    ensures Poisonable(f)
  {
    Shutdown();
    Go(f, UP, Free, MAPPED, Running(InTask, false, Some(ContainerDeleted)), Release(DestroyTask, LastReference));
    Go(f, UP, Tearing(T, DestroyTask, A, AtHalt), UNHELD, Running(InTask, false, Some(TearingDown)), Release(DestroyTask, TearHalt));
    var lock := Tearing(T, DestroyTask, A, AtDelete);
    Go(f, DOWN, lock, UNHELD, Running(InTask, false, Some(TearingDown)), Monitor(TaskReturns(KILLED)));
    Go(f, DOWN, lock, UNHELD, Running(Returned(KILLED), false, Some(TearingDown)), Monitor(Probe(NotRunning)));
    WriteIt(f, DOWN, lock, UNHELD, Running(Condemning(KILLED), true, Some(TearingDown)));
  }

  function Failed(pc: MonitorPc, sawDead: bool, start: StartPc): Info {
    Info(None, Some(StartCall(R, start)), Some(Handle(R, false, pc, None, false, sawDead, false)), true, None, None)
  }

  /** A driver state that cannot be encoded: the start fails after its goroutine was launched,
      and releases the reference that backs it. */
  lemma EncodeFailurePoisons(f: Faults)
    requires f.encodeFails
    ensures Poisonable(f)
  {
    Shutdown();
    ReachStored(f);
    Go(f, READY, Free, MAPPED, Failed(Opening, false, Stored), Start(EncodeFails));
    Go(f, UP, Free, MAPPED, Failed(Opening, false, Failing), Release(StartTask, LastReference));
    Go(f, UP, Tearing(T, StartTask, A, AtHalt), UNHELD, Failed(Opening, false, InTearDown), Release(StartTask, TearHalt));
    FailedProbes(f);
  }

  lemma FailedProbes(f: Faults)
    requires CanReach(f, St(DOWN, Tearing(T, StartTask, A, AtDelete), UNHELD,
                            Failed(Opening, false, InTearDown)))
    ensures Poisonable(f)
  {
    var lock := Tearing(T, StartTask, A, AtDelete);
    Go(f, DOWN, lock, UNHELD, Failed(Opening, false, InTearDown), Monitor(OpenLogs));
    Go(f, DOWN, lock, UNHELD, Failed(Opened, false, InTearDown), Monitor(RunFails));
    Go(f, DOWN, lock, UNHELD, Failed(Returned(Exit(-1, true)), false, InTearDown), Monitor(Probe(NotRunning)));
    WriteIt(f, DOWN, lock, UNHELD, Failed(Condemning(Exit(-1, true)), true, InTearDown));
  }

  /** The four conditions are exact: an allocation can come to be marked dead in a family of runs
      if and only if one of the four faults can happen in it. */
  lemma PoisoningNeedsAFault(f: Faults)
    ensures Poisonable(f) <==> f.vmDies || f.destroyGivesUp || f.encodeFails || f.probeLies
  {
    if f.vmDies {
      VmDeathPoisons(f);
    } else if f.destroyGivesUp {
      GivingUpPoisons(f);
    } else if f.encodeFails {
      EncodeFailurePoisons(f);
    } else if f.probeLies {
      LyingProbePoisons(f);
    } else {
      forall s | CanReach(f, s)
        ensures s.markers == {}
      {
        var ls :| Run(f, INIT, ls, s);
        FalsePoisoning.NoFalsePoisoning(ls, s);
      }
    }
  }

  // ----- A second task, whose start cannot encode its state -----

  const U := "u"
  const S := RecordOf(A, "db")

  const SHARED: SandboxMap := map[A := Entry(VM, 2)]

  /** The first task runs; the second is at `j`. */
  function Beside(st: Store, lock: Lock, sandboxes: SandboxMap, j: Info): State {
    State(st, {}, lock, sandboxes, map[T := Running(InTask, false, None), U := j], map[], {A}, {})
  }

  lemma GoBeside(f: Faults, st: Store, lock: Lock, m: SandboxMap, j: Info, a: Act)
    requires CanReach(f, Beside(st, lock, m, j)) && Can(j, a) && Subject(j, a) == S
    requires Permitted(f, Beside(st, lock, m, j), U, S, a) && a != Monitor(WriteMarker)
    ensures CanReach(f, Beside(StoreAfter(st, S, a), LockAfter(lock, U, S, a), SandboxesAfter(m, S, a), After(j, a)))
  {
    var s := Beside(st, lock, m, j);
    Extend(f, s, Act(U, a));
    assert MarkersAfter({}, S, a) == {};
    assert TouchedAfter({A}, S, a) == {A};
    assert StaleAfter({}, S, a) == {};
    assert s.tasks[U := After(j, a)] == map[T := Running(InTask, false, None), U := After(j, a)];
    assert ActStep(f, s, U, a)
            == Beside(StoreAfter(st, S, a), LockAfter(lock, U, S, a), SandboxesAfter(m, S, a), After(j, a));
  }

  /** The second task's container comes and goes; the first task's and the VM stay. */
  lemma BesideStores()
    ensures Halt(BUSY, S.container) == DeleteContainer(BUSY, S.container) == BUSY
    ensures DeleteContainer(Halt(AddContainer(BUSY, S.container), S.container), S.container) == BUSY
    ensures AddRefs(MAPPED, A, 1) == SHARED && AddRefs(SHARED, A, -1) == MAPPED && AddRefs(MAPPED, A, -1) == UNHELD
  {
    assert S.container != R.container;
  }

  function Second(pc: StartPc): Info {
    BLANK.(start := Some(StartCall(S, pc)))
  }

  lemma ReachSecondBegun(f: Faults)
    ensures CanReach(f, Beside(BUSY, Free, MAPPED, Second(Checked)))
  {
    ReachRunning(f);
    var s := St(BUSY, Free, MAPPED, Running(InTask, false, None));
    assert PlainComponent("db") && PlainComponent("a") by {
      assert |"db"| == 2 && |"a"| == 1;
    }
    Extend(f, s, Act(U, Start(Begin(S))));
    assert Step(f, s, Act(U, Start(Begin(S)))) == Beside(BUSY, Free, MAPPED, Second(Checked));
  }

  lemma ReachSecond(f: Faults)
    ensures CanReach(f, Beside(BUSY, Free, MAPPED, Second(Cleaned)))
  {
    ReachSecondBegun(f);
    BesideStores();
    GoBeside(f, BUSY, Free, MAPPED, Second(Checked), Start(HaltLeftover));
    GoBeside(f, BUSY, Free, MAPPED, Second(Halted), Start(DeleteLeftover));
  }

  function SecondHandle(pc: MonitorPc, exit: Option<Exit>, start: Option<StartCall>, destroy: Option<DestroyPc>): Info {
    Info(None, start, Some(Handle(S, false, pc, exit, false, false, false)), true, destroy, None)
  }

  lemma ReachSecondFailed(f: Faults)
    requires f.encodeFails
    ensures CanReach(f, Beside(BUSY, Free, MAPPED, SecondHandle(Opening, None, None, None)))
  {
    ReachSecond(f);
    BesideStores();
    GoBeside(f, BUSY, Free, MAPPED, Second(Cleaned), Start(Reuse));
    GoBeside(f, BUSY, Free, SHARED, Second(Acquired), Start(CreateTask));
    var both := AddContainer(BUSY, S.container);
    GoBeside(f, both, Free, SHARED, Second(Made), Start(Launch));
    GoBeside(f, both, Free, SHARED, Second(Launched).(handle := Some(NewHandle(S, false))), Start(StoreHandle));
    var stored := SecondHandle(Opening, None, Some(StartCall(S, Stored)), None);
    GoBeside(f, both, Free, SHARED, stored, Start(EncodeFails));
    var failing := SecondHandle(Opening, None, Some(StartCall(S, Failing)), None);
    GoBeside(f, BUSY, Free, SHARED, failing, Release(StartTask, KeepSandbox));
  }

  const BAD_LOGS := Exit(1, true)

  /** A start whose state cannot be encoded gives its reference back but leaves its handle stored, and
      destroying that handle gives back another: the count is zero and the VM is torn down while a
      sibling task runs in it and holds a reference. */
  lemma SiblingLosesItsReference(f: Faults) returns (s: State)
    requires f.encodeFails
    ensures CanReach(f, s) && A in s.sandboxes && s.sandboxes[A].refs == 0
    ensures T in Holders(s.tasks, A) && VM !in s.store.running
  {
    var exited := Some(BAD_LOGS);
    ReachSecondFailed(f);
    BesideStores();
    GoBeside(f, BUSY, Free, MAPPED, SecondHandle(Opening, None, None, None), Monitor(OpenLogsFails));
    GoBeside(f, BUSY, Free, MAPPED, SecondHandle(Recording(BAD_LOGS), None, None, None), Monitor(SetExit));
    GoBeside(f, BUSY, Free, MAPPED, SecondHandle(Closing, exited, None, None), Destroy(BeginExited));
    GoBeside(f, BUSY, Free, MAPPED, SecondHandle(Closing, exited, None, Some(Stopped)), Destroy(DeleteTask));
    GoBeside(f, BUSY, Free, MAPPED, SecondHandle(Closing, exited, None, Some(TaskDeleted)), Destroy(DeleteTaskContainer));
    s := SiblingTornDown(f);
  }

  lemma SiblingTornDown(f: Faults) returns (s: State)
    requires CanReach(f, Beside(BUSY, Free, MAPPED, SecondHandle(Closing, Some(BAD_LOGS), None, Some(ContainerDeleted))))
    ensures CanReach(f, s) && A in s.sandboxes && s.sandboxes[A].refs == 0
    ensures T in Holders(s.tasks, A) && VM !in s.store.running
  {
    BesideStores();
    var exited := Some(BAD_LOGS);
    GoBeside(f, BUSY, Free, MAPPED, SecondHandle(Closing, exited, None, Some(ContainerDeleted)), Release(DestroyTask, LastReference));
    var lock := Tearing(U, DestroyTask, A, AtHalt);
    var tearing := SecondHandle(Closing, exited, None, Some(TearingDown));
    GoBeside(f, BUSY, lock, UNHELD, tearing, Release(DestroyTask, TearHalt));
    s := Beside(Halt(BUSY, VM), Tearing(U, DestroyTask, A, AtDelete), UNHELD, tearing);
  }
}
