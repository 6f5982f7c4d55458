/** The dead-sandbox marker as a durable barrier, and its order relative to exit notification. */
module Poison {
  import opened Names
  import opened Runtime
  import opened Tasks
  import opened Machine

  // ----- The marker never goes away -----

  /** No step clears a marker: not a restart, and not the directory removal of DestroyTask. */
  lemma MarkersGrow(f: Faults, s: State, l: Label)
    requires AllOk(s) && Enabled(f, s, l)
    ensures s.markers <= Step(f, s, l).markers
  {
    if l.Act? {
      SubjectWellFormed(InfoOf(s, l.tid), l.act);
      MarkersKept(s.markers, Subject(InfoOf(s, l.tid), l.act), l.act);
    }
  }

  lemma MarkersKept(markers: set<string>, r: TaskRecord, a: Act)
    requires PlainMarkers(markers) && WellFormedRecord(r)
    ensures markers <= MarkersAfter(markers, r, a)
  {
    if a == Destroy(RemoveDir) {
      forall b | b in markers
        ensures !RemovedWith(TaskConfigDir([], r.alloc, r.name), SandboxDeadPath([], b))
      {
        ConfigDirClearsMarker([], r.alloc, r.name, b);
      }
    }
  }

  lemma {:induction false} MarkersDurable(f: Faults, s: State, ls: seq<Label>, s': State)
    requires AllOk(s) && Run(f, s, ls, s')
    ensures AllOk(s') && s.markers <= s'.markers
    decreases |ls|
  {
    if ls != [] {
      AllOkStep(f, s, ls[0]);
      MarkersGrow(f, s, ls[0]);
      MarkersDurable(f, Step(f, s, ls[0]), ls[1..], s');
    }
  }

  // ----- The marker comes first -----

  /** A goroutine that confirmed the death of its sandbox has left the marker behind before it
      does anything else, unless writing it failed. */
  predicate MarkerFirst(h: Handle, markers: set<string>) {
    h.sawDead && !h.markFailed && !h.pc.Condemning? ==> h.task.alloc in markers
  }

  predicate MarkersFirst(s: State) {
    forall t :: t in s.tasks && s.tasks[t].handle.Some? ==> MarkerFirst(s.tasks[t].handle.value, s.markers)
  }

  lemma MarkerFirstMonitor(s: State, i: Info, a: MonitorAct)
    requires Ok(i) && CanMonitor(i, a) && MarkerFirst(i.handle.value, s.markers)
    ensures MarkerFirst(AfterMonitor(i, a).handle.value, MarkersAfter(s.markers, i.handle.value.task, Monitor(a)))
  {
  }

  lemma MarkerFirstAct(s: State, i: Info, a: Act)
    requires Ok(i) && Can(i, a) && (i.handle.Some? ==> MarkerFirst(i.handle.value, s.markers))
    requires s.markers <= MarkersAfter(s.markers, Subject(i, a), a)
    ensures After(i, a).handle.Some?
            ==> MarkerFirst(After(i, a).handle.value, MarkersAfter(s.markers, Subject(i, a), a))
  {
    if a.Monitor? {
      MarkerFirstMonitor(s, i, a.monitor);
    }
  }

  lemma MarkersFirstStep(f: Faults, s: State, l: Label)
    requires AllOk(s) && MarkersFirst(s) && Enabled(f, s, l)
    ensures MarkersFirst(Step(f, s, l))
  {
    MarkersGrow(f, s, l);
    if l.Act? {
      MarkerFirstAct(s, InfoOf(s, l.tid), l.act);
    }
  }

  lemma {:induction false} MarkersFirstRun(f: Faults, s: State, ls: seq<Label>, s': State)
    requires AllOk(s) && MarkersFirst(s) && Run(f, s, ls, s')
    ensures AllOk(s') && MarkersFirst(s')
    decreases |ls|
  {
    if ls != [] {
      AllOkStep(f, s, ls[0]);
      MarkersFirstStep(f, s, ls[0]);
      MarkersFirstRun(f, Step(f, s, ls[0]), ls[1..], s');
    }
  }

  predicate DeathCleanup(a: MonitorAct) {
    a.SweepHalt? || a.SweepContainer? || a.SweepMetadata? || a.SweepProcesses?
  }

  /** Every step of death cleanup, in every run, finds the marker already on disk. */
  lemma CleanupFollowsMarker(f: Faults, ls: seq<Label>, s: State, t: string, a: MonitorAct)
    requires Run(f, INIT, ls, s) && Enabled(f, s, Act(t, Monitor(a))) && DeathCleanup(a)
    ensures Subject(InfoOf(s, t), Monitor(a)).alloc in s.markers
  {
    MarkersFirstRun(f, INIT, ls, s);
    var i := InfoOf(s, t);
    assert Ok(i) && HandleOk(i.handle.value) && Sweeping(i.handle.value);
    assert MarkerFirst(i.handle.value, s.markers);
  }

  // ----- The barrier -----

  /** A refused start changes nothing: containerd, markers, mutex, sandbox map and every task's entry. */
  ghost predicate SameDriver(s: State, s': State) {
    && s'.store == s.store
    && s'.markers == s.markers
    && s'.lock == s.lock
    && s'.sandboxes == s.sandboxes
    && (forall t :: InfoOf(s', t) == InfoOf(s, t))
  }

  /** Once an allocation is marked, in every later state of every run, restarts included, a StartTask
      for it cannot get past its check, and being refused changes nothing. */
  lemma PoisonedStartRefused(f: Faults, s: State, ls: seq<Label>, s': State, t: string, r: TaskRecord)
    requires AllOk(s) && r.alloc in s.markers && Run(f, s, ls, s')
    ensures !Enabled(f, s', Act(t, Start(Begin(r))))
    ensures InfoOf(s', t) == BLANK && WellFormedRecord(r) && !Recovering(s', r.alloc)
            ==> Enabled(f, s', Act(t, Start(Refuse(r)))) && SameDriver(s', Step(f, s', Act(t, Start(Refuse(r)))))
  {
    MarkersDurable(f, s, ls, s');
  }

  /** How often along a run task `t` does `what` to allocation `alloc`. */
  function Times(f: Faults, s: State, ls: seq<Label>, t: string, alloc: string, what: Act): nat
    decreases |ls|
  {
    if ls == [] || !Enabled(f, s, ls[0]) then 0
    else
      (if ls[0] == Act(t, what) && Subject(InfoOf(s, t), what).alloc == alloc then 1 else 0)
      + Times(f, Step(f, s, ls[0]), ls[1..], t, alloc, what)
  }

  predicate StartsFor(i: Info, alloc: string) {
    i.start.Some? && i.start.value.task.alloc == alloc
  }

  /** May the StartTask call still create the sandbox container, or its own container? */
  predicate MayCreateSandbox(i: Info, lock: Lock, t: string, alloc: string) {
    && StartsFor(i, alloc)
    && var pc := i.start.value.pc;
    || pc.Checked? || pc.Halted? || pc.Cleaned?
    || (pc.InCreate? && (lock == Creating(t, alloc, AtPause) || lock == Creating(t, alloc, AtContainer)))
  }

  predicate MayCreateTask(i: Info, alloc: string) {
    && StartsFor(i, alloc)
    && var pc := i.start.value.pc;
    pc.Checked? || pc.Halted? || pc.Cleaned? || pc.InCreate? || pc.Acquired?
  }

  lemma ChanceSpentByStart(i: Info, lock: Lock, t: string, alloc: string, a: StartAct)
    requires CanStart(i, a) && !(a.Begin? && a.task.alloc == alloc)
    ensures MayCreateSandbox(AfterStart(i, a), LockAfter(lock, t, Subject(i, Start(a)), Start(a)), t, alloc)
            ==> MayCreateSandbox(i, lock, t, alloc)
    ensures MayCreateTask(AfterStart(i, a), alloc) ==> MayCreateTask(i, alloc)
    ensures a.CreateTask? && Subject(i, Start(a)).alloc == alloc
            ==> MayCreateTask(i, alloc) && !MayCreateTask(AfterStart(i, a), alloc)
  {
  }

  lemma ChanceSpentByCreate(i: Info, lock: Lock, t: string, alloc: string, a: CreateAct)
    requires StartAt(i, InCreate) && lock == Creating(t, i.start.value.task.alloc, StageOf(a))
    ensures MayCreateSandbox(AfterCreate(i, a), LockAfter(lock, t, i.start.value.task, Create(a)), t, alloc)
            ==> MayCreateSandbox(i, lock, t, alloc)
    ensures MayCreateTask(AfterCreate(i, a), alloc) ==> MayCreateTask(i, alloc)
    ensures a.CreateSandbox? && i.start.value.task.alloc == alloc
            ==> MayCreateSandbox(i, lock, t, alloc)
                && !MayCreateSandbox(AfterCreate(i, a), LockAfter(lock, t, i.start.value.task, Create(a)), t, alloc)
  {
  }

  lemma ChanceSpentByRest(i: Info, lock: Lock, t: string, alloc: string, a: Act)
    requires Can(i, a) && !a.Start? && !a.Create?
    ensures MayCreateSandbox(After(i, a), LockAfter(lock, t, Subject(i, a), a), t, alloc)
            ==> MayCreateSandbox(i, lock, t, alloc)
    ensures MayCreateTask(After(i, a), alloc) ==> MayCreateTask(i, alloc)
  {
  }

  /** No step gives a call a new chance to create; creating spends it. */
  lemma ChanceSpent(f: Faults, s: State, t: string, alloc: string, l: Label)
    requires alloc in s.markers && Enabled(f, s, l)
    ensures var s' := Step(f, s, l);
            && (MayCreateSandbox(InfoOf(s', t), s'.lock, t, alloc) ==> MayCreateSandbox(InfoOf(s, t), s.lock, t, alloc))
            && (MayCreateTask(InfoOf(s', t), alloc) ==> MayCreateTask(InfoOf(s, t), alloc))
            && (l == Act(t, Create(CreateSandbox)) && Subject(InfoOf(s, t), l.act).alloc == alloc
                ==> MayCreateSandbox(InfoOf(s, t), s.lock, t, alloc)
                        && !MayCreateSandbox(InfoOf(s', t), s'.lock, t, alloc))
            && (l == Act(t, Start(CreateTask)) && Subject(InfoOf(s, t), l.act).alloc == alloc
                ==> MayCreateTask(InfoOf(s, t), alloc) && !MayCreateTask(InfoOf(s', t), alloc))
  {
    if l.Act? && l.tid == t {
      var i := InfoOf(s, t);
      match l.act
      case Start(b) => ChanceSpentByStart(i, s.lock, t, alloc, b);
      case Create(b) => ChanceSpentByCreate(i, s.lock, t, alloc, b);
      case _ => ChanceSpentByRest(i, s.lock, t, alloc, l.act);
    }
  }

  /** After the marker is written, each StartTask call creates at most one sandbox container and
      one task container for the allocation, and none unless it was already past its check. */
  lemma {:induction false} LateCreations(f: Faults, s: State, ls: seq<Label>, t: string, alloc: string)
    requires AllOk(s) && alloc in s.markers
    ensures Times(f, s, ls, t, alloc, Create(CreateSandbox)) <= One(MayCreateSandbox(InfoOf(s, t), s.lock, t, alloc))
    ensures Times(f, s, ls, t, alloc, Start(CreateTask)) <= One(MayCreateTask(InfoOf(s, t), alloc))
    decreases |ls|
  {
    if ls != [] && Enabled(f, s, ls[0]) {
      AllOkStep(f, s, ls[0]);
      MarkersGrow(f, s, ls[0]);
      ChanceSpent(f, s, t, alloc, ls[0]);
      LateCreations(f, Step(f, s, ls[0]), ls[1..], t, alloc);
    }
  }

  /** These two actions are the only source of new containers. */
  lemma OnlyStartsCreate(f: Faults, s: State, l: Label, c: Cid)
    requires AllOk(s) && Enabled(f, s, l)
    requires c !in s.store.containers && c in Step(f, s, l).store.containers
    ensures l.Act?
    ensures c.SandboxOf? ==> l.act == Create(CreateSandbox) && Subject(InfoOf(s, l.tid), l.act).alloc == c.alloc
    ensures c.TaskOf? ==> l.act == Start(CreateTask) && Subject(InfoOf(s, l.tid), l.act).alloc == c.alloc
  {
    if l.Act? {
      SubjectWellFormed(InfoOf(s, l.tid), l.act);
    }
  }

  // ----- Exit results -----

  predicate NoCrash(ls: seq<Label>) {
    Crash !in ls
  }

  function CountOf(ls: seq<Label>, l: Label): nat {
    if ls == [] then 0 else (if ls[0] == l then 1 else 0) + CountOf(ls[1..], l)
  }

  predicate HasExit(i: Info) {
    i.handle.Some? && i.handle.value.exit.Some?
  }

  predicate HasClosed(i: Info) {
    i.handle.Some? && i.handle.value.done
  }

  /** `j` follows `i` with the handle kept and its result final. */
  predicate HandleKept(i: Info, j: Info) {
    i.handle.Some? ==>
      && j.handle.Some?
      && j.handle.value.task == i.handle.value.task
      && (i.handle.value.exit.Some? ==> j.handle.value.exit == i.handle.value.exit)
  }

  lemma ExitByMonitor(i: Info, a: MonitorAct)
    requires Ok(i) && CanMonitor(i, a)
    ensures HandleKept(i, AfterMonitor(i, a))
    ensures One(HasExit(AfterMonitor(i, a))) == One(HasExit(i)) + One(a.SetExit?)
    ensures One(HasClosed(AfterMonitor(i, a))) == One(HasClosed(i)) + One(a.CloseDone?)
  {
  }

  lemma ExitByRest(i: Info, a: Act)
    requires Ok(i) && Can(i, a) && !a.Monitor?
    ensures HandleKept(i, After(i, a)) && HasExit(After(i, a)) == HasExit(i) && HasClosed(After(i, a)) == HasClosed(i)
  {
  }

  lemma ExitStep(f: Faults, s: State, l: Label, t: string)
    requires AllOk(s) && Enabled(f, s, l) && l != Crash
    ensures var s' := Step(f, s, l);
            && HandleKept(InfoOf(s, t), InfoOf(s', t))
            && One(HasExit(InfoOf(s', t))) == One(HasExit(InfoOf(s, t))) + One(l == Act(t, Monitor(SetExit)))
            && One(HasClosed(InfoOf(s', t))) == One(HasClosed(InfoOf(s, t))) + One(l == Act(t, Monitor(CloseDone)))
  {
    if l.Act? && l.tid == t {
      if l.act.Monitor? {
        ExitByMonitor(InfoOf(s, t), l.act.monitor);
      } else {
        ExitByRest(InfoOf(s, t), l.act);
      }
    }
  }

  /** Between restarts a handle's result is set at most once, never changes, and doneCh is closed
      at most once: the steps that do so are counted exactly by the state they leave behind. */
  lemma {:induction false} ExitSetOnce(f: Faults, s: State, ls: seq<Label>, s': State, t: string)
    requires AllOk(s) && Run(f, s, ls, s') && NoCrash(ls)
    ensures One(HasExit(InfoOf(s', t))) == One(HasExit(InfoOf(s, t))) + CountOf(ls, Act(t, Monitor(SetExit)))
    ensures One(HasClosed(InfoOf(s', t))) == One(HasClosed(InfoOf(s, t))) + CountOf(ls, Act(t, Monitor(CloseDone)))
    ensures HasExit(InfoOf(s, t)) ==> InfoOf(s', t).handle.value.exit == InfoOf(s, t).handle.value.exit
    decreases |ls|
  {
    if ls != [] {
      AllOkStep(f, s, ls[0]);
      ExitStep(f, s, ls[0], t);
      ExitSetOnce(f, Step(f, s, ls[0]), ls[1..], s', t);
    }
  }

  // ----- WaitTask -----

  predicate WaiterOk(s: State, w: nat)
    requires w in s.waiters
  {
    match s.waiters[w]
    case Blocked(t) => InfoOf(s, t).handle.Some?
    case Delivered(t, r) => r.Some? && InfoOf(s, t).handle.Some? && InfoOf(s, t).handle.value.exit == r
    case Cancelled => true
  }

  predicate WaitersOk(s: State) {
    forall w :: w in s.waiters ==> WaiterOk(s, w)
  }

  lemma WaitersStep(f: Faults, s: State, l: Label)
    requires AllOk(s) && WaitersOk(s) && Enabled(f, s, l)
    ensures WaitersOk(Step(f, s, l))
  {
    var s' := Step(f, s, l);
    if l.Act? {
      forall w | w in s'.waiters
        ensures WaiterOk(s', w)
      {
        assert WaiterOk(s, w);
        if !s.waiters[w].Cancelled? {
          ExitStep(f, s, l, s.waiters[w].tid);
        }
      }
    }
  }

  /** WaitTask never delivers an absent result, and what it delivers is the handle's result. */
  lemma {:induction false} WaitDeliversResult(f: Faults, s: State, ls: seq<Label>, s': State)
    requires AllOk(s) && WaitersOk(s) && Run(f, s, ls, s')
    ensures WaitersOk(s')
    decreases |ls|
  {
    if ls != [] {
      AllOkStep(f, s, ls[0]);
      WaitersStep(f, s, ls[0]);
      WaitDeliversResult(f, Step(f, s, ls[0]), ls[1..], s');
    }
  }

  /** In a state where the exit of a task that found its sandbox dead can be seen, through WaitTask,
      IsRunning or the task status, the marker is on disk unless writing it failed. */
  lemma MarkerBeforeNotice(f: Faults, ls: seq<Label>, s: State, t: string)
    requires Run(f, INIT, ls, s) && HasExit(InfoOf(s, t))
    requires InfoOf(s, t).handle.value.sawDead && !InfoOf(s, t).handle.value.markFailed
    ensures InfoOf(s, t).handle.value.task.alloc in s.markers
  {
    MarkersFirstRun(f, INIT, ls, s);
    assert HandleOk(InfoOf(s, t).handle.value);
    assert MarkerFirst(InfoOf(s, t).handle.value, s.markers);
  }

  /** So a restart issued in response to that exit, however much later, is refused. */
  lemma RestartRefused(f: Faults, ls: seq<Label>, s: State, t: string, ms: seq<Label>, s': State, u: string,
          name: string)
    requires Run(f, INIT, ls, s) && HasExit(InfoOf(s, t))
    requires InfoOf(s, t).handle.value.sawDead && !InfoOf(s, t).handle.value.markFailed
    requires Run(f, s, ms, s')
    ensures !Enabled(f, s', Act(u, Start(Begin(RecordOf(InfoOf(s, t).handle.value.task.alloc, name)))))
  {
    MarkerBeforeNotice(f, ls, s, t);
    AllOkRun(f, INIT, ls, s);
    PoisonedStartRefused(f, s, ms, s', u, RecordOf(InfoOf(s, t).handle.value.task.alloc, name));
  }
}
