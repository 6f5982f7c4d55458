/** The driver, its goroutines and containerd as one interleaved state machine.

    A step is one containerd call, one file operation or one critical section; between two
    steps of a call, any other call, monitor goroutine or outside event may take a step. The
    mutex of the sandbox manager is a field of the state, so containerd calls made while it is
    held still interleave with everything that does not take it. */
module Machine {
  import opened Names
  import opened Runtime
  import opened Tasks

  /** What may go wrong outside the code's control in a given family of runs:
      a VM dies by itself, a forced destroy stops waiting after 5 s, the driver state cannot
      be encoded, a probe of a live sandbox fails with a closed-transport error. */
  datatype Faults = Faults(vmDies: bool, destroyGivesUp: bool, encodeFails: bool, probeLies: bool)

  const NO_FAULTS := Faults(false, false, false, false)

  /** Reference counts are 32-bit signed integers. */
  const MAX_REFS := 0x7fff_ffff

  datatype Entry = Entry(id: Cid, refs: int)

  type SandboxMap = map<string, Entry>

  datatype CreateStage = AtPause | AtContainer | AtMetadata | AtBoot | AtPublish | AtUndoMetadata | AtUndoContainer

  datatype TearStage = AtHalt | AtDelete | AtDropMetadata | AtUnmap

  /** The manager's mutex and, while it is held across containerd calls, by whom and for what. */
  datatype Lock =
    | Free
    | Creating(tid: string, alloc: string, stage: CreateStage)
    | Tearing(tid: string, caller: Caller, alloc: string, tear: TearStage)

  predicate CreatingOf(lock: Lock, alloc: string) {
    lock.Creating? && lock.alloc == alloc
  }

  predicate TearingOf(lock: Lock, alloc: string) {
    lock.Tearing? && lock.alloc == alloc
  }

  function One(b: bool): nat {
    if b then 1 else 0
  }

  datatype Waiter = Blocked(tid: string) | Delivered(tid: string, result: Option<Exit>) | Cancelled

  /** `store`, `markers` and the persisted records inside `tasks` survive a crash of the driver.
      `touched` and `stale` are history the code does not have: the allocations on which a start
      or destroy has begun since the last restart, and those whose sandbox a restart left behind. */
  datatype State = State(
    store: Store,
    markers: set<string>,
    lock: Lock,
    sandboxes: SandboxMap,
    tasks: map<string, Info>,
    waiters: map<nat, Waiter>,
    touched: set<string>,
    stale: set<string>)

  const INIT := State(EMPTY, {}, Free, map[], map[], map[], {}, {})

  function InfoOf(s: State, t: string): Info {
    if t in s.tasks then s.tasks[t] else BLANK
  }

  datatype WaitAct = BeginWait(tid: string) | Deliver | CancelWait

  datatype Label =
    | Act(tid: string, act: Act)
    | Wait(waiter: nat, wait: WaitAct)
    | TaskExits(task: Cid)
    | VmDies(alloc: string)
    | Crash

  // ----- What an action needs outside its task's entry -----

  /** RecoverTask calls of an allocation come before its other calls. */
  predicate Recovering(s: State, alloc: string) {
    exists t :: t in s.tasks && s.tasks[t].recover.Some? && s.tasks[t].persisted.Some?
            && s.tasks[t].persisted.value.alloc == alloc
  }

  predicate StartPermitted(f: Faults, s: State, r: TaskRecord, a: StartAct) {
    match a
    case Refuse(_) => r.alloc in s.markers && !Recovering(s, r.alloc)
    case Begin(_) => r.alloc !in s.markers && !Recovering(s, r.alloc)
    case Reuse => s.lock.Free? && r.alloc in s.sandboxes && s.sandboxes[r.alloc].refs < MAX_REFS
    case Miss => s.lock.Free? && r.alloc !in s.sandboxes
    case CreateTask => r.container !in s.store.containers
    case EncodeFails => f.encodeFails
    case _ => true
  }

  function StageOf(a: CreateAct): CreateStage {
    match a
    case PullPause => AtPause
    case PullPauseFails => AtPause
    case CreateSandbox => AtContainer
    case CreateSandboxFails => AtContainer
    case CreateMetadata => AtMetadata
    case CreateMetadataFails => AtMetadata
    case BootVm => AtBoot
    case BootVmFails => AtBoot
    case Publish => AtPublish
    case UndoMetadata => AtUndoMetadata
    case UndoContainer => AtUndoContainer
  }

  predicate CreatePermitted(s: State, t: string, r: TaskRecord, a: CreateAct) {
    && s.lock == Creating(t, r.alloc, StageOf(a))
    && (a.CreateSandbox? ==> r.sandbox !in s.store.containers)
    && (a.BootVm? ==> CanBoot(s.store, r.sandbox))
  }

  predicate ReleasePermitted(s: State, t: string, r: TaskRecord, c: Caller, a: ReleaseAct) {
    match a
    case NothingHeld => s.lock.Free? && r.alloc !in s.sandboxes
    case KeepSandbox => s.lock.Free? && r.alloc in s.sandboxes && s.sandboxes[r.alloc].refs > 1
    case LastReference => s.lock.Free? && r.alloc in s.sandboxes && s.sandboxes[r.alloc].refs <= 1
    case TearHalt => s.lock == Tearing(t, c, r.alloc, AtHalt)
    case TearContainer => s.lock == Tearing(t, c, r.alloc, AtDelete)
    case TearMetadata => s.lock == Tearing(t, c, r.alloc, AtDropMetadata)
    case Unmap => s.lock == Tearing(t, c, r.alloc, AtUnmap)
  }

  /** The contract of TaskState: a closed transport is reported only for a sandbox that is down,
      unless probes lie; any other error may come at any time. */
  predicate ReadingPossible(f: Faults, st: Store, sandbox: Cid, r: Reading) {
    match r
    case Running => Up(st, sandbox)
    case NotRunning => !Up(st, sandbox)
    case TransportClosed => f.probeLies || !Up(st, sandbox)
    case OtherError => true
  }

  predicate MonitorPermitted(f: Faults, s: State, r: TaskRecord, a: MonitorAct) {
    match a
    case RunTask => CanBoot(s.store, r.container)
    case Probe(reading) => ReadingPossible(f, s.store, r.sandbox, reading)
    case _ => true
  }

  predicate DestroyPermitted(f: Faults, s: State, r: TaskRecord, a: DestroyAct) {
    match a
    case BeginForced => !Recovering(s, r.alloc)
    case BeginExited => !Recovering(s, r.alloc)
    case GiveUp => f.destroyGivesUp
    case _ => true
  }

  predicate RecoverPermitted(s: State, r: TaskRecord, a: RecoverAct) {
    match a
    case FindGone => r.alloc !in s.touched
    case FindRunning => r.alloc !in s.touched && Up(s.store, r.container)
    case RecoverNew => s.lock.Free? && r.alloc !in s.sandboxes
    case RecoverKnown => s.lock.Free? && r.alloc in s.sandboxes && s.sandboxes[r.alloc].refs < MAX_REFS
    case _ => true
  }

  predicate Permitted(f: Faults, s: State, t: string, r: TaskRecord, a: Act) {
    match a
    case Start(b) => StartPermitted(f, s, r, b)
    case Create(b) => CreatePermitted(s, t, r, b)
    case Monitor(b) => MonitorPermitted(f, s, r, b)
    case Destroy(b) => DestroyPermitted(f, s, r, b)
    case Release(c, b) => ReleasePermitted(s, t, r, c, b)
    case Recover(b) => RecoverPermitted(s, r, b)
  }

  predicate WaitEnabled(s: State, w: nat, a: WaitAct) {
    match a
    case BeginWait(t) => w !in s.waiters && InfoOf(s, t).stored && InfoOf(s, t).handle.Some?
    case Deliver =>
      && w in s.waiters && s.waiters[w].Blocked?
      && var h := InfoOf(s, s.waiters[w].tid).handle; h.Some? && h.value.done
    case CancelWait => w in s.waiters && s.waiters[w].Blocked?
  }

  predicate ActEnabled(f: Faults, s: State, t: string, a: Act) {
    Can(InfoOf(s, t), a) && Permitted(f, s, t, Subject(InfoOf(s, t), a), a)
  }

  predicate Enabled(f: Faults, s: State, l: Label) {
    match l
    case Act(t, a) => ActEnabled(f, s, t, a)
    case Wait(w, a) => WaitEnabled(s, w, a)
    case TaskExits(c) => c.TaskOf?
    case VmDies(_) => f.vmDies
    case Crash => true
  }

  // ----- What an action changes outside its task's entry, place by place -----

  /** containerd */
  function StoreAfter(st: Store, r: TaskRecord, a: Act): Store {
    match a
    case Start(HaltLeftover) => Halt(st, r.container)
    case Start(DeleteLeftover) => DeleteContainer(st, r.container)
    case Start(CreateTask) => AddContainer(st, r.container)
    case Start(EncodeFails) => DeleteContainer(Halt(st, r.container), r.container)
    case Create(CreateSandbox) => AddContainer(st, r.sandbox)
    case Create(CreateMetadata) => AddMetadata(st, r.sandbox)
    case Create(BootVm) => Boot(st, r.sandbox)
    case Create(UndoMetadata) => DeleteMetadata(st, r.sandbox)
    case Create(UndoContainer) => DeleteContainer(st, r.sandbox)
    case Release(_, TearHalt) => Halt(st, r.sandbox)
    case Release(_, TearContainer) => DeleteContainer(st, r.sandbox)
    case Release(_, TearMetadata) => DeleteMetadata(st, r.sandbox)
    case Monitor(RunTask) => Boot(st, r.container)
    case Monitor(SweepHalt) => Halt(st, r.sandbox)
    case Monitor(SweepContainer) => DeleteContainer(st, r.sandbox)
    case Monitor(SweepMetadata) => DeleteMetadata(st, r.sandbox)
    case Monitor(SweepProcesses) => Halt(st, r.sandbox)
    case Destroy(KillTask) => Halt(st, r.container)
    case Destroy(DeleteTask) => Halt(st, r.container)
    case Destroy(DeleteTaskContainer) => DeleteContainer(st, r.container)
    case _ => st
  }

  /** The dead-sandbox markers on disk: one is written by a monitor, and removing a task's
      configuration directory removes those inside it. */
  function MarkersAfter(markers: set<string>, r: TaskRecord, a: Act): set<string> {
    match a
    case Monitor(WriteMarker) => markers + {r.alloc}
    case Destroy(RemoveDir) =>
      set b | b in markers && !RemovedWith(TaskConfigDir([], r.alloc, r.name), SandboxDeadPath([], b))
    case _ => markers
  }

  /** The manager's mutex */
  function LockAfter(lock: Lock, t: string, r: TaskRecord, a: Act): Lock {
    match a
    case Start(Miss) => Creating(t, r.alloc, AtPause)
    case Create(PullPause) => Creating(t, r.alloc, AtContainer)
    case Create(PullPauseFails) => Free
    case Create(CreateSandbox) => Creating(t, r.alloc, AtMetadata)
    case Create(CreateSandboxFails) => Free
    case Create(CreateMetadata) => Creating(t, r.alloc, AtBoot)
    case Create(CreateMetadataFails) => Creating(t, r.alloc, AtUndoContainer)
    case Create(BootVm) => Creating(t, r.alloc, AtPublish)
    case Create(BootVmFails) => Creating(t, r.alloc, AtUndoMetadata)
    case Create(UndoMetadata) => Creating(t, r.alloc, AtUndoContainer)
    case Create(UndoContainer) => Free
    case Create(Publish) => Free
    case Release(c, LastReference) => Tearing(t, c, r.alloc, AtHalt)
    case Release(c, TearHalt) => Tearing(t, c, r.alloc, AtDelete)
    case Release(c, TearContainer) => Tearing(t, c, r.alloc, AtDropMetadata)
    case Release(c, TearMetadata) => Tearing(t, c, r.alloc, AtUnmap)
    case Release(c, Unmap) => Free
    case _ => lock
  }

  function AddRefs(sandboxes: SandboxMap, alloc: string, n: int): SandboxMap
    requires alloc in sandboxes
  {
    sandboxes[alloc := sandboxes[alloc].(refs := sandboxes[alloc].refs + n)]
  }

  /** The map after taking one reference. */
  function Taken(sandboxes: SandboxMap, alloc: string): SandboxMap {
    if alloc in sandboxes then AddRefs(sandboxes, alloc, 1) else sandboxes[alloc := Entry(SandboxOf(alloc), 1)]
  }

  /** The manager's map */
  function SandboxesAfter(sandboxes: SandboxMap, r: TaskRecord, a: Act): SandboxMap {
    match a
    case Start(Reuse) => if r.alloc in sandboxes then AddRefs(sandboxes, r.alloc, 1) else sandboxes
    case Create(Publish) => sandboxes[r.alloc := Entry(r.sandbox, 1)]
    case Release(_, KeepSandbox) => if r.alloc in sandboxes then AddRefs(sandboxes, r.alloc, -1) else sandboxes
    case Release(_, LastReference) => if r.alloc in sandboxes then AddRefs(sandboxes, r.alloc, -1) else sandboxes
    case Release(_, Unmap) => sandboxes - {r.alloc}
    case Recover(RecoverNew) => sandboxes[r.alloc := Entry(r.sandbox, 1)]
    case Recover(RecoverKnown) => if r.alloc in sandboxes then AddRefs(sandboxes, r.alloc, 1) else sandboxes
    case _ => sandboxes
  }

  function TouchedAfter(touched: set<string>, r: TaskRecord, a: Act): set<string> {
    match a
    case Start(Begin(_)) => touched + {r.alloc}
    case Destroy(BeginForced) => touched + {r.alloc}
    case Destroy(BeginExited) => touched + {r.alloc}
    case _ => touched
  }

  function StaleAfter(stale: set<string>, r: TaskRecord, a: Act): set<string> {
    match a
    case Create(Publish) => stale - {r.alloc}
    case Recover(RecoverNew) => stale - {r.alloc}
    case Recover(RecoverKnown) => stale - {r.alloc}
    case _ => stale
  }

  function WaitersAfter(s: State, w: nat, a: WaitAct): map<nat, Waiter>
    requires WaitEnabled(s, w, a)
  {
    match a
    case BeginWait(t) => s.waiters[w := Blocked(t)]
    case Deliver => s.waiters[w := Delivered(s.waiters[w].tid, InfoOf(s, s.waiters[w].tid).handle.value.exit)]
    case CancelWait => s.waiters[w := Cancelled]
  }

  // ----- Steps and runs -----

  function ActStep(f: Faults, s: State, t: string, a: Act): State
    requires ActEnabled(f, s, t, a)
  {
    var r := Subject(InfoOf(s, t), a);
    State(StoreAfter(s.store, r, a),
          MarkersAfter(s.markers, r, a),
          LockAfter(s.lock, t, r, a),
          SandboxesAfter(s.sandboxes, r, a),
          s.tasks[t := After(InfoOf(s, t), a)],
          s.waiters,
          TouchedAfter(s.touched, r, a),
          StaleAfter(s.stale, r, a))
  }

  function CrashStep(s: State): State {
    State(s.store, s.markers, Free, map[], map t | t in s.tasks :: AfterCrash(s.tasks[t]), map[], {},
          set c | c in s.store.containers + s.store.metadata + s.store.running && c.SandboxOf? :: c.alloc)
  }

  function Step(f: Faults, s: State, l: Label): State
    requires Enabled(f, s, l)
  {
    match l
    case Act(t, a) => ActStep(f, s, t, a)
    case Wait(w, a) => s.(waiters := WaitersAfter(s, w, a))
    case TaskExits(c) => s.(store := Halt(s.store, c))
    case VmDies(alloc) => s.(store := Halt(s.store, SandboxOf(alloc)))
    case Crash => CrashStep(s)
  }

  /** `labels` can be executed one after the other from `s` and lead to `s'`. */
  predicate Run(f: Faults, s: State, labels: seq<Label>, s': State)
    decreases |labels|
  {
    if labels == [] then s' == s
    else Enabled(f, s, labels[0]) && Run(f, Step(f, s, labels[0]), labels[1..], s')
  }

  lemma {:induction false} RunAppend(f: Faults, s: State, ls: seq<Label>, s1: State, ms: seq<Label>, s2: State)
    requires Run(f, s, ls, s1) && Run(f, s1, ms, s2)
    ensures Run(f, s, ls + ms, s2)
    decreases |ls|
  {
    if ls == [] {
      assert ls + ms == ms;
    } else {
      RunAppend(f, Step(f, s, ls[0]), ls[1..], s1, ms, s2);
      assert (ls + ms)[1..] == ls[1..] + ms;
    }
  }

  /** Runs are extended one step at a time. */
  lemma RunSnoc(f: Faults, s: State, ls: seq<Label>, s1: State, l: Label)
    requires Run(f, s, ls, s1) && Enabled(f, s1, l)
    ensures Run(f, s, ls + [l], Step(f, s1, l))
  {
    assert Run(f, s1, [l], Step(f, s1, l)) by {
      assert [l][1..] == [];
    }
    RunAppend(f, s, ls, s1, [l], Step(f, s1, l));
  }

  // ----- Every entry is well-formed in every reachable state -----

  /** Only allocations with plain IDs are ever marked. */
  predicate PlainMarkers(markers: set<string>) {
    forall b :: b in markers ==> PlainComponent(b)
  }

  predicate AllOk(s: State) {
    (forall t :: t in s.tasks ==> Ok(s.tasks[t])) && PlainMarkers(s.markers)
  }

  lemma PlainMarkersAfter(markers: set<string>, r: TaskRecord, a: Act)
    requires PlainMarkers(markers) && WellFormedRecord(r)
    ensures PlainMarkers(MarkersAfter(markers, r, a))
  {
  }

  lemma AllOkStep(f: Faults, s: State, l: Label)
    requires AllOk(s) && Enabled(f, s, l)
    ensures AllOk(Step(f, s, l))
  {
    if l.Act? {
      OkAfter(InfoOf(s, l.tid), l.act);
      SubjectWellFormed(InfoOf(s, l.tid), l.act);
      PlainMarkersAfter(s.markers, Subject(InfoOf(s, l.tid), l.act), l.act);
    }
  }

  lemma {:induction false} AllOkRun(f: Faults, s: State, ls: seq<Label>, s': State)
    requires AllOk(s) && Run(f, s, ls, s')
    ensures AllOk(s')
    decreases |ls|
  {
    if ls != [] {
      AllOkStep(f, s, ls[0]);
      AllOkRun(f, Step(f, s, ls[0]), ls[1..], s');
    }
  }
}
