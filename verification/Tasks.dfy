/** Everything the driver knows about one task ID: the calls in flight for it, its handle with
    the goroutine that watches it, and its persisted record. One step of one call moves one
    task's entry; what it reads and changes outside that entry is in module Machine. */
module Tasks {
  import opened Names

  datatype Option<+T> = None | Some(value: T)

  datatype Exit = Exit(code: int, err: bool)

  predicate Abnormal(e: Exit) {
    e.code != 0 || e.err
  }

  /** The record a task handle is built from, and what is persisted for recovery. */
  datatype TaskRecord = TaskRecord(container: Cid, sandbox: Cid, alloc: string, name: string)

  function RecordOf(alloc: string, name: string): TaskRecord {
    TaskRecord(TaskOf(alloc, name), SandboxOf(alloc), alloc, name)
  }

  predicate WellFormedRecord(r: TaskRecord) {
    r == RecordOf(r.alloc, r.name) && PlainComponent(r.alloc) && ValidName(r.name)
  }

  /** StartTask: where the call stands. */
  datatype StartPc = Checked | Halted | Cleaned | InCreate | Acquired | Made | Launched | Stored | Failing | InTearDown

  datatype StartCall = StartCall(task: TaskRecord, pc: StartPc)

  /** The goroutine of a handle: run or monitorRecovered, then recordExit, then the close. */
  datatype MonitorPc =
    | Opening
    | Opened
    | InTask
    | Returned(result: Exit)
    | Condemning(result: Exit)
    | Marked(result: Exit)
    | SweptHalt(result: Exit)
    | SweptContainer(result: Exit)
    | SweptMetadata(result: Exit)
    | Recording(result: Exit)
    | Closing
    | Finished

  /** `sawDead` and `markFailed` remember what the goroutine learned; the code does not read them. */
  datatype Handle = Handle(task: TaskRecord, recovered: bool, pc: MonitorPc,
                           exit: Option<Exit>, done: bool, sawDead: bool, markFailed: bool)

  function NewHandle(r: TaskRecord, recovered: bool): Handle {
    Handle(r, recovered, Opening, None, false, false, false)
  }

  datatype DestroyPc = Killing | Waiting | Stopped | TaskDeleted | ContainerDeleted | TearingDown | Released | DirRemoved

  datatype RecoverPc = SeenRunning | Attached | Watched

  datatype Info = Info(persisted: Option<TaskRecord>, start: Option<StartCall>, handle: Option<Handle>,
                       stored: bool, destroy: Option<DestroyPc>, recover: Option<RecoverPc>)

  const BLANK := Info(None, None, None, false, None, None)

  /** The entry of a task that RecoverTask has recovered from its record. */
  function RecoveredInfo(r: TaskRecord): Info {
    BLANK.(persisted := Some(r), handle := Some(NewHandle(r, true)), stored := true)
  }

  // ----- Actions -----

  datatype StartAct =
    | Refuse(task: TaskRecord)
    | Begin(task: TaskRecord)
    | Reject
    | HaltLeftover
    | DeleteLeftover
    | Reuse
    | Miss
    | FailEarly
    | CreateTask
    | CreateTaskFails
    | Launch
    | StoreHandle
    | Return
    | EncodeFails

  /** GetOrCreate after a miss. */
  datatype CreateAct =
    | PullPause
    | PullPauseFails
    | CreateSandbox
    | CreateSandboxFails
    | CreateMetadata
    | CreateMetadataFails
    | BootVm
    | BootVmFails
    | UndoMetadata
    | UndoContainer
    | Publish

  datatype Caller = StartTask | DestroyTask

  datatype ReleaseAct = NothingHeld | KeepSandbox | LastReference | TearHalt | TearContainer | TearMetadata | Unmap

  /** What TaskState says about the sandbox: `running` with no error, or one of two kinds of error. */
  datatype Reading = Running | NotRunning | TransportClosed | OtherError

  /** The decision of recordExit on a reading. */
  predicate ConcludesDead(r: Reading) {
    r == NotRunning || r == TransportClosed
  }

  datatype MonitorAct =
    | OpenLogs
    | OpenLogsFails
    | RunTask
    | AttachTask
    | RunFails
    | TaskReturns(exit: Exit)
    | SkipProbe
    | Probe(reading: Reading)
    | WriteMarker
    | WriteMarkerFails
    | SweepHalt
    | SweepContainer
    | SweepMetadata
    | SweepProcesses
    | SweepProcessesFails
    | SetExit
    | CloseDone

  datatype DestroyAct =
    | RefuseDestroy
    | BeginForced
    | BeginExited
    | KillTask
    | KillFails
    | SeeDone
    | GiveUp
    | DeleteTask
    | DeleteTaskContainer
    | RemoveDir
    | Forget

  datatype RecoverAct = FindGone | FindRunning | RecoverNew | RecoverKnown | Watch | Keep

  datatype Act =
    | Start(start: StartAct)
    | Create(create: CreateAct)
    | Monitor(monitor: MonitorAct)
    | Destroy(destroy: DestroyAct)
    | Release(caller: Caller, release: ReleaseAct)
    | Recover(recover: RecoverAct)

  // ----- When an action can happen, as far as the task's own entry decides -----

  predicate StartAt(i: Info, pc: StartPc) {
    i.start.Some? && i.start.value.pc == pc
  }

  predicate CanStart(i: Info, a: StartAct) {
    match a
    case Refuse(r) => i == BLANK && WellFormedRecord(r)
    case Begin(r) => i == BLANK && WellFormedRecord(r)
    case Reject => StartAt(i, Checked)
    case HaltLeftover => StartAt(i, Checked)
    case DeleteLeftover => StartAt(i, Halted)
    case Reuse => StartAt(i, Cleaned)
    case Miss => StartAt(i, Cleaned)
    case FailEarly => StartAt(i, Acquired)
    case CreateTask => StartAt(i, Acquired)
    case CreateTaskFails => StartAt(i, Acquired)
    case Launch => StartAt(i, Made)
    case StoreHandle => StartAt(i, Launched)
    case Return => StartAt(i, Stored) && i.handle.Some?
    case EncodeFails => StartAt(i, Stored)
  }

  predicate CanMonitor(i: Info, a: MonitorAct) {
    && i.handle.Some?
    && var h := i.handle.value;
    match a
    case OpenLogs => h.pc.Opening?
    case OpenLogsFails => h.pc.Opening?
    case RunTask => h.pc.Opened? && !h.recovered
    case AttachTask => h.pc.Opened? && h.recovered
    case RunFails => h.pc.Opened?
    case TaskReturns(_) => h.pc.InTask?
    case SkipProbe => h.pc.Returned? && !Abnormal(h.pc.result)
    case Probe(_) => h.pc.Returned? && Abnormal(h.pc.result)
    case WriteMarker => h.pc.Condemning?
    case WriteMarkerFails => h.pc.Condemning?
    case SweepHalt => h.pc.Marked?
    case SweepContainer => h.pc.SweptHalt?
    case SweepMetadata => h.pc.SweptContainer?
    case SweepProcesses => h.pc.SweptMetadata?
    case SweepProcessesFails => h.pc.SweptMetadata?
    case SetExit => h.pc.Recording?
    case CloseDone => h.pc.Closing?
  }

  predicate DestroyAt(i: Info, pc: DestroyPc) {
    i.destroy == Some(pc)
  }

  predicate CanDestroy(i: Info, a: DestroyAct) {
    && i.handle.Some?
    && var h := i.handle.value;
    match a
    case RefuseDestroy => i.stored && i.destroy.None? && h.exit.None?
    case BeginForced => i.stored && i.destroy.None? && h.exit.None?
    case BeginExited => i.stored && i.destroy.None? && h.exit.Some?
    case KillTask => DestroyAt(i, Killing)
    case KillFails => DestroyAt(i, Killing)
    case SeeDone => DestroyAt(i, Waiting) && h.done
    case GiveUp => DestroyAt(i, Waiting)
    case DeleteTask => DestroyAt(i, Stopped)
    case DeleteTaskContainer => DestroyAt(i, TaskDeleted)
    case RemoveDir => DestroyAt(i, Released)
    case Forget => DestroyAt(i, DirRemoved)
  }

  predicate CanRelease(i: Info, c: Caller, a: ReleaseAct) {
    var entering := a.NothingHeld? || a.KeepSandbox? || a.LastReference?;
    match c
    case StartTask => StartAt(i, if entering then Failing else InTearDown)
    case DestroyTask => i.handle.Some? && DestroyAt(i, if entering then ContainerDeleted else TearingDown)
  }

  predicate CanRecover(i: Info, a: RecoverAct) {
    && i.persisted.Some?
    && match a
       case FindGone => i.recover.None? && i.handle.None? && i.start.None?
       case FindRunning => i.recover.None? && i.handle.None? && i.start.None?
       case RecoverNew => i.recover == Some(SeenRunning)
       case RecoverKnown => i.recover == Some(SeenRunning)
       case Watch => i.recover == Some(Attached)
       case Keep => i.recover == Some(Watched)
  }

  predicate Can(i: Info, a: Act) {
    match a
    case Start(b) => CanStart(i, b)
    case Create(_) => StartAt(i, InCreate)
    case Monitor(b) => CanMonitor(i, b)
    case Destroy(b) => CanDestroy(i, b)
    case Release(c, b) => CanRelease(i, c, b)
    case Recover(b) => CanRecover(i, b)
  }

  // ----- What an action makes of the task's own entry -----

  function ToStart(i: Info, pc: StartPc): Info
    requires i.start.Some?
  {
    i.(start := Some(i.start.value.(pc := pc)))
  }

  function AfterStart(i: Info, a: StartAct): Info
    requires CanStart(i, a)
  {
    match a
    case Refuse(_) => i
    case Begin(r) => i.(start := Some(StartCall(r, Checked)))
    case Reject => i.(start := None)
    case HaltLeftover => ToStart(i, Halted)
    case DeleteLeftover => ToStart(i, Cleaned)
    case Reuse => ToStart(i, Acquired)
    case Miss => ToStart(i, InCreate)
    case FailEarly => ToStart(i, Failing)
    case CreateTask => ToStart(i, Made)
    case CreateTaskFails => ToStart(i, Failing)
    case Launch => ToStart(i, Launched).(handle := Some(NewHandle(i.start.value.task, false)))
    case StoreHandle => ToStart(i, Stored).(stored := true)
    case Return => i.(start := None, persisted := Some(i.handle.value.task))
    case EncodeFails => ToStart(i, Failing)
  }

  /** The last act of a failed creation ends the StartTask call, which holds nothing yet. */
  function AfterCreate(i: Info, a: CreateAct): Info
    requires StartAt(i, InCreate)
  {
    match a
    case PullPauseFails => i.(start := None)
    case CreateSandboxFails => i.(start := None)
    case UndoContainer => i.(start := None)
    case Publish => ToStart(i, Acquired)
    case _ => i
  }

  function ToMonitor(i: Info, pc: MonitorPc): Info
    requires i.handle.Some?
  {
    i.(handle := Some(i.handle.value.(pc := pc)))
  }

  function AfterMonitor(i: Info, a: MonitorAct): Info
    requires CanMonitor(i, a)
  {
    var h := i.handle.value;
    match a
    case OpenLogs => ToMonitor(i, Opened)
    case OpenLogsFails => ToMonitor(i, Recording(if h.recovered then Exit(0, false) else Exit(1, true)))
    case RunTask => ToMonitor(i, InTask)
    case AttachTask => ToMonitor(i, InTask)
    case RunFails => ToMonitor(i, Returned(Exit(-1, true)))
    case TaskReturns(e) => ToMonitor(i, Returned(e))
    case SkipProbe => ToMonitor(i, Recording(h.pc.result))
    case Probe(r) =>
      if ConcludesDead(r) then i.(handle := Some(h.(pc := Condemning(h.pc.result), sawDead := true)))
      else ToMonitor(i, Recording(h.pc.result))
    case WriteMarker => ToMonitor(i, Marked(h.pc.result))
    case WriteMarkerFails => i.(handle := Some(h.(pc := Recording(h.pc.result), markFailed := true)))
    case SweepHalt => ToMonitor(i, SweptHalt(h.pc.result))
    case SweepContainer => ToMonitor(i, SweptContainer(h.pc.result))
    case SweepMetadata => ToMonitor(i, SweptMetadata(h.pc.result))
    case SweepProcesses => ToMonitor(i, Recording(h.pc.result))
    case SweepProcessesFails => ToMonitor(i, Recording(h.pc.result))
    case SetExit => i.(handle := Some(h.(pc := Closing, exit := Some(h.pc.result))))
    case CloseDone => i.(handle := Some(h.(pc := Finished, done := true)))
  }

  function ToDestroy(i: Info, pc: DestroyPc): Info {
    i.(destroy := Some(pc))
  }

  function AfterDestroy(i: Info, a: DestroyAct): Info {
    match a
    case RefuseDestroy => i
    case BeginForced => ToDestroy(i, Killing)
    case BeginExited => ToDestroy(i, Stopped)
    case KillTask => ToDestroy(i, Waiting)
    case KillFails => ToDestroy(i, Waiting)
    case SeeDone => ToDestroy(i, Stopped)
    case GiveUp => ToDestroy(i, Stopped)
    case DeleteTask => ToDestroy(i, TaskDeleted)
    case DeleteTaskContainer => ToDestroy(i, ContainerDeleted)
    case RemoveDir => ToDestroy(i, DirRemoved)
    case Forget => i.(destroy := None, stored := false)
  }

  /** When Release is through, StartTask returns its error and DestroyTask goes on. */
  function AfterRelease(i: Info, c: Caller, a: ReleaseAct): Info
    requires CanRelease(i, c, a)
  {
    match a
    case NothingHeld => if c == StartTask then i.(start := None) else ToDestroy(i, Released)
    case KeepSandbox => if c == StartTask then i.(start := None) else ToDestroy(i, Released)
    case LastReference => if c == StartTask then ToStart(i, InTearDown) else ToDestroy(i, TearingDown)
    case Unmap => if c == StartTask then i.(start := None) else ToDestroy(i, Released)
    case _ => i
  }

  function AfterRecover(i: Info, a: RecoverAct): Info
    requires CanRecover(i, a)
  {
    match a
    case FindGone => i
    case FindRunning => i.(recover := Some(SeenRunning))
    case RecoverNew => i.(recover := Some(Attached))
    case RecoverKnown => i.(recover := Some(Attached))
    case Watch => i.(recover := Some(Watched), handle := Some(NewHandle(i.persisted.value, true)))
    case Keep => i.(recover := None, stored := true)
  }

  function After(i: Info, a: Act): Info
    requires Can(i, a)
  {
    match a
    case Start(b) => AfterStart(i, b)
    case Create(b) => AfterCreate(i, b)
    case Monitor(b) => AfterMonitor(i, b)
    case Destroy(b) => AfterDestroy(i, b)
    case Release(c, b) => AfterRelease(i, c, b)
    case Recover(b) => AfterRecover(i, b)
  }

  /** A crash of the driver process leaves only the persisted record. */
  function AfterCrash(i: Info): Info {
    BLANK.(persisted := i.persisted)
  }

  /** The task an action of this entry is about. */
  function Subject(i: Info, a: Act): TaskRecord
    requires Can(i, a)
  {
    match a
    case Start(Refuse(r)) => r
    case Start(Begin(r)) => r
    case Start(_) => i.start.value.task
    case Create(_) => i.start.value.task
    case Monitor(_) => i.handle.value.task
    case Destroy(_) => i.handle.value.task
    case Release(c, _) => if c == StartTask then i.start.value.task else i.handle.value.task
    case Recover(_) => i.persisted.value
  }

  // ----- What holds of every entry -----

  predicate BeforeLaunch(pc: StartPc) {
    pc.Checked? || pc.Halted? || pc.Cleaned? || pc.InCreate? || pc.Acquired? || pc.Made?
  }

  predicate StartOk(i: Info) {
    i.start.Some? ==>
      var call := i.start.value;
      && WellFormedRecord(call.task)
      && i.persisted.None? && i.recover.None?
      && (BeforeLaunch(call.pc) ==> i.handle.None? && !i.stored)
      && (call.pc.Launched? ==> i.handle.Some? && !i.stored)
      && (i.handle.Some? ==> i.handle.value.task == call.task)
  }

  predicate HandleOk(h: Handle) {
    && WellFormedRecord(h.task)
    && (h.exit.Some? <==> h.pc.Closing? || h.pc.Finished?)
    && (h.done <==> h.pc.Finished?)
    && (h.sawDead ==> !(h.pc.Opening? || h.pc.Opened? || h.pc.InTask? || h.pc.Returned?))
    && (h.pc.Condemning? || Sweeping(h) ==> h.sawDead && !h.markFailed)
    && (h.markFailed ==> h.sawDead)
  }

  /** The marker is written and the clean-up that follows it is under way. */
  predicate Sweeping(h: Handle) {
    h.pc.Marked? || h.pc.SweptHalt? || h.pc.SweptContainer? || h.pc.SweptMetadata?
  }

  /** The goroutine may still come to read the sandbox's state. */
  predicate Undecided(h: Handle) {
    h.pc.Opening? || h.pc.Opened? || h.pc.InTask? || h.pc.Returned?
  }

  predicate RecoverOk(i: Info) {
    i.recover.Some? ==>
      && i.persisted.Some? && !i.stored
      && (i.handle.Some? <==> i.recover.value.Watched?)
  }

  predicate Ok(i: Info) {
    && StartOk(i)
    && RecoverOk(i)
    && (i.handle.Some? ==> HandleOk(i.handle.value))
    && (i.persisted.Some? ==> WellFormedRecord(i.persisted.value))
    && (i.handle.Some? && i.persisted.Some? ==> i.handle.value.task == i.persisted.value)
    && (i.stored ==> i.handle.Some?)
    && (i.destroy.Some? ==> i.stored)
  }

  lemma OkAfterStart(i: Info, a: StartAct)
    requires Ok(i) && CanStart(i, a)
    ensures Ok(AfterStart(i, a))
  {
    match a case _ =>
  }

  /** A goroutine moves only its own handle. */
  lemma OkWithHandle(i: Info, h: Handle)
    requires Ok(i) && i.handle.Some? && HandleOk(h) && h.task == i.handle.value.task
    ensures Ok(i.(handle := Some(h)))
  {
  }

  lemma MovesHandle(i: Info, a: MonitorAct)
    requires CanMonitor(i, a)
    ensures var j := AfterMonitor(i, a);
            j.handle.Some? && j == i.(handle := j.handle) && j.handle.value.task == i.handle.value.task
  {
  }

  lemma HandleOkAfter(i: Info, a: MonitorAct)
    requires CanMonitor(i, a) && HandleOk(i.handle.value)
    ensures HandleOk(AfterMonitor(i, a).handle.value)
  {
    match a
    case Probe(r) =>
    case WriteMarkerFails =>
    case SetExit =>
    case CloseDone =>
    case _ =>
  }

  lemma OkAfterMonitor(i: Info, a: MonitorAct)
    requires Ok(i) && CanMonitor(i, a)
    ensures Ok(AfterMonitor(i, a))
  {
    MovesHandle(i, a);
    HandleOkAfter(i, a);
    OkWithHandle(i, AfterMonitor(i, a).handle.value);
  }

  lemma OkAfterDestroy(i: Info, a: DestroyAct)
    requires Ok(i) && CanDestroy(i, a)
    ensures Ok(AfterDestroy(i, a))
  {
  }

  lemma OkAfterRelease(i: Info, c: Caller, a: ReleaseAct)
    requires Ok(i) && CanRelease(i, c, a)
    ensures Ok(AfterRelease(i, c, a))
  {
  }

  lemma OkAfterRecover(i: Info, a: RecoverAct)
    requires Ok(i) && CanRecover(i, a)
    ensures Ok(AfterRecover(i, a))
  {
  }

  /** Every action keeps what holds of the entry it moves. */
  lemma OkAfter(i: Info, a: Act)
    requires Ok(i) && Can(i, a)
    ensures Ok(After(i, a))
  {
    match a
    case Start(b) => OkAfterStart(i, b);
    case Monitor(b) => OkAfterMonitor(i, b);
    case Create(b) =>
    case Destroy(b) => OkAfterDestroy(i, b);
    case Release(c, b) => OkAfterRelease(i, c, b);
    case Recover(b) => OkAfterRecover(i, b);
  }

  lemma SubjectWellFormed(i: Info, a: Act)
    requires Ok(i) && Can(i, a)
    ensures WellFormedRecord(Subject(i, a))
  {
  }

  // ----- Every entry is about one allocation -----

  predicate Belongs(i: Info, alloc: string) {
    && (i.start.Some? ==> i.start.value.task.alloc == alloc)
    && (i.handle.Some? ==> i.handle.value.task.alloc == alloc)
    && (i.persisted.Some? ==> i.persisted.value.alloc == alloc)
  }

  lemma BelongsToSubject(i: Info, a: Act)
    requires Ok(i) && Can(i, a)
    ensures Belongs(i, Subject(i, a).alloc)
  {
  }

  lemma StillBelongs(i: Info, a: Act)
    requires Ok(i) && Can(i, a) && a != Start(Refuse(Subject(i, a)))
    ensures Belongs(After(i, a), Subject(i, a).alloc)
  {
    BelongsToSubject(i, a);
    match a
    case Start(b) =>
    case Monitor(b) => MovesHandle(i, b);
    case Create(b) =>
    case Destroy(b) =>
    case Release(c, b) =>
    case Recover(b) =>
  }
}
