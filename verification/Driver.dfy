/** StartTask, RecoverTask and DestroyTask, run without interleaving except that a destroy waits for
    the task's goroutine; between calls a goroutine has not begun, waits for its task, or is done.
    Every call is a run of the state machine, so what is proved of all runs holds of the states these
    calls leave behind. */
module Driver {
  import opened Names
  import opened Runtime
  import opened Tasks
  import opened Machine
  import Containerd
  import History
  import Host
  import Sandbox
  import Handle
  import References
  import Agreement
  import FalsePoisoning
  import Poison

  datatype StartError = EmptyAlloc | SandboxTerminated | BadConfig | SandboxSetup | TaskSetup | TaskContainer | StateEncoding

  /** What a waiter is answered: the result from doneCh, or the error of its own context. */
  datatype Answer = Result(exit: Option<Exit>) | ContextError

  datatype DestroyResult = Missing | StillRunning | Destroyed

  datatype StartResult = Started | Failed(error: StartError)

  /** Which results leave a handle in the task store. */
  predicate LeavesHandle(res: StartResult) {
    res.Started? || res == Failed(StateEncoding)
  }

  /** The calls StartTask makes in order, once its allocation is found unmarked; `known` says that the
      allocation has a sandbox already. */
  function StartPlan(r: TaskRecord, known: bool): seq<Host.Call> {
    [Host.DecodeConfig] + SandboxPlan(r, known)
  }

  function SandboxPlan(r: TaskRecord, known: bool): seq<Host.Call> {
    VmPlan(r.alloc, known) + TaskPlan(r)
  }

  function VmPlan(alloc: string, known: bool): seq<Host.Call> {
    if known then [] else Sandbox.CreationPlan(alloc)
  }

  function TaskPlan(r: TaskRecord): seq<Host.Call> {
    [Host.PrepareTask] + ContainerPlan(r.container)
  }

  function ContainerPlan(c: Cid): seq<Host.Call> {
    [Host.CreateContainer(c)] + ENCODING
  }

  const ENCODING := [Host.EncodeState]

  /** The error of a start whose call `c` is refused. */
  function ErrorOf(c: Host.Call): (e: StartError)
    ensures e != EmptyAlloc && e != SandboxTerminated
  {
    match c
    case DecodeConfig => BadConfig
    case PrepareTask => TaskSetup
    case CreateContainer(id) => if id.TaskOf? then TaskContainer else SandboxSetup
    case EncodeState => StateEncoding
    case _ => SandboxSetup
  }

  /** From the answers `said` to `said'` the calls of `plan` have been made until one was refused, `k` of
      them were granted, and `res` is what this makes of a start. */
  predicate Told(said: seq<Host.Answer>, said': seq<Host.Answer>, plan: seq<Host.Call>, k: nat, res: StartResult) {
    && k <= |plan| && said' == said + Host.Answers(plan, k)
    && res == if k == |plan| then Started else Failed(ErrorOf(plan[k]))
  }

  /** One call first, and the rest of the plan unless it is refused. */
  lemma ToldFirst(said: seq<Host.Answer>, said1: seq<Host.Answer>, said': seq<Host.Answer>, c: Host.Call, ok: bool,
          plan: seq<Host.Call>, k: nat, res: StartResult)
    requires said1 == said + [Host.Reply(c, ok)]
    requires if ok then Told(said1, said', plan, k, res) else said' == said1 && res == Failed(ErrorOf(c))
    ensures Told(said, said', [c] + plan, if ok then 1 + k else 0, res)
  {
    Host.AnswersFirst(c, plan, if ok then k else 0);
  }

  /** The last call. */
  lemma ToldLast(said: seq<Host.Answer>, said': seq<Host.Answer>, c: Host.Call, ok: bool, res: StartResult)
    requires said' == said + [Host.Reply(c, ok)] && res == if ok then Started else Failed(ErrorOf(c))
    ensures Told(said, said', [c], One(ok), res)
  {
    ToldFirst(said, said', said', c, ok, [], 0, res);
    assert [c] + [] == [c];
  }

  lemma ToldRest(said: seq<Host.Answer>, said1: seq<Host.Answer>, said': seq<Host.Answer>, p: seq<Host.Call>,
          q: seq<Host.Call>, j: nat, ok: bool, k: nat, res: StartResult)
    requires Host.Followed(said, said1, p, j, ok)
    requires if ok then Told(said1, said', q, k, res) else said' == said1 && res == Failed(ErrorOf(p[j]))
    ensures Told(said, said', p + q, if ok then j + k else j, res)
  {
    Host.AnswersInTwo(p + q, |p|, if ok then j + k else j);
    assert (p + q)[..|p|] == p && (p + q)[|p|..] == q;
  }

  /** First the sandbox, and then the task unless that fails. */
  lemma ToldSandbox(said: seq<Host.Answer>, said1: seq<Host.Answer>, said': seq<Host.Answer>, r: TaskRecord,
          known: bool, j: nat, ok: bool, k: nat, res: StartResult)
    requires Host.Followed(said, said1, VmPlan(r.alloc, known), j, ok)
    requires if ok then Told(said1, said', TaskPlan(r), k, res) else said' == said1 && res == Failed(SandboxSetup)
    ensures Told(said, said', SandboxPlan(r, known), if ok then j + k else j, res)
  {
    ToldRest(said, said1, said', VmPlan(r.alloc, known), TaskPlan(r), j, ok, k, res);
  }

  /** A start is Started exactly if every call was granted. Otherwise it fails with the error of the one
      call that was refused, the last that was made. */
  lemma StartedIff(said: seq<Host.Answer>, r: TaskRecord, known: bool, k: nat, res: StartResult)
    requires Told([], said, StartPlan(r, known), k, res)
    ensures res == Started <==> forall a :: a in said ==> Host.Grants(a)
    ensures forall i :: 0 <= i < |said| ==> said[i].Reply? && said[i].call == StartPlan(r, known)[i]
    ensures forall i :: 0 <= i < |said| && !said[i].granted ==> i == |said| - 1 && res == Failed(ErrorOf(said[i].call))
  {
    Host.AnswersGrant(StartPlan(r, known), k);
  }

  /** What a destroy hears while it waits: that it gave up, or all its goroutine hears up to its end. */
  predicate WaitAnswers(said: seq<Host.Answer>, r: TaskRecord, recovered: bool, inTask: bool, end: Option<Exit>,
          marked: bool) {
    && |said| > 0
    && if said[0] == Host.Reply(Host.AwaitDone(r.container), false) then |said| == 1 && !marked && end == None
       else
         && said[0] == Host.Reply(Host.AwaitDone(r.container), true) && end.Some?
         && Handle.RunAnswers(said[1..], r, recovered, inTask, end.value, marked)
  }

  /** What the destroy of a running task hears until it goes on to the deletions. */
  predicate StopAnswers(said: seq<Host.Answer>, r: TaskRecord, recovered: bool, inTask: bool, end: Option<Exit>,
          marked: bool) {
    && |said| > 0 && said[0].Reply? && said[0].call == Host.Kill(r.container)
    && WaitAnswers(said[1..], r, recovered, inTask, end, marked)
  }

  /** What the destroy of a task hears whose result was `was` before and is `end` after: nothing if the
      task has exited. */
  predicate DestroyAnswers(said: seq<Host.Answer>, r: TaskRecord, recovered: bool, inTask: bool, was: Option<Exit>,
          end: Option<Exit>, marked: bool) {
    if was.Some? then said == [] && !marked else StopAnswers(said, r, recovered, inTask, end, marked)
  }

  ghost predicate SameSandboxes(st: Store, st': Store) {
    forall a :: SameSandbox(st, st', a)
  }

  lemma SameTransitive(st: Store, st1: Store, st2: Store)
    ensures SameSandboxes(st, st1) && SameSandboxes(st1, st2) ==> SameSandboxes(st, st2)
  {
    forall a | SameSandbox(st, st1, a) && SameSandbox(st1, st2, a)
      ensures SameSandbox(st, st2, a)
    {
    }
  }

  lemma LeftoverCleanup(st: Store, c: Cid)
    requires c.TaskOf?
    ensures SameSandboxes(st, DeleteContainer(Halt(st, c), c))
  {
  }

  /** Taking a reference and dropping it again leaves the counts as they were. */
  lemma TakenAndDropped(m: SandboxMap, alloc: string)
    ensures alloc in m ==> AddRefs(AddRefs(m, alloc, 1), alloc, -1) == m
    ensures alloc !in m ==> m[alloc := Entry(SandboxOf(alloc), 1)] - {alloc} == m
  {
  }

  /** Building a sandbox from nothing and tearing it down leaves every sandbox as it was. */
  lemma BuiltAndTornDown(st: Store, alloc: string)
    requires !HasSandbox(st, alloc)
    ensures SameSandboxes(st, TornDown(Sandbox.Built(st, alloc, AtPublish), alloc))
  {
  }

  /** Tearing down sees only what is under the sandbox IDs. */
  lemma TornDownSame(st: Store, st': Store, alloc: string)
    requires SameSandboxes(st, st')
    ensures SameSandboxes(TornDown(st, alloc), TornDown(st', alloc))
  {
    forall a
      ensures SameSandbox(TornDown(st, alloc), TornDown(st', alloc), a)
    {
      assert SameSandbox(st, st', a);
    }
  }

  predicate Held(m: SandboxMap) {
    forall a :: a in m ==> m[a].refs >= 1
  }

  lemma HeldTaken(m: SandboxMap, alloc: string)
    requires Held(m)
    ensures Held(Taken(m, alloc))
  {
  }

  /** The map knows the allocation, or containerd has nothing under its sandbox ID. */
  predicate Agreeing(m: SandboxMap, st: Store, alloc: string) {
    alloc in m || !HasSandbox(st, alloc)
  }

  /** What containerd holds once the call has its reference. */
  function Acquiring(m: SandboxMap, st: Store, alloc: string): Store {
    if alloc in m then st else Sandbox.Built(st, alloc, AtPublish)
  }

  /** The task container of `r` is gone, and its sandbox is as a release from the counts `m` leaves it:
      without anything if this was the last reference, and otherwise as it was unless the allocation is
      marked. Nothing of other allocations and no other task's container has moved. */
  ghost predicate DestroyEffect(m: SandboxMap, st: Store, st': Store, dead: set<string>, r: TaskRecord) {
    && OwnOnly(st, st', r.container) && r.container !in st'.containers
    && if r.alloc in m && m[r.alloc].refs <= 1 then !HasSandbox(st', r.alloc)
       else r.alloc !in dead ==> SameSandbox(st, st', r.alloc)
  }

  /** Stopping the task with effect, deleting it, and releasing its reference, in a row. */
  lemma DestroyedInRow(m: SandboxMap, st: Store, st1: Store, m': SandboxMap, st': Store, dead: set<string>,
          r: TaskRecord)
    requires WellFormedRecord(r) && Handle.Effect(st, st1, dead, r)
    requires Dropped(m, DeleteContainer(Halt(st1, r.container), r.container), m', st', r.alloc)
    ensures DestroyEffect(m, st, st', dead, r)
  {
    var st2 := DeleteContainer(Halt(st1, r.container), r.container);
    TaskDeletedOwnOnly(st1, r.container);
    OwnOnlyThen(st, st1, st2, r.container);
    if r.alloc in m && m[r.alloc].refs <= 1 {
      TornDownOwnOnly(st2, r.container);
      OwnOnlyThen(st, st2, st', r.container);
    } else {
      assert SameSandbox(st1, st2, r.alloc);
    }
  }

  /** One reference less in the map, or none of the allocation left in map and containerd. */
  predicate Dropped(m: SandboxMap, st: Store, m': SandboxMap, st': Store, alloc: string) {
    if alloc !in m then m' == m && st' == st
    else if m[alloc].refs > 1 then m' == AddRefs(m, alloc, -1) && st' == st
    else m' == m - {alloc} && st' == TornDown(st, alloc)
  }

  class Driver {
    const ctr: Containerd.Client
    const mgr: Sandbox.SandboxManager
    const dir: Handle.StateDir
    ghost const journal: History.Journal
    const mayGiveUp: bool
    const mayFailEncoding: bool
    var tasks: map<string, Handle.TaskHandle>

    ghost predicate Wired() {
      && mgr.ctr == ctr && dir.ctr == ctr && mgr.journal == journal && dir.journal == journal
      && (mayGiveUp ==> journal.faults.destroyGivesUp) && (mayFailEncoding ==> journal.faults.encodeFails)
    }

    /** Manager, state directory and containerd are consistent and nobody is inside the manager. */
    ghost predicate Consistent()
      reads this, mgr, mgr.sandboxes.Values, dir, ctr, journal
    {
      && Wired() && mgr.Valid() && dir.Valid() && journal.state.lock.Free?
    }

    constructor (mayGiveUp: bool, mayFailEncoding: bool, ghost faults: Faults)
      requires (mayGiveUp ==> faults.destroyGivesUp) && (mayFailEncoding ==> faults.encodeFails)
      ensures Valid() && journal.faults == faults && tasks == map[] && mgr.sandboxes == map[]
    {
      var c := new Containerd.Client();
      ghost var j := new History.Journal(faults);
      var m := new Sandbox.SandboxManager(c, j);
      var d := new Handle.StateDir(c, j);
      ctr, mgr, dir, journal, tasks := c, m, d, j, map[];
      this.mayGiveUp, this.mayFailEncoding := mayGiveUp, mayFailEncoding;
      new;
      assert mgr.Entries() == map[];
    }

    // ----- StartTask -----

    ghost method Note(tbl: map<string, Info>, t: string, i: Info, a: StartAct, j: Info)
      requires journal.Valid() && journal.state.tasks == tbl[t := i] && CanStart(i, a) && AfterStart(i, a) == j
      requires StartPermitted(journal.faults, journal.state, Subject(i, Start(a)), a)
      modifies journal
      ensures journal.Valid() && journal.state.tasks == tbl[t := j]
      ensures journal.state.store == StoreAfter(old(journal.state.store), Subject(i, Start(a)), Start(a))
      ensures journal.state.lock == LockAfter(old(journal.state.lock), t, Subject(i, Start(a)), Start(a))
      ensures journal.state.sandboxes == SandboxesAfter(old(journal.state.sandboxes), Subject(i, Start(a)), Start(a))
      ensures journal.state.markers == old(journal.state.markers)
    {
      journal.Take(t, Start(a));
      History.Twice(tbl, t, i, j);
    }

    function Call(r: TaskRecord, pc: StartPc): Info {
      BLANK.(start := Some(StartCall(r, pc)))
    }

    /** In the task table `tbl`, only the StartTask call of `t` has moved: to `pc`. */
    ghost predicate InCall(tbl: map<string, Info>, t: string, r: TaskRecord, pc: StartPc)
      reads this, mgr, mgr.sandboxes.Values, dir, ctr, journal
    {
      Consistent() && WellFormedRecord(r) && journal.state.tasks == tbl[t := Call(r, pc)]
    }

    /** The call is over without a handle. */
    ghost predicate Ended(tbl: map<string, Info>, t: string)
      reads this, mgr, mgr.sandboxes.Values, dir, ctr, journal
    {
      Consistent() && journal.state.tasks == tbl[t := BLANK]
    }

    method Check(ghost tbl: map<string, Info>, ghost t: string, r: TaskRecord) returns (dead: bool)
      requires Consistent() && journal.state.tasks == tbl && journal.Entry(t) == BLANK && WellFormedRecord(r)
      requires !Recovering(journal.state, r.alloc)
      modifies journal
      ensures dead == (r.alloc in dir.dead)
      ensures if dead then Ended(tbl, t) else InCall(tbl, t, r, Checked)
    {
      dead := dir.SandboxDead(r.alloc);
      if dead {
        journal.Take(t, Start(Refuse(r)));
      } else {
        journal.Take(t, Start(Begin(r)));
      }
    }

    ghost method NoteRejected(tbl: map<string, Info>, t: string, r: TaskRecord)
      requires InCall(tbl, t, r, Checked)
      modifies journal
      ensures Ended(tbl, t)
    {
      Note(tbl, t, Call(r, Checked), Reject, BLANK);
    }

    method CleanLeftover(ghost tbl: map<string, Info>, ghost t: string, r: TaskRecord)
      requires InCall(tbl, t, r, Checked)
      modifies journal, ctr
      ensures InCall(tbl, t, r, Cleaned)
      ensures ctr.View() == DeleteContainer(Halt(old(ctr.View()), r.container), r.container)
    {
      ctr.DeleteTask(r.container);
      Note(tbl, t, Call(r, Checked), HaltLeftover, Call(r, Halted));
      ctr.DeleteContainer(r.container);
      Note(tbl, t, Call(r, Halted), DeleteLeftover, Call(r, Cleaned));
    }

    method AcquireSandbox(ghost tbl: map<string, Info>, ghost t: string, r: TaskRecord) returns (ok: bool, ghost k: nat)
      requires InCall(tbl, t, r, Cleaned)
      requires r.alloc in mgr.sandboxes ==> mgr.sandboxes[r.alloc].refCount < MAX_REFS
      modifies mgr, mgr.sandboxes.Values, ctr, ctr.host, journal
      ensures Host.Followed(old(ctr.host.said), ctr.host.said, VmPlan(r.alloc, r.alloc in old(mgr.sandboxes)), k, ok)
      ensures if ok then InCall(tbl, t, r, Acquired) else Ended(tbl, t)
      ensures fresh(mgr.sandboxes.Values - old(mgr.sandboxes.Values))
      ensures mgr.Entries() == if ok then Taken(old(mgr.Entries()), r.alloc) else old(mgr.Entries())
      ensures Agreeing(old(mgr.Entries()), old(ctr.View()), r.alloc)
              ==> ctr.View() == if ok then Acquiring(old(mgr.Entries()), old(ctr.View()), r.alloc) else old(ctr.View())
    {
      var sb;
      sb, k := mgr.GetOrCreate(t, r.alloc);
      ok := sb != null;
      History.Twice(tbl, t, Call(r, Cleaned), if ok then Call(r, Acquired) else BLANK);
    }

    /** In the task table `tbl`, only the entry of `t`, whose StartTask call is for `r`, has moved: to `i`. */
    ghost predicate AtEntry(tbl: map<string, Info>, t: string, r: TaskRecord, i: Info)
      reads this, mgr, mgr.sandboxes.Values, dir, ctr, journal
    {
      Consistent() && WellFormedRecord(r) && journal.state.tasks == tbl[t := i]
    }

    /** The deferred release of a failed start, which took its reference when the map was `m` and
        containerd was `st`. */
    method ReleaseOnFailure(ghost tbl: map<string, Info>, ghost t: string, r: TaskRecord, ghost i: Info,
            ghost m: SandboxMap, ghost st: Store)
      requires AtEntry(tbl, t, r, i) && i.start == Some(StartCall(r, Failing)) && mgr.Entries() == Taken(m, r.alloc)
              && Held(m)
      requires Agreeing(m, st, r.alloc) ==> SameSandboxes(Acquiring(m, st, r.alloc), ctr.View())
      modifies mgr, mgr.sandboxes.Values, ctr, journal
      ensures ctr.host.said == old(ctr.host.said)
      ensures AtEntry(tbl, t, r, i.(start := None)) && mgr.Entries() == m
      ensures Agreeing(m, st, r.alloc) ==> SameSandboxes(st, ctr.View())
      ensures r.container !in old(ctr.containers) ==> r.container !in ctr.containers
    {
      ghost var st1 := ctr.View();
      assert mgr.Entries()[r.alloc].refs == mgr.sandboxes[r.alloc].refCount;
      mgr.Release(t, Caller.StartTask, r.alloc);
      History.Twice(tbl, t, i, i.(start := None));
      TakenAndDropped(m, r.alloc);
      ReleasedSame(m, st, st1, ctr.View(), r.alloc);
    }

    lemma ReleasedSame(m: SandboxMap, st: Store, st1: Store, st2: Store, alloc: string)
      requires Agreeing(m, st, alloc) ==> SameSandboxes(Acquiring(m, st, alloc), st1)
      requires st2 == if alloc in m then st1 else TornDown(st1, alloc)
      ensures Agreeing(m, st, alloc) ==> SameSandboxes(st, st2)
    {
      if alloc !in m && !HasSandbox(st, alloc) {
        BuiltAndTornDown(st, alloc);
        TornDownSame(Acquiring(m, st, alloc), st1, alloc);
        SameTransitive(st, TornDown(Acquiring(m, st, alloc), alloc), st2);
      }
    }

    /** Image, configuration directory, files, mounts and bootstrap. */
    method PrepareTask(ghost tbl: map<string, Info>, ghost t: string, r: TaskRecord) returns (ok: bool)
      requires InCall(tbl, t, r, Acquired)
      modifies journal, ctr.host
      ensures mgr.Entries() == old(mgr.Entries())
      ensures ctr.host.said == old(ctr.host.said) + [Host.Reply(Host.PrepareTask, ok)]
      ensures InCall(tbl, t, r, if ok then Acquired else Failing)
    {
      ok := ctr.host.Ask(Host.PrepareTask, false);
      if !ok {
        Note(tbl, t, Call(r, Acquired), FailEarly, Call(r, Failing));
      }
    }

    method CreateTaskContainer(ghost tbl: map<string, Info>, ghost t: string, r: TaskRecord) returns (ok: bool)
      requires InCall(tbl, t, r, Acquired)
      modifies ctr, ctr.host, journal
      ensures mgr.Entries() == old(mgr.Entries())
      ensures ctr.host.said == old(ctr.host.said) + [Host.Reply(Host.CreateContainer(r.container), ok)]
      ensures InCall(tbl, t, r, if ok then Made else Failing)
      ensures ctr.View() == if ok then AddContainer(old(ctr.View()), r.container) else old(ctr.View())
    {
      ok := ctr.CreateContainer(r.container);
      if ok {
        Note(tbl, t, Call(r, Acquired), CreateTask, Call(r, Made));
      } else {
        Note(tbl, t, Call(r, Acquired), CreateTaskFails, Call(r, Failing));
      }
    }

    function LaunchedInfo(r: TaskRecord, pc: StartPc): Info {
      Call(r, pc).(handle := Some(NewHandle(r, false)))
    }

    function StartedInfo(r: TaskRecord): Info {
      BLANK.(persisted := Some(r), handle := Some(NewHandle(r, false)), stored := true)
    }

    /** The entry of a start whose state could not be encoded, once it has returned. */
    function UnencodedInfo(r: TaskRecord): Info {
      BLANK.(handle := Some(NewHandle(r, false)), stored := true)
    }

    function StoredInfo(r: TaskRecord, pc: StartPc): Info {
      LaunchedInfo(r, pc).(stored := true)
    }

    /** What a call leaves of the task's entry. */
    function EntryAfter(res: StartResult, r: TaskRecord): Info {
      match res
      case Started => StartedInfo(r)
      case Failed(e) => if e == StateEncoding then UnencodedInfo(r) else BLANK
    }

    /** Make the handle, launch its goroutine and store it. */
    method LaunchTask(ghost tbl: map<string, Info>, t: string, r: TaskRecord) returns (h: Handle.TaskHandle)
      requires InCall(tbl, t, r, Made)
      modifies this`tasks, journal
      ensures AtEntry(tbl, t, r, StoredInfo(r, Stored))
      ensures fresh(h) && tasks == old(tasks)[t := h] && NewlyWatched(t, r)
    {
      h := new Handle.TaskHandle(t, r, false, ctr, dir);
      Note(tbl, t, Call(r, Made), Launch, LaunchedInfo(r, Launched));
      tasks := tasks[t := h];
      Note(tbl, t, LaunchedInfo(r, Launched), StoreHandle, StoredInfo(r, Stored));
    }

    ghost predicate NewlyWatched(t: string, r: TaskRecord)
      reads this, tasks.Values
    {
      && t in tasks && tasks[t].tid == t && tasks[t].ctr == ctr && tasks[t].dir == dir
      && !tasks[t].inTask && tasks[t].Matches(StartedInfo(r))
    }

    /** SetDriverState and the return, or the clean-up of the task when it fails. */
    method EncodeState(ghost tbl: map<string, Info>, ghost t: string, r: TaskRecord) returns (ok: bool)
      requires AtEntry(tbl, t, r, StoredInfo(r, Stored))
      modifies ctr, ctr.host, journal
      ensures ctr.host.said == old(ctr.host.said) + [Host.Reply(Host.EncodeState, ok)]
      ensures mgr.Entries() == old(mgr.Entries())
      ensures AtEntry(tbl, t, r, if ok then StartedInfo(r) else StoredInfo(r, Failing))
      ensures ctr.View()
              == if ok then old(ctr.View()) else DeleteContainer(Halt(old(ctr.View()), r.container), r.container)
      ensures !ok ==> mayFailEncoding
    {
      ok := ctr.host.Ask(Host.EncodeState, !mayFailEncoding);
      if ok {
        Note(tbl, t, StoredInfo(r, Stored), Return, StartedInfo(r));
      } else {
        ctr.DeleteTask(r.container);
        ctr.DeleteContainer(r.container);
        Note(tbl, t, StoredInfo(r, Stored), EncodeFails, StoredInfo(r, Failing));
      }
    }

    /** The store after a start, by its result: with the sandbox acquired and the task's container, or
        with every sandbox as it was. */
    ghost predicate StoreLeft(res: StartResult, m: SandboxMap, st: Store, st': Store, r: TaskRecord) {
      && (res.Started? ==> r.container in st'.containers)
      && (res == Failed(StateEncoding) ==> r.container !in st'.containers)
      && (Agreeing(m, st, r.alloc) ==>
            if res.Started? then SameSandboxes(Acquiring(m, st, r.alloc), st') else SameSandboxes(st, st'))
    }

    function CountsAfter(res: StartResult, m: SandboxMap, alloc: string): SandboxMap {
      if res.Started? then Taken(m, alloc) else m
    }

    /** The return of a start that failed before its task was launched. */
    method GiveBack(ghost tbl: map<string, Info>, ghost t: string, r: TaskRecord, ghost m: SandboxMap, ghost st: Store,
            e: StartError) returns (res: StartResult)
      requires InCall(tbl, t, r, Failing) && mgr.Entries() == Taken(m, r.alloc) && Held(m)
      requires Agreeing(m, st, r.alloc) ==> ctr.View() == Acquiring(m, st, r.alloc)
      requires e != StateEncoding
      modifies mgr, mgr.sandboxes.Values, ctr, journal
      ensures ctr.host.said == old(ctr.host.said)
      ensures res == Failed(e) && AtEntry(tbl, t, r, BLANK) && mgr.Entries() == m
      ensures StoreLeft(res, m, st, ctr.View(), r)
    {
      ReleaseOnFailure(tbl, t, r, Call(r, Failing), m, st);
      res := Failed(e);
    }

    /** StartTask once its sandbox is acquired: on error the reference is given back. */
    method FinishStart(ghost tbl: map<string, Info>, t: string, r: TaskRecord, ghost m: SandboxMap, ghost st: Store)
      returns (res: StartResult, ghost k: nat)
      requires InCall(tbl, t, r, Acquired) && mgr.Entries() == Taken(m, r.alloc) && Held(m)
      requires Agreeing(m, st, r.alloc) ==> ctr.View() == Acquiring(m, st, r.alloc)
      modifies this`tasks, mgr, mgr.sandboxes.Values, ctr, ctr.host, journal
      ensures Told(old(ctr.host.said), ctr.host.said, TaskPlan(r), k, res)
      ensures AtEntry(tbl, t, r, EntryAfter(res, r))
      ensures mgr.Entries() == CountsAfter(res, m, r.alloc) && StoreLeft(res, m, st, ctr.View(), r)
      ensures if LeavesHandle(res) then NewlyWatched(t, r) && tasks == old(tasks)[t := tasks[t]] && fresh(tasks[t])
              else tasks == old(tasks)
      ensures !mayFailEncoding ==> res != Failed(StateEncoding)
    {
      ghost var said := ctr.host.said;
      var ok := PrepareTask(tbl, t, r);
      ghost var said1 := ctr.host.said;
      if ok {
        res, k := FinishPrepared(tbl, t, r, m, st);
      } else {
        k := 0;
        res := GiveBack(tbl, t, r, m, st, TaskSetup);
      }
      ToldFirst(said, said1, ctr.host.said, Host.PrepareTask, ok, ContainerPlan(r.container), k, res);
      k := if ok then 1 + k else 0;
    }

    method FinishPrepared(ghost tbl: map<string, Info>, t: string, r: TaskRecord, ghost m: SandboxMap, ghost st: Store)
      returns (res: StartResult, ghost k: nat)
      requires InCall(tbl, t, r, Acquired) && mgr.Entries() == Taken(m, r.alloc) && Held(m)
      requires Agreeing(m, st, r.alloc) ==> ctr.View() == Acquiring(m, st, r.alloc)
      modifies this`tasks, mgr, mgr.sandboxes.Values, ctr, ctr.host, journal
      ensures Told(old(ctr.host.said), ctr.host.said, ContainerPlan(r.container), k, res)
      ensures AtEntry(tbl, t, r, EntryAfter(res, r))
      ensures mgr.Entries() == CountsAfter(res, m, r.alloc) && StoreLeft(res, m, st, ctr.View(), r)
      ensures if LeavesHandle(res) then NewlyWatched(t, r) && tasks == old(tasks)[t := tasks[t]] && fresh(tasks[t])
              else tasks == old(tasks)
      ensures !mayFailEncoding ==> res != Failed(StateEncoding)
    {
      ghost var said := ctr.host.said;
      var ok := CreateTaskContainer(tbl, t, r);
      ghost var said1 := ctr.host.said;
      if ok {
        res, k := FinishMade(tbl, t, r, m, st);
      } else {
        k := 0;
        res := GiveBack(tbl, t, r, m, st, TaskContainer);
      }
      ToldFirst(said, said1, ctr.host.said, Host.CreateContainer(r.container), ok, ENCODING, k, res);
      k := if ok then 1 + k else 0;
    }

    method FinishMade(ghost tbl: map<string, Info>, t: string, r: TaskRecord, ghost m: SandboxMap, ghost st: Store)
      returns (res: StartResult, ghost k: nat)
      requires InCall(tbl, t, r, Made) && mgr.Entries() == Taken(m, r.alloc) && Held(m)
      requires r.container in ctr.containers
      requires Agreeing(m, st, r.alloc) ==> ctr.View() == AddContainer(Acquiring(m, st, r.alloc), r.container)
      modifies this`tasks, mgr, mgr.sandboxes.Values, ctr, ctr.host, journal
      ensures Told(old(ctr.host.said), ctr.host.said, ENCODING, k, res)
      ensures LeavesHandle(res) && AtEntry(tbl, t, r, EntryAfter(res, r))
      ensures mgr.Entries() == CountsAfter(res, m, r.alloc) && StoreLeft(res, m, st, ctr.View(), r)
      ensures NewlyWatched(t, r) && tasks == old(tasks)[t := tasks[t]] && fresh(tasks[t])
      ensures !mayFailEncoding ==> res != Failed(StateEncoding)
    {
      var h := LaunchTask(tbl, t, r);
      assert mgr.Entries() == Taken(m, r.alloc);
      res, k := FinishLaunched(tbl, t, r, m, st);
    }

    method FinishLaunched(ghost tbl: map<string, Info>, ghost t: string, r: TaskRecord, ghost m: SandboxMap,
            ghost st: Store)
      returns (res: StartResult, ghost k: nat)
      requires AtEntry(tbl, t, r, StoredInfo(r, Stored)) && mgr.Entries() == Taken(m, r.alloc) && Held(m)
      requires r.container in ctr.containers
      requires Agreeing(m, st, r.alloc) ==> ctr.View() == AddContainer(Acquiring(m, st, r.alloc), r.container)
      modifies mgr, mgr.sandboxes.Values, ctr, ctr.host, journal
      ensures Told(old(ctr.host.said), ctr.host.said, ENCODING, k, res)
      ensures LeavesHandle(res) && AtEntry(tbl, t, r, EntryAfter(res, r))
      ensures mgr.Entries() == CountsAfter(res, m, r.alloc) && StoreLeft(res, m, st, ctr.View(), r)
      ensures !mayFailEncoding ==> res != Failed(StateEncoding)
    {
      ghost var said := ctr.host.said;
      var ok := EncodeState(tbl, t, r);
      ghost var said1 := ctr.host.said;
      if ok {
        res := Started;
      } else {
        res := GiveBackLaunched(tbl, t, r, m, st);
      }
      k := One(ok);
      ToldLast(said, said1, Host.EncodeState, ok, res);
    }

    method GiveBackLaunched(ghost tbl: map<string, Info>, ghost t: string, r: TaskRecord, ghost m: SandboxMap,
            ghost st: Store) returns (res: StartResult)
      requires AtEntry(tbl, t, r, StoredInfo(r, Failing)) && mgr.Entries() == Taken(m, r.alloc) && Held(m)
      requires r.container !in ctr.containers
      requires Agreeing(m, st, r.alloc) ==> ctr.View() == Undone(Acquiring(m, st, r.alloc), r.container)
      modifies mgr, mgr.sandboxes.Values, ctr, journal
      ensures ctr.host.said == old(ctr.host.said)
      ensures res == Failed(StateEncoding) && AtEntry(tbl, t, r, UnencodedInfo(r)) && mgr.Entries() == m
      ensures StoreLeft(res, m, st, ctr.View(), r)
    {
      UndoneSame(Acquiring(m, st, r.alloc), r.container);
      ReleaseOnFailure(tbl, t, r, StoredInfo(r, Failing), m, st);
      res := Failed(StateEncoding);
    }

    /** The store after the creation of a task container whose state could not be encoded. */
    function Undone(st: Store, c: Cid): Store {
      DeleteContainer(Halt(AddContainer(st, c), c), c)
    }

    lemma UndoneSame(st: Store, c: Cid)
      requires c.TaskOf?
      ensures SameSandboxes(st, Undone(st, c))
    {
    }

    /** StartTask from the point where nothing is held to its return. */
    method StartInSandbox(ghost tbl: map<string, Info>, t: string, r: TaskRecord)
      returns (res: StartResult, ghost k: nat)
      requires InCall(tbl, t, r, Cleaned) && Held(mgr.Entries())
      requires r.alloc in mgr.sandboxes ==> mgr.sandboxes[r.alloc].refCount < MAX_REFS
      modifies this`tasks, mgr, mgr.sandboxes.Values, ctr, ctr.host, journal
      ensures Told(old(ctr.host.said), ctr.host.said, SandboxPlan(r, r.alloc in old(mgr.sandboxes)), k, res)
      ensures AtEntry(tbl, t, r, EntryAfter(res, r))
      ensures mgr.Entries() == CountsAfter(res, old(mgr.Entries()), r.alloc)
      ensures StoreLeft(res, old(mgr.Entries()), old(ctr.View()), ctr.View(), r)
      ensures if LeavesHandle(res) then NewlyWatched(t, r) && tasks == old(tasks)[t := tasks[t]] && fresh(tasks[t])
              else tasks == old(tasks)
      ensures !mayFailEncoding ==> res != Failed(StateEncoding)
    {
      ghost var m, st, said, known := mgr.Entries(), ctr.View(), ctr.host.said, r.alloc in mgr.sandboxes;
      var ok;
      ok, k := AcquireSandbox(tbl, t, r);
      ghost var said1, j := ctr.host.said, k;
      if ok {
        res, k := FinishStart(tbl, t, r, m, st);
      } else {
        res := Failed(SandboxSetup);
      }
      ToldSandbox(said, said1, ctr.host.said, r, known, j, ok, k, res);
      k := if ok then j + k else j;
    }

    // ----- Between calls -----

    /** No call is in flight, and the goroutine has not run yet, waits for its task, or is finished. */
    predicate AtRest(i: Info) {
      && i.start.None? && i.destroy.None? && i.recover.None?
      && (i.handle.Some? ==> i.handle.value.pc.Opening? || i.handle.value.pc.InTask? || i.handle.value.pc.Finished?)
    }

    ghost predicate Fits(h: Handle.TaskHandle, t: string, i: Info)
      reads h
    {
      h.tid == t && h.ctr == ctr && h.dir == dir && i.stored && h.Matches(i)
              && (h.inTask <==> i.handle.value.pc.InTask?)
    }

    /** Handles in a task store and entries in a task table match one to one. */
    ghost predicate Matching(handles: map<string, Handle.TaskHandle>, tbl: map<string, Info>)
      reads handles.Values
    {
      && (forall t :: t in handles ==> t in tbl && Fits(handles[t], t, tbl[t]))
      && (forall t :: t in tbl ==> AtRest(tbl[t]) && (tbl[t].stored ==> t in handles))
    }

    ghost predicate Valid()
      reads this, mgr, mgr.sandboxes.Values, dir, ctr, journal, tasks.Values
    {
      Consistent() && Held(mgr.Entries()) && Matching(tasks, journal.state.tasks)
    }

    lemma NobodyRecovers(alloc: string)
      requires Matching(tasks, journal.state.tasks)
      ensures !Recovering(journal.state, alloc)
    {
    }

    lemma MatchingKept(handles: map<string, Handle.TaskHandle>, tbl: map<string, Info>, t: string, i: Info)
      requires Matching(handles, tbl) && AtRest(i) && !i.stored && t !in handles
      ensures Matching(handles, tbl[t := i])
    {
    }

    lemma MatchingGrown(handles: map<string, Handle.TaskHandle>, tbl: map<string, Info>, t: string,
            h: Handle.TaskHandle, i: Info)
      requires Matching(handles, tbl) && AtRest(i) && Fits(h, t, i)
      ensures Matching(handles[t := h], tbl[t := i])
    {
    }

    /** All or nothing. It is refused for an empty allocation ID and for an allocation marked dead, and
        then nothing is asked or touched; otherwise it is Started exactly if every call it makes is
        granted, and the first call that is refused ends it and decides the error (StartedIff). On any
        error the counts are as they were, and so are the resources of every sandbox if the map and
        containerd agreed about this one; the task store is as it was too, except that a failure to
        encode the driver state leaves the handle in it. On success the task holds one more reference,
        its container is there, and so is its sandbox, as it was or newly built. */
    method StartTask(t: string, alloc: string, name: string) returns (res: StartResult, ghost k: nat)
      requires Valid() && journal.Entry(t) == BLANK && ValidName(name) && (alloc == "" || PlainComponent(alloc))
      requires alloc in mgr.sandboxes ==> mgr.sandboxes[alloc].refCount < MAX_REFS
      modifies this`tasks, mgr, mgr.sandboxes.Values, ctr, ctr.host, journal
      ensures Valid()
      ensures alloc == "" <==> res == Failed(EmptyAlloc)
      ensures alloc != "" && alloc in dir.dead <==> res == Failed(SandboxTerminated)
      ensures if alloc == "" || alloc in dir.dead then k == 0 && ctr.host.said == old(ctr.host.said)
              else Told(old(ctr.host.said), ctr.host.said,
                        StartPlan(RecordOf(alloc, name), alloc in old(mgr.sandboxes)), k, res)
      ensures res == Failed(SandboxTerminated) || res == Failed(EmptyAlloc) ==> ctr.View() == old(ctr.View())
      ensures mgr.Entries() == CountsAfter(res, old(mgr.Entries()), alloc)
      ensures StoreLeft(res, old(mgr.Entries()), old(ctr.View()), ctr.View(), RecordOf(alloc, name))
      ensures if LeavesHandle(res) then t in tasks && tasks == old(tasks)[t := tasks[t]] else tasks == old(tasks)
      ensures journal.Entry(t) == EntryAfter(res, RecordOf(alloc, name))
      ensures !mayFailEncoding ==> res != Failed(StateEncoding)
    {
      if alloc == "" {
        return Failed(EmptyAlloc), 0;
      }
      var r := RecordOf(alloc, name);
      ghost var tbl := journal.state.tasks;
      NobodyRecovers(alloc);
      HeldTaken(mgr.Entries(), alloc);
      res, k := StartNamed(tbl, t, r);
      if LeavesHandle(res) {
        MatchingGrown(old(tasks), tbl, t, tasks[t], EntryAfter(res, r));
      } else {
        MatchingKept(old(tasks), tbl, t, BLANK);
      }
    }

    method StartNamed(ghost tbl: map<string, Info>, t: string, r: TaskRecord) returns (res: StartResult, ghost k: nat)
      requires Consistent() && journal.state.tasks == tbl && journal.Entry(t) == BLANK && WellFormedRecord(r)
      requires !Recovering(journal.state, r.alloc) && Held(mgr.Entries())
      requires r.alloc in mgr.sandboxes ==> mgr.sandboxes[r.alloc].refCount < MAX_REFS
      modifies this`tasks, mgr, mgr.sandboxes.Values, ctr, ctr.host, journal
      ensures if r.alloc in dir.dead then k == 0 && ctr.host.said == old(ctr.host.said)
              else Told(old(ctr.host.said), ctr.host.said, StartPlan(r, r.alloc in old(mgr.sandboxes)), k, res)
      ensures r.alloc in dir.dead <==> res == Failed(SandboxTerminated)
      ensures res == Failed(SandboxTerminated) ==> ctr.View() == old(ctr.View())
      ensures res != Failed(EmptyAlloc) && AtEntry(tbl, t, r, EntryAfter(res, r))
      ensures mgr.Entries() == CountsAfter(res, old(mgr.Entries()), r.alloc)
      ensures StoreLeft(res, old(mgr.Entries()), old(ctr.View()), ctr.View(), r)
      ensures if LeavesHandle(res) then NewlyWatched(t, r) && tasks == old(tasks)[t := tasks[t]] && fresh(tasks[t])
              else tasks == old(tasks)
      ensures !mayFailEncoding ==> res != Failed(StateEncoding)
    {
      var dead := Check(tbl, t, r);
      if dead {
        res, k := Failed(SandboxTerminated), 0;
      } else {
        res, k := StartChecked(tbl, t, r);
      }
    }

    method StartChecked(ghost tbl: map<string, Info>, t: string, r: TaskRecord) returns (res: StartResult, ghost k: nat)
      requires InCall(tbl, t, r, Checked) && Held(mgr.Entries())
      requires r.alloc in mgr.sandboxes ==> mgr.sandboxes[r.alloc].refCount < MAX_REFS
      modifies this`tasks, mgr, mgr.sandboxes.Values, ctr, ctr.host, journal
      ensures Told(old(ctr.host.said), ctr.host.said, StartPlan(r, r.alloc in old(mgr.sandboxes)), k, res)
      ensures res != Failed(SandboxTerminated) && res != Failed(EmptyAlloc) && AtEntry(tbl, t, r, EntryAfter(res, r))
      ensures mgr.Entries() == CountsAfter(res, old(mgr.Entries()), r.alloc)
      ensures StoreLeft(res, old(mgr.Entries()), old(ctr.View()), ctr.View(), r)
      ensures if LeavesHandle(res) then NewlyWatched(t, r) && tasks == old(tasks)[t := tasks[t]] && fresh(tasks[t])
              else tasks == old(tasks)
      ensures !mayFailEncoding ==> res != Failed(StateEncoding)
    {
      ghost var said, known := ctr.host.said, r.alloc in mgr.sandboxes;
      var decoded := ctr.host.Ask(Host.DecodeConfig, false);
      ghost var said1 := ctr.host.said;
      if decoded {
        res, k := StartDecoded(tbl, t, r);
      } else {
        NoteRejected(tbl, t, r);
        res, k := Failed(BadConfig), 0;
      }
      ToldFirst(said, said1, ctr.host.said, Host.DecodeConfig, decoded, SandboxPlan(r, known), k, res);
      k := if decoded then 1 + k else 0;
    }

    method StartDecoded(ghost tbl: map<string, Info>, t: string, r: TaskRecord) returns (res: StartResult, ghost k: nat)
      requires InCall(tbl, t, r, Checked) && Held(mgr.Entries())
      requires r.alloc in mgr.sandboxes ==> mgr.sandboxes[r.alloc].refCount < MAX_REFS
      modifies this`tasks, mgr, mgr.sandboxes.Values, ctr, ctr.host, journal
      ensures Told(old(ctr.host.said), ctr.host.said, SandboxPlan(r, r.alloc in old(mgr.sandboxes)), k, res)
      ensures res != Failed(SandboxTerminated) && res != Failed(EmptyAlloc) && AtEntry(tbl, t, r, EntryAfter(res, r))
      ensures mgr.Entries() == CountsAfter(res, old(mgr.Entries()), r.alloc)
      ensures StoreLeft(res, old(mgr.Entries()), old(ctr.View()), ctr.View(), r)
      ensures if LeavesHandle(res) then NewlyWatched(t, r) && tasks == old(tasks)[t := tasks[t]] && fresh(tasks[t])
              else tasks == old(tasks)
      ensures !mayFailEncoding ==> res != Failed(StateEncoding)
    {
      ghost var m, st0 := mgr.Entries(), ctr.View();
      CleanLeftover(tbl, t, r);
      ghost var st1 := ctr.View();
      LeftoverCleanup(st0, r.container);
      res, k := StartInSandbox(tbl, t, r);
      CleanedFirst(res, m, st0, st1, ctr.View(), r);
    }

    /** Cleaning up the leftover task first makes no difference to the sandboxes. */
    lemma CleanedFirst(res: StartResult, m: SandboxMap, st0: Store, st1: Store, st2: Store, r: TaskRecord)
      requires SameSandboxes(st0, st1) && StoreLeft(res, m, st1, st2, r)
      ensures StoreLeft(res, m, st0, st2, r)
    {
      assert SameSandbox(st0, st1, r.alloc);
      if Agreeing(m, st0, r.alloc) {
        if res.Started? {
          AcquiringSame(m, st0, st1, r.alloc);
          SameTransitive(Acquiring(m, st0, r.alloc), Acquiring(m, st1, r.alloc), st2);
        } else {
          SameTransitive(st0, st1, st2);
        }
      }
    }

    lemma AcquiringSame(m: SandboxMap, st: Store, st': Store, alloc: string)
      requires SameSandboxes(st, st')
      ensures SameSandboxes(Acquiring(m, st, alloc), Acquiring(m, st', alloc))
    {
      forall a
        ensures SameSandbox(Acquiring(m, st, alloc), Acquiring(m, st', alloc), a)
      {
        assert SameSandbox(st, st', a);
      }
    }

    // ----- DestroyTask -----

    ghost method NoteDestroy(tbl: map<string, Info>, t: string, i: Info, a: DestroyAct, j: Info)
      requires journal.Valid() && journal.state.tasks == tbl[t := i] && CanDestroy(i, a) && AfterDestroy(i, a) == j
      requires DestroyPermitted(journal.faults, journal.state, i.handle.value.task, a)
      modifies journal
      ensures journal.Valid() && journal.state.tasks == tbl[t := j]
      ensures journal.state.store == StoreAfter(old(journal.state.store), i.handle.value.task, Destroy(a))
      ensures journal.state.markers == MarkersAfter(old(journal.state.markers), i.handle.value.task, Destroy(a))
      ensures journal.state.lock == old(journal.state.lock) && journal.state.sandboxes == old(journal.state.sandboxes)
    {
      journal.Take(t, Destroy(a));
      History.Twice(tbl, t, i, j);
    }

    /** In the task table `tbl`, only the DestroyTask call of `t` has moved, from `i`: to `pc`. */
    ghost predicate InDestroy(tbl: map<string, Info>, t: string, i: Info, pc: DestroyPc)
      reads this, mgr, mgr.sandboxes.Values, dir, ctr, journal
    {
      && Consistent() && i.handle.Some? && WellFormedRecord(i.handle.value.task) && i.stored
      && journal.state.tasks == tbl[t := ToDestroy(i, pc)]
    }

    ghost method BeginKilling(tbl: map<string, Info>, t: string, i: Info)
      requires Consistent() && journal.state.tasks == tbl[t := i] && i.handle.Some?
              && WellFormedRecord(i.handle.value.task)
      requires i.stored && i.destroy.None? && i.handle.value.exit.None?
              && !Recovering(journal.state, i.handle.value.task.alloc)
      modifies journal
      ensures InDestroy(tbl, t, i, Killing) && mgr.Entries() == old(mgr.Entries())
    {
      NoteDestroy(tbl, t, i, BeginForced, ToDestroy(i, Killing));
    }

    method KillRunning(ghost tbl: map<string, Info>, ghost t: string, ghost i: Info, c: Cid) returns (ok: bool)
      requires InDestroy(tbl, t, i, Killing) && i.handle.value.task.container == c
      modifies ctr, ctr.host, journal
      ensures ctr.host.said == old(ctr.host.said) + [Host.Reply(Host.Kill(c), ok)]
      ensures InDestroy(tbl, t, i, Waiting) && mgr.Entries() == old(mgr.Entries())
      ensures ctr.View() == if ok then Halt(old(ctr.View()), c) else old(ctr.View())
    {
      ok := ctr.host.Ask(Host.Kill(c), false);
      if ok {
        ctr.DeleteTask(c);
        NoteDestroy(tbl, t, ToDestroy(i, Killing), Tasks.KillTask, ToDestroy(i, Waiting));
      } else {
        NoteDestroy(tbl, t, ToDestroy(i, Killing), KillFails, ToDestroy(i, Waiting));
      }
    }

    /** Deletion of the task and its container; errors are ignored. */
    method DeleteTaskAndContainer(ghost tbl: map<string, Info>, ghost t: string, ghost i: Info, c: Cid)
      requires InDestroy(tbl, t, i, Stopped) && i.handle.value.task.container == c
      modifies ctr, journal
      ensures InDestroy(tbl, t, i, ContainerDeleted) && mgr.Entries() == old(mgr.Entries())
      ensures ctr.View() == DeleteContainer(Halt(old(ctr.View()), c), c)
    {
      ctr.DeleteTask(c);
      NoteDestroy(tbl, t, ToDestroy(i, Stopped), Tasks.DeleteTask, ToDestroy(i, TaskDeleted));
      ctr.DeleteContainer(c);
      NoteDestroy(tbl, t, ToDestroy(i, TaskDeleted), DeleteTaskContainer, ToDestroy(i, ContainerDeleted));
    }

    method ReleaseTask(ghost tbl: map<string, Info>, ghost t: string, ghost i: Info, alloc: string)
      requires InDestroy(tbl, t, i, ContainerDeleted) && i.handle.value.task.alloc == alloc
      modifies mgr, mgr.sandboxes.Values, ctr, journal
      ensures ctr.host.said == old(ctr.host.said)
      ensures InDestroy(tbl, t, i, Released)
      ensures Dropped(old(mgr.Entries()), old(ctr.View()), mgr.Entries(), ctr.View(), alloc)
    {
      mgr.Release(t, Caller.DestroyTask, alloc);
      History.Twice(tbl, t, ToDestroy(i, ContainerDeleted), ToDestroy(i, Released));
    }

    lemma NoMarkerRemoved(r: TaskRecord)
      requires journal.Valid() && WellFormedRecord(r)
      ensures MarkersAfter(journal.state.markers, r, Destroy(Tasks.RemoveDir)) == journal.state.markers
    {
      AllOkRun(journal.faults, INIT, journal.trace, journal.state);
      Poison.MarkersKept(journal.state.markers, r, Destroy(Tasks.RemoveDir));
    }

    ghost method NoteDirRemoved(tbl: map<string, Info>, t: string, i: Info)
      requires InDestroy(tbl, t, i, Released)
      modifies journal
      ensures InDestroy(tbl, t, i, DirRemoved) && mgr.Entries() == old(mgr.Entries())
    {
      NoMarkerRemoved(i.handle.value.task);
      NoteDestroy(tbl, t, ToDestroy(i, Released), RemoveDir, ToDestroy(i, DirRemoved));
    }

    /** Remove the configuration directory and forget the handle. */
    method ForgetTask(ghost tbl: map<string, Info>, t: string, ghost i: Info)
      requires InDestroy(tbl, t, i, Released)
      modifies this`tasks, journal
      ensures Consistent() && journal.state.tasks == tbl[t := i.(stored := false, destroy := None)]
      ensures tasks == old(tasks) - {t} && mgr.Entries() == old(mgr.Entries())
    {
      NoteDirRemoved(tbl, t, i);
      tasks := tasks - {t};
      NoteDestroy(tbl, t, ToDestroy(i, DirRemoved), Forget, i.(stored := false, destroy := None));
    }

    /** DestroyTask once its goroutine is done or given up on. */
    method FinishDestroy(ghost tbl: map<string, Info>, t: string, ghost i: Info, r: TaskRecord)
      requires InDestroy(tbl, t, i, Stopped) && i.handle.value.task == r
      modifies this`tasks, mgr, mgr.sandboxes.Values, ctr, journal
      ensures ctr.host.said == old(ctr.host.said)
      ensures Consistent() && journal.state.tasks == tbl[t := i.(stored := false, destroy := None)]
      ensures tasks == old(tasks) - {t}
      ensures Dropped(old(mgr.Entries()), DeleteContainer(Halt(old(ctr.View()), r.container), r.container),
                      mgr.Entries(), ctr.View(), r.alloc)
    {
      DeleteTaskAndContainer(tbl, t, i, r.container);
      ReleaseTask(tbl, t, i, r.alloc);
      ForgetTask(tbl, t, i);
    }

    ghost predicate Watched(h: Handle.TaskHandle, t: string, i: Info)
      reads h
    {
      && h.tid == t && h.ctr == ctr && h.dir == dir && h.Matches(i) && WellFormedRecord(h.task)
    }

    /** The goroutine of `h` stands between calls where entry `i` says. */
    ghost predicate Waits(h: Handle.TaskHandle, i: Info)
      reads h
    {
      && i.handle.Some? && h.exitResult == None && !h.doneClosed
      && if h.inTask then i.handle.value.pc.InTask? else i.handle.value.pc.Opening?
    }

    /** The goroutine runs to its end while a destroy waits for it. */
    method RunWhileWaiting(ghost tbl: map<string, Info>, ghost t: string, ghost i: Info, h: Handle.TaskHandle)
      returns (ghost j: Info, ghost said: seq<Host.Answer>, ghost marked: bool)
      requires InDestroy(tbl, t, i, Waiting) && Watched(h, t, i) && Waits(h, i)
      modifies h, dir, ctr, ctr.host, journal
      ensures mgr.Entries() == old(mgr.Entries())
      ensures ctr.host.said == old(ctr.host.said) + said && h.exitResult.Some? && h.doneClosed
      ensures Handle.RunAnswers(said, h.task, h.recovered, old(h.inTask), h.exitResult.value, marked)
      ensures InDestroy(tbl, t, j, Waiting) && Watched(h, t, j) && j == i.(handle := j.handle, destroy := Some(Waiting))
      ensures j.handle.value.pc.Finished?
      ensures dir.dead == if marked then old(dir.dead) + {h.task.alloc} else old(dir.dead)
      ensures Handle.Effect(old(ctr.View()), ctr.View(), dir.dead, h.task)
    {
      j, said, marked := h.Run(tbl, ToDestroy(i, Waiting));
      j := ToMonitor(j, Finished);
    }

    method FinishGoroutine(ghost tbl: map<string, Info>, ghost t: string, ghost i: Info, h: Handle.TaskHandle)
      returns (ghost j: Info, ghost said: seq<Host.Answer>, ghost marked: bool)
      requires InDestroy(tbl, t, i, Waiting) && Watched(h, t, i) && Waits(h, i)
      modifies h, dir, ctr, ctr.host, journal
      ensures mgr.Entries() == old(mgr.Entries())
      ensures ctr.host.said == old(ctr.host.said) + said && h.exitResult.Some? && h.doneClosed
      ensures Handle.RunAnswers(said, h.task, h.recovered, old(h.inTask), h.exitResult.value, marked)
      ensures InDestroy(tbl, t, j, Stopped) && Watched(h, t, j) && j == i.(handle := j.handle, destroy := j.destroy)
      ensures j.handle.value.pc.Finished?
      ensures dir.dead == if marked then old(dir.dead) + {h.task.alloc} else old(dir.dead)
      ensures Handle.Effect(old(ctr.View()), ctr.View(), dir.dead, h.task)
    {
      j, said, marked := RunWhileWaiting(tbl, t, i, h);
      NoteDestroy(tbl, t, j, SeeDone, ToDestroy(j, Stopped));
    }

    /** The wait for doneCh: the goroutine runs to its end, or the wait is given up after 5 s. */
    method AwaitDone(ghost tbl: map<string, Info>, ghost t: string, ghost i: Info, h: Handle.TaskHandle)
      returns (gaveUp: bool, ghost j: Info, ghost said: seq<Host.Answer>, ghost marked: bool)
      requires InDestroy(tbl, t, i, Waiting) && Watched(h, t, i) && Waits(h, i)
      modifies h, dir, ctr, ctr.host, journal
      ensures mgr.Entries() == old(mgr.Entries())
      ensures ctr.host.said == old(ctr.host.said) + said
      ensures WaitAnswers(said, h.task, h.recovered, old(h.inTask), h.exitResult, marked)
      ensures InDestroy(tbl, t, j, Stopped) && Watched(h, t, j) && j == i.(handle := j.handle, destroy := j.destroy)
      ensures if gaveUp then mayGiveUp && j == i else h.exitResult.Some? && h.doneClosed && j.handle.value.pc.Finished?
      ensures dir.dead == if marked then old(dir.dead) + {h.task.alloc} else old(dir.dead)
      ensures Handle.Effect(old(ctr.View()), ctr.View(), dir.dead, h.task)
    {
      var done := ctr.host.Ask(Host.AwaitDone(h.task.container), !mayGiveUp);
      gaveUp := !done;
      said := [Host.Reply(Host.AwaitDone(h.task.container), done)];
      if done {
        ghost var more;
        j, more, marked := FinishGoroutine(tbl, t, i, h);
        said := said + more;
      } else {
        j, marked := i, false;
        NoteDestroy(tbl, t, ToDestroy(i, Waiting), Tasks.GiveUp, ToDestroy(i, Stopped));
      }
    }

    /** Up to the deletions: nothing but the goroutine of a still running task is waited for. */
    method StopForDestroy(ghost tbl: map<string, Info>, ghost t: string, ghost i: Info, h: Handle.TaskHandle)
      returns (ghost j: Info, ghost said: seq<Host.Answer>, ghost marked: bool)
      requires Consistent() && journal.state.tasks == tbl[t := i] && Watched(h, t, i) && AtRest(i)
      requires i.stored && !Recovering(journal.state, h.task.alloc) && (h.exitResult == None ==> Waits(h, i))
      modifies h, dir, ctr, ctr.host, journal
      ensures ctr.host.said == old(ctr.host.said) + said
      ensures DestroyAnswers(said, h.task, h.recovered, old(h.inTask), old(h.exitResult), h.exitResult, marked)
      ensures InDestroy(tbl, t, j, Stopped) && Watched(h, t, j) && j == i.(handle := j.handle, destroy := j.destroy)
      ensures mgr.Entries() == old(mgr.Entries()) && AtRest(j.(destroy := None))
      ensures old(h.exitResult).Some? ==> ctr.View() == old(ctr.View())
      ensures !mayGiveUp && old(h.exitResult) == None ==> h.exitResult.Some? && h.doneClosed
      ensures dir.dead == if marked then old(dir.dead) + {h.task.alloc} else old(dir.dead)
      ensures Handle.Effect(old(ctr.View()), ctr.View(), dir.dead, h.task)
    {
      var running := h.IsRunning();
      if running {
        j, said, marked := StopRunning(tbl, t, i, h);
      } else {
        j, said, marked := i, [], false;
        NoteDestroy(tbl, t, i, BeginExited, ToDestroy(i, Stopped));
      }
    }

    method StopRunning(ghost tbl: map<string, Info>, ghost t: string, ghost i: Info, h: Handle.TaskHandle)
      returns (ghost j: Info, ghost said: seq<Host.Answer>, ghost marked: bool)
      requires Consistent() && journal.state.tasks == tbl[t := i] && Watched(h, t, i) && AtRest(i)
      requires i.stored && !Recovering(journal.state, h.task.alloc) && Waits(h, i)
      modifies h, dir, ctr, ctr.host, journal
      ensures ctr.host.said == old(ctr.host.said) + said
      ensures StopAnswers(said, h.task, h.recovered, old(h.inTask), h.exitResult, marked)
      ensures InDestroy(tbl, t, j, Stopped) && Watched(h, t, j) && j == i.(handle := j.handle, destroy := j.destroy)
      ensures mgr.Entries() == old(mgr.Entries()) && AtRest(j.(destroy := None))
      ensures !mayGiveUp ==> h.exitResult.Some? && h.doneClosed
      ensures dir.dead == if marked then old(dir.dead) + {h.task.alloc} else old(dir.dead)
      ensures Handle.Effect(old(ctr.View()), ctr.View(), dir.dead, h.task)
    {
      ghost var st, dead := ctr.View(), dir.dead;
      BeginKilling(tbl, t, i);
      var killed := KillRunning(tbl, t, i, h.task.container);
      ghost var st1 := ctr.View();
      var gaveUp;
      gaveUp, j, said, marked := AwaitDone(tbl, t, i, h);
      said := [Host.Reply(Host.Kill(h.task.container), killed)] + said;
      Handle.EffectHalt(st, dead, h.task);
      Handle.EffectThen(st, st1, ctr.View(), dead, dir.dead, h.task);
    }

    /** Handles other than that of `t` still match. */
    ghost predicate OthersMatch(handles: map<string, Handle.TaskHandle>, tbl: map<string, Info>, t: string)
      reads handles.Values
    {
      && (forall u :: u in handles && u != t ==> u in tbl && Fits(handles[u], u, tbl[u]))
      && (forall u :: u in tbl && u != t ==> AtRest(tbl[u]) && (tbl[u].stored ==> u in handles))
    }

    lemma MatchingShrunk(handles: map<string, Handle.TaskHandle>, tbl: map<string, Info>, t: string, i: Info)
      requires OthersMatch(handles, tbl, t) && AtRest(i) && !i.stored
      ensures Matching(handles - {t}, tbl[t := i])
    {
    }

    /** A stored task that is still running is left alone unless `force` is set. Otherwise its goroutine
        is done when this returns (or was given up on), its container is gone, its handle forgotten and its
        reference dropped: the sandbox goes with it exactly when that was the last one. No marker is
        cleared, and none is written unless the goroutine ran now and wrote it. Nothing of other allocations and no
        other task's container moves. A destroy that finds its task running kills it and waits for the
        goroutine; what it hears is in `said`. */
    method DestroyTask(t: string, force: bool)
      returns (res: DestroyResult, ghost said: seq<Host.Answer>, ghost marked: bool)
      requires Valid()
      modifies this`tasks, tasks.Values, mgr, mgr.sandboxes.Values, dir, ctr, ctr.host, journal
      ensures ctr.host.said == old(ctr.host.said) + said
      ensures !res.Destroyed? ==> said == [] && !marked
      ensures res.Destroyed? ==> t in old(tasks) && var h := old(tasks)[t];
                DestroyAnswers(said, h.task, h.recovered, old(tasks[t].inTask), old(tasks[t].exitResult), h.exitResult, marked)
      ensures Valid()
      ensures res == if t !in old(tasks) then Missing
                     else if old(tasks[t].exitResult) == None && !force then StillRunning else Destroyed
      ensures dir.dead == if marked then old(dir.dead) + {old(tasks)[t].task.alloc} else old(dir.dead)
      ensures !res.Destroyed? ==> Unmoved(old(tasks), old(mgr.Entries()), old(ctr.View()), old(dir.dead))
      ensures res.Destroyed? ==> tasks == old(tasks) - {t} && TaskGone(old(mgr.Entries()), old(tasks)[t].task)
      ensures res.Destroyed? ==>
                DestroyEffect(old(mgr.Entries()), old(ctr.View()), ctr.View(), dir.dead, old(tasks)[t].task)
      ensures res.Destroyed? && old(tasks[t].exitResult).Some? ==>
                Deleted(old(mgr.Entries()), old(ctr.View()), old(tasks)[t].task)
    {
      if t !in tasks {
        return Missing, [], false;
      }
      var h := tasks[t];
      if h.exitResult == None && !force {
        return StillRunning, [], false;
      }
      res := Destroyed;
      said, marked := DestroyStored(t, h);
    }

    ghost predicate Unmoved(handles: map<string, Handle.TaskHandle>, m: SandboxMap, st: Store, dead: set<string>)
      reads this, mgr, mgr.sandboxes.Values, dir, ctr
    {
      tasks == handles && mgr.Entries() == m && ctr.View() == st && dir.dead == dead
    }

    /** The task's reference is dropped from the counts `m`, and its container is gone. */
    ghost predicate TaskGone(m: SandboxMap, r: TaskRecord)
      reads mgr, mgr.sandboxes.Values, ctr, this
    {
      && r.container !in ctr.containers
      && mgr.Entries() == (if r.alloc !in m then m
                           else if m[r.alloc].refs > 1 then AddRefs(m, r.alloc, -1) else m - {r.alloc})
    }

    /** All that deleting an exited task does to map and containerd. */
    ghost predicate Deleted(m: SandboxMap, st: Store, r: TaskRecord)
      reads mgr, mgr.sandboxes.Values, ctr, this
    {
      Dropped(m, DeleteContainer(Halt(st, r.container), r.container), mgr.Entries(), ctr.View(), r.alloc)
    }

    lemma DroppedFacts(m: SandboxMap, st: Store, m': SandboxMap, st': Store, r: TaskRecord)
      requires Held(m) && Dropped(m, st, m', st', r.alloc) && r.container !in st.containers
      ensures Held(m') && r.container !in st'.containers
    {
    }

    method StopStored(ghost tbl: map<string, Info>, ghost t: string, ghost i: Info, h: Handle.TaskHandle)
      returns (ghost j: Info, ghost said: seq<Host.Answer>, ghost marked: bool)
      requires Valid() && t in tasks && tasks[t] == h && tbl == journal.state.tasks && i == journal.Entry(t)
      modifies h, dir, ctr, ctr.host, journal
      ensures ctr.host.said == old(ctr.host.said) + said
      ensures DestroyAnswers(said, h.task, h.recovered, old(h.inTask), old(h.exitResult), h.exitResult, marked)
      ensures InDestroy(tbl, t, j, Stopped) && AtRest(j.(destroy := None)) && j.handle.value.task == h.task
      ensures mgr.Entries() == old(mgr.Entries()) && OthersMatch(tasks, tbl, t)
      ensures old(h.exitResult).Some? ==> ctr.View() == old(ctr.View())
      ensures dir.dead == if marked then old(dir.dead) + {h.task.alloc} else old(dir.dead)
      ensures Handle.Effect(old(ctr.View()), ctr.View(), dir.dead, h.task)
    {
      journal.EntryOk(t);
      NobodyRecovers(h.task.alloc);
      assert Fits(h, t, i);
      assert tbl == tbl[t := i];
      j, said, marked := StopForDestroy(tbl, t, i, h);
      forall u | u in tasks && u != t
        ensures u in tbl && Fits(tasks[u], u, tbl[u])
      {
        assert tasks[u].tid == u;
      }
    }

    method DestroyStored(t: string, h: Handle.TaskHandle)
      returns (ghost said: seq<Host.Answer>, ghost marked: bool)
      requires Valid() && t in tasks && tasks[t] == h
      modifies this`tasks, h, mgr, mgr.sandboxes.Values, dir, ctr, ctr.host, journal
      ensures ctr.host.said == old(ctr.host.said) + said
      ensures DestroyAnswers(said, h.task, h.recovered, old(h.inTask), old(h.exitResult), h.exitResult, marked)
      ensures Valid() && dir.dead == if marked then old(dir.dead) + {h.task.alloc} else old(dir.dead)
      ensures tasks == old(tasks) - {t} && TaskGone(old(mgr.Entries()), h.task)
      ensures DestroyEffect(old(mgr.Entries()), old(ctr.View()), ctr.View(), dir.dead, h.task)
      ensures old(h.exitResult).Some? ==> Deleted(old(mgr.Entries()), old(ctr.View()), h.task)
    {
      ghost var tbl, st := journal.state.tasks, ctr.View();
      ghost var j;
      j, said, marked := StopStored(tbl, t, journal.Entry(t), h);
      ghost var end := h.exitResult;
      FinishStored(tbl, t, j, h.task, st);
      assert h.exitResult == end;
    }

    method FinishStored(ghost tbl: map<string, Info>, t: string, ghost j: Info, r: TaskRecord, ghost st0: Store)
      requires InDestroy(tbl, t, j, Stopped) && j.handle.value.task == r && Held(mgr.Entries())
      requires OthersMatch(tasks, tbl, t) && AtRest(j.(destroy := None))
      requires Handle.Effect(st0, ctr.View(), dir.dead, r)
      modifies this`tasks, mgr, mgr.sandboxes.Values, ctr, journal
      ensures ctr.host.said == old(ctr.host.said)
      ensures Valid() && tasks == old(tasks) - {t} && TaskGone(old(mgr.Entries()), r)
      ensures DestroyEffect(old(mgr.Entries()), st0, ctr.View(), dir.dead, r)
      ensures Deleted(old(mgr.Entries()), old(ctr.View()), r)
    {
      ghost var handles, m, st1 := tasks, mgr.Entries(), ctr.View();
      ghost var st := DeleteContainer(Halt(ctr.View(), r.container), r.container);
      FinishDestroy(tbl, t, j, r);
      DestroyedInRow(m, st0, st1, mgr.Entries(), ctr.View(), dir.dead, r);
      DroppedFacts(m, st, mgr.Entries(), ctr.View(), r);
      MatchingShrunk(handles, tbl, t, j.(stored := false, destroy := None));
    }

    // ----- The goroutine and its observers -----

    /** The goroutine of a stored task runs to its end while no call is in flight. */
    method RunGoroutine(t: string) returns (ghost said: seq<Host.Answer>, ghost marked: bool)
      requires Valid() && t in tasks && tasks[t].exitResult == None
      modifies tasks[t], dir, ctr, ctr.host, journal
      ensures ctr.host.said == old(ctr.host.said) + said && tasks[t].exitResult.Some?
      ensures Handle.RunAnswers(said, tasks[t].task, tasks[t].recovered, old(tasks[t].inTask),
                                tasks[t].exitResult.value, marked)
      ensures Valid() && mgr.Entries() == old(mgr.Entries())
      ensures tasks[t].doneClosed && tasks[t].Ran(old(dir.dead), old(ctr.View()), marked)
    {
      ghost var tbl, i := journal.state.tasks, journal.Entry(t);
      StandsWhere(t);
      ghost var j;
      j, said, marked := RunToEnd(tbl, t, i, tasks[t]);
      GoroutineMatches(tbl, t, j);
    }

    method RunToEnd(ghost tbl: map<string, Info>, ghost t: string, ghost i: Info, h: Handle.TaskHandle)
      returns (ghost j: Info, ghost said: seq<Host.Answer>, ghost marked: bool)
      requires Consistent() && GoroutineOf(tbl, t, i, h)
      modifies h, dir, ctr, ctr.host, journal
      ensures ctr.host.said == old(ctr.host.said) + said && h.exitResult.Some?
      ensures Handle.RunAnswers(said, h.task, h.recovered, old(h.inTask), h.exitResult.value, marked)
      ensures Consistent() && mgr.Entries() == old(mgr.Entries())
      ensures journal.state.tasks == tbl[t := j] && AtRest(j) && Fits(h, t, j)
      ensures h.doneClosed && h.Ran(old(dir.dead), old(ctr.View()), marked)
    {
      j, said, marked := h.Run(tbl, i);
      j := ToMonitor(j, Finished);
    }

    ghost predicate GoroutineOf(tbl: map<string, Info>, t: string, i: Info, h: Handle.TaskHandle)
      reads this, h, dir, ctr, journal, h.dir, h.ctr, h.dir.journal
    {
      && h.tid == t && h.ctr == ctr && h.dir == dir && i.stored && AtRest(i) && Waits(h, i)
      && h.Ready(tbl, i, i.handle.value.pc) && dir.journal == journal
    }

    /** The goroutine of a stored task opens its logs and starts its task, or attaches to it; unless that
        fails the task is in progress between calls. */
    method EnterTask(t: string) returns (ghost said: seq<Host.Answer>, ghost marked: bool)
      requires Valid() && t in tasks && tasks[t].exitResult == None && !tasks[t].inTask
      modifies tasks[t], dir, ctr, ctr.host, journal
      ensures ctr.host.said == old(ctr.host.said) + said
      ensures Handle.EnterAnswers(said, tasks[t].task, tasks[t].recovered, tasks[t].exitResult, marked)
      ensures Valid() && mgr.Entries() == old(mgr.Entries())
      ensures tasks[t].doneClosed == tasks[t].exitResult.Some? == !tasks[t].inTask
      ensures tasks[t].inTask && !tasks[t].recovered ==> Up(ctr.View(), tasks[t].task.container)
      ensures tasks[t].Ran(old(dir.dead), old(ctr.View()), marked)
    {
      ghost var tbl, i := journal.state.tasks, journal.Entry(t);
      StandsWhere(t);
      ghost var j;
      j, said, marked := EnterOnce(tbl, t, i, tasks[t]);
      GoroutineMatches(tbl, t, j);
    }

    method EnterOnce(ghost tbl: map<string, Info>, ghost t: string, ghost i: Info, h: Handle.TaskHandle)
      returns (ghost j: Info, ghost said: seq<Host.Answer>, ghost marked: bool)
      requires Consistent() && GoroutineOf(tbl, t, i, h) && !h.inTask
      modifies h, dir, ctr, ctr.host, journal
      ensures ctr.host.said == old(ctr.host.said) + said
      ensures Handle.EnterAnswers(said, h.task, h.recovered, h.exitResult, marked)
      ensures Consistent() && mgr.Entries() == old(mgr.Entries())
      ensures journal.state.tasks == tbl[t := j] && AtRest(j) && Fits(h, t, j)
      ensures h.doneClosed == h.exitResult.Some? == !h.inTask
      ensures h.inTask && !h.recovered ==> Up(ctr.View(), h.task.container)
      ensures h.Ran(old(dir.dead), old(ctr.View()), marked)
    {
      j, said, marked := h.Enter(tbl, i);
      j := ToMonitor(j, if h.inTask then InTask else Finished);
    }

    lemma StandsWhere(t: string)
      requires Valid() && t in tasks && tasks[t].exitResult == None
      ensures var tbl, i := journal.state.tasks, journal.Entry(t);
              tbl == tbl[t := i] && GoroutineOf(tbl, t, i, tasks[t]) && OthersMatch(tasks, tbl, t)
    {
      journal.EntryOk(t);
      assert Fits(tasks[t], t, journal.Entry(t));
    }

    lemma GoroutineMatches(tbl: map<string, Info>, t: string, j: Info)
      requires t in tasks && OthersMatch(tasks, tbl, t) && Fits(tasks[t], t, j) && AtRest(j) && t in tbl
      ensures Matching(tasks, tbl[t := j])
    {
    }

    /** A waiter is answered nothing as long as neither its context nor the task is done, and either if
        both are; the result it gets is the handle's, and it is there. */
    method WaitTask(t: string, cancelled: bool) returns (found: bool, answer: Option<Answer>)
      requires Valid()
      ensures found <==> t in tasks
      ensures found ==> (answer.Some? <==> tasks[t].doneClosed || cancelled)
      ensures answer == Some(ContextError) ==> cancelled
      ensures answer.Some? && answer.value.Result? ==>
                found && tasks[t].doneClosed && answer.value.exit.Some? && answer.value.exit == tasks[t].exitResult
    {
      found, answer := t in tasks, None;
      if found {
        journal.EntryOk(t);
        assert Fits(tasks[t], t, journal.state.tasks[t]);
        var first: bool := *;
        if tasks[t].doneClosed && (first || !cancelled) {
          answer := Some(Result(tasks[t].exitResult));
        } else if cancelled {
          answer := Some(ContextError);
        }
      }
    }

    // ----- Restart and RecoverTask -----

    /** A new driver process over the same containerd, state directory and persisted task states. */
    constructor Restarted(old_: Driver)
      requires old_.Valid()
      modifies old_.journal
      ensures Valid() && fresh(mgr) && ctr == old_.ctr && journal == old_.journal
      ensures mayGiveUp == old_.mayGiveUp && mayFailEncoding == old_.mayFailEncoding
      ensures tasks == map[] && mgr.sandboxes == map[] && ctr.View() == old(old_.ctr.View())
              && dir.dead == old(old_.dir.dead)
      ensures journal.state == CrashStep(old(old_.journal.state))
    {
      var c, d := old_.ctr, old_.dir;
      ghost var j := old_.journal;
      j.TakeCrash();
      var m := new Sandbox.SandboxManager(c, j);
      ctr, mgr, dir, journal, tasks := c, m, d, j, map[];
      mayGiveUp, mayFailEncoding := old_.mayGiveUp, old_.mayFailEncoding;
      new;
      assert mgr.Entries() == map[];
    }

    ghost method NoteRecover(tbl: map<string, Info>, t: string, i: Info, a: RecoverAct, j: Info)
      requires journal.Valid() && journal.state.tasks == tbl[t := i] && CanRecover(i, a) && AfterRecover(i, a) == j
      requires RecoverPermitted(journal.state, i.persisted.value, a)
              && (a.FindGone? || a.FindRunning? || a.Watch? || a.Keep?)
      modifies journal
      ensures journal.Valid() && journal.state.tasks == tbl[t := j]
      ensures journal.state.store == old(journal.state.store) && journal.state.markers == old(journal.state.markers)
      ensures journal.state.lock == old(journal.state.lock) && journal.state.sandboxes == old(journal.state.sandboxes)
    {
      journal.Take(t, Act.Recover(a));
      History.Twice(tbl, t, i, j);
    }

    function Recorded(r: TaskRecord): Info {
      BLANK.(persisted := Some(r))
    }

    function RecoveringInfo(r: TaskRecord, pc: RecoverPc): Info {
      Recorded(r).(recover := Some(pc))
    }

    method CheckRunning(ghost tbl: map<string, Info>, ghost t: string, r: TaskRecord)
      returns (running: bool, ghost reading: Reading)
      requires Consistent() && WellFormedRecord(r) && journal.state.tasks == tbl[t := Recorded(r)]
              && r.alloc !in journal.state.touched
      modifies journal, ctr.host
      ensures ctr.host.said == old(ctr.host.said) + [Host.Read(r.container, reading)]
      ensures running <==> reading == Reading.Running
      ensures Up(ctr.View(), r.container) ==> running || reading == OtherError
      ensures Consistent() && mgr.Entries() == old(mgr.Entries())
      ensures journal.state.tasks == tbl[t := if running then RecoveringInfo(r, SeenRunning) else Recorded(r)]
      ensures running ==> Up(ctr.View(), r.container)
    {
      var state := ctr.TaskState(r.container);
      running, reading := state == Reading.Running, state;
      if running {
        NoteRecover(tbl, t, Recorded(r), FindRunning, RecoveringInfo(r, SeenRunning));
      }
    }

    method WatchRecovered(ghost tbl: map<string, Info>, t: string, r: TaskRecord)
      requires Consistent() && WellFormedRecord(r) && journal.state.tasks == tbl[t := RecoveringInfo(r, Attached)]
      modifies this`tasks, journal
      ensures Consistent() && mgr.Entries() == old(mgr.Entries())
      ensures journal.state.tasks == tbl[t := RecoveredInfo(r)]
      ensures t in tasks && tasks == old(tasks)[t := tasks[t]] && fresh(tasks[t]) && Fits(tasks[t], t, RecoveredInfo(r))
    {
      var h := new Handle.TaskHandle(t, r, true, ctr, dir);
      NoteRecover(tbl, t, RecoveringInfo(r, Attached), Tasks.Watch, RecoveringInfo(r, RecoverPc.Watched).(handle := Some(NewHandle(r, true))));
      tasks := tasks[t := h];
      NoteRecover(tbl, t, RecoveringInfo(r, RecoverPc.Watched).(handle := Some(NewHandle(r, true))), Keep, RecoveredInfo(r));
    }

    method AttachRecovered(ghost tbl: map<string, Info>, t: string, r: TaskRecord)
      requires Consistent() && WellFormedRecord(r) && journal.state.tasks == tbl[t := RecoveringInfo(r, SeenRunning)]
      requires r.alloc in mgr.sandboxes ==> mgr.sandboxes[r.alloc].refCount < MAX_REFS
      modifies this`tasks, mgr, mgr.sandboxes.Values, journal
      ensures Consistent() && mgr.Entries() == Taken(old(mgr.Entries()), r.alloc)
      ensures journal.state.tasks == tbl[t := RecoveredInfo(r)]
      ensures t in tasks && tasks == old(tasks)[t := tasks[t]] && fresh(tasks[t]) && Fits(tasks[t], t, RecoveredInfo(r))
    {
      mgr.Recover(t, r.alloc, r.sandbox);
      History.Twice(tbl, t, RecoveringInfo(r, SeenRunning), RecoveringInfo(r, Attached));
      WatchRecovered(tbl, t, r);
    }

    method RecoverRunning(ghost tbl: map<string, Info>, ghost handles: map<string, Handle.TaskHandle>, t: string,
            r: TaskRecord)
      requires Consistent() && WellFormedRecord(r) && journal.state.tasks == tbl[t := RecoveringInfo(r, SeenRunning)]
      requires Held(mgr.Entries()) && Matching(handles, tbl) && tasks == handles
      requires r.alloc in mgr.sandboxes ==> mgr.sandboxes[r.alloc].refCount < MAX_REFS
      modifies this`tasks, mgr, mgr.sandboxes.Values, journal
      ensures Valid() && mgr.Entries() == Taken(old(mgr.Entries()), r.alloc)
      ensures t in tasks && tasks == handles[t := tasks[t]] && tasks[t].task == r && tasks[t].exitResult == None
    {
      HeldTaken(mgr.Entries(), r.alloc);
      AttachRecovered(tbl, t, r);
      MatchingGrown(handles, tbl, t, tasks[t], RecoveredInfo(r));
    }

    /** A persisted task is recovered exactly if containerd says it is running, which rebuilds its handle
        from the record and takes one reference; otherwise the call fails and changes nothing. So a task
        that is up is recovered unless the reading fails. Containerd is not touched. */
    method RecoverTask(t: string, r: TaskRecord) returns (ok: bool, ghost reading: Reading)
      requires Valid() && journal.Entry(t) == Recorded(r) && r.alloc !in journal.state.touched
      requires r.alloc in mgr.sandboxes ==> mgr.sandboxes[r.alloc].refCount < MAX_REFS
      modifies this`tasks, mgr, mgr.sandboxes.Values, ctr.host, journal
      ensures ctr.host.said == old(ctr.host.said) + [Host.Read(r.container, reading)]
      ensures ok <==> reading == Reading.Running
      ensures Up(ctr.View(), r.container) ==> ok || reading == OtherError
      ensures Valid()
      ensures ok ==> Up(ctr.View(), r.container) && mgr.Entries() == Taken(old(mgr.Entries()), r.alloc)
      ensures ok
              ==> t in tasks && tasks == old(tasks)[t := tasks[t]] && tasks[t].task == r && tasks[t].exitResult == None
      ensures !ok ==> tasks == old(tasks) && mgr.Entries() == old(mgr.Entries()) && journal.state.tasks == old(journal.state.tasks)
    {
      ghost var tbl, handles := journal.state.tasks, tasks;
      journal.EntryOk(t);
      assert tbl == tbl[t := Recorded(r)];
      ok, reading := CheckRunning(tbl, t, r);
      if ok {
        RecoverRunning(tbl, handles, t, r);
      }
    }

    // ----- What the machine's theorems say of this driver between calls -----

    function TasksOf(alloc: string): set<string>
      reads this
    {
      set t | t in tasks && tasks[t].task.alloc == alloc
    }

    lemma HoldersAtRest(alloc: string)
      requires Valid()
      ensures References.Holders(journal.state.tasks, alloc) == TasksOf(alloc)
    {
      forall t
        ensures t in References.Holders(journal.state.tasks, alloc) <==> t in TasksOf(alloc)
      {
        if t in tasks {
          assert Fits(tasks[t], t, journal.state.tasks[t]);
        }
      }
    }

    /** The count of a sandbox is the number of its allocation's tasks in the task store, and the map
        has exactly the allocations that have one. */
    lemma CountsAreTasks(alloc: string)
      requires Valid() && References.Encodes(journal.faults, INIT, journal.trace, alloc)
      ensures alloc in mgr.sandboxes ==> mgr.sandboxes[alloc].refCount == |TasksOf(alloc)|
      ensures alloc in mgr.sandboxes <==> TasksOf(alloc) != {}
    {
      References.RefCountIsHolders(journal.faults, journal.trace, journal.state, alloc);
      HoldersAtRest(alloc);
      assert alloc in mgr.sandboxes ==> mgr.Entries()[alloc].refs == mgr.sandboxes[alloc].refCount;
    }

    /** Containerd holds the sandbox of every unmarked allocation with a task, and nothing under any
        other sandbox ID unless a restart left it behind. */
    lemma ContainerdAgrees(alloc: string)
      requires Valid() && References.Encodes(journal.faults, INIT, journal.trace, alloc)
      ensures TasksOf(alloc) != {} && alloc !in dir.dead ==> SandboxIntact(ctr.View(), alloc)
      ensures HasSandbox(ctr.View(), alloc) ==> TasksOf(alloc) != {} || alloc in journal.state.stale
    {
      CountsAreTasks(alloc);
      Agreement.MapAgreesWithContainerd(journal.faults, journal.trace, journal.state, alloc);
    }

    /** As long as no fault happens, this driver never marks an allocation dead. */
    lemma NeverMarks()
      requires Valid() && journal.faults == NO_FAULTS
      ensures dir.dead == {}
    {
      FalsePoisoning.NoFalsePoisoning(journal.trace, journal.state);
    }
  }
}
