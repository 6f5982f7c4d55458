/** taskHandle and its goroutine, and the part of the driver the goroutine calls back. */
module Handle {
  import opened Names
  import opened Runtime
  import opened Tasks
  import opened Machine
  import Containerd
  import History
  import Host

  /** What death cleanup leaves, whether or not reaping the sandbox's processes succeeds. */
  function SweptStore(st: Store, alloc: string, reaped: bool): Store {
    if reaped then Halt(TornDown(st, alloc), SandboxOf(alloc)) else TornDown(st, alloc)
  }

  /** What markSandboxDead hears. */
  predicate MarkAnswers(said: seq<Host.Answer>, alloc: string, marked: bool) {
    && |said| == (if marked then 2 else 1) && said[0] == Host.Reply(Host.WriteMarker(alloc), marked)
    && (marked ==> said[1].Reply? && said[1].call == Host.ReapProcesses(alloc))
  }

  /** What the probe of the sandbox `c` after an exit hears, and when it concludes that the sandbox is dead. */
  predicate ProbeAnswers(said: seq<Host.Answer>, c: Cid, e: Exit, dead: bool) {
    if e.code == 0 && !e.err then said == [] && !dead
    else
      && |said| == 1 && said[0].Read? && said[0].container == c
      && (dead <==> said[0].reading == NotRunning || said[0].reading == TransportClosed)
  }

  /** What recordExit hears for a task of record `r` that ended with `e`. After a clean exit it asks
      nothing. Otherwise it reads the sandbox's state; if that says the sandbox is not running or its
      transport is closed, and in no other case, it writes the marker, and if that succeeds it goes on
      to reap the sandbox's processes. `marked` says that a marker was written. */
  predicate ExitAnswers(said: seq<Host.Answer>, r: TaskRecord, e: Exit, marked: bool) {
    if e.code == 0 && !e.err then said == [] && !marked
    else
      && |said| > 0 && said[0].Read? && said[0].container == r.sandbox
      && if said[0].reading == NotRunning || said[0].reading == TransportClosed then
           && |said| == (if marked then 3 else 2)
           && said[1] == Host.Reply(Host.WriteMarker(r.alloc), marked)
           && (marked ==> said[2].Reply? && said[2].call == Host.ReapProcesses(r.alloc))
         else |said| == 1 && !marked
  }

  /** What a goroutine hears from its task in progress to its end with `e`. */
  predicate LeaveAnswers(said: seq<Host.Answer>, r: TaskRecord, e: Exit, marked: bool) {
    && |said| > 0 && said[0].Exited? && said[0].container == r.container && said[0].exit == e
    && ExitAnswers(said[1..], r, e, marked)
  }

  /** What a goroutine hears up to its task being in progress. Its end comes earlier exactly if its logs
      cannot be opened, or its task cannot be started or, after a restart, attached to. */
  predicate EnterAnswers(said: seq<Host.Answer>, r: TaskRecord, recovered: bool, end: Option<Exit>, marked: bool) {
    var start := if recovered then Host.Attach(r.container) else Host.StartTask(r.container);
    && |said| > 0
    && if said[0] == Host.Reply(Host.OpenLogs, false) then
         |said| == 1 && !marked && end == Some(if recovered then Exit(0, false) else Exit(1, true))
       else
         && said[0] == Host.Reply(Host.OpenLogs, true) && |said| > 1
         && if said[1] == Host.Reply(start, false) then
              end == Some(Exit(-1, true)) && ExitAnswers(said[2..], r, Exit(-1, true), marked)
            else said == [Host.Reply(Host.OpenLogs, true), Host.Reply(start, true)] && end == None && !marked
  }

  /** What a goroutine hears from where it stands, inside its task or before, to its end with `e`. */
  predicate RunAnswers(said: seq<Host.Answer>, r: TaskRecord, recovered: bool, inTask: bool, e: Exit, marked: bool) {
    if inTask then LeaveAnswers(said, r, e, marked)
    else
      || EnterAnswers(said, r, recovered, Some(e), marked)
      || (|said| > 2 && EnterAnswers(said[..2], r, recovered, None, false) && LeaveAnswers(said[2..], r, e, marked))
  }

  /** The answers say that the sandbox of `r` is dead. */
  predicate HeardDead(said: seq<Host.Answer>, r: TaskRecord) {
    Host.Read(r.sandbox, NotRunning) in said || Host.Read(r.sandbox, TransportClosed) in said
  }

  predicate MarkerAsked(said: seq<Host.Answer>, r: TaskRecord) {
    Host.Reply(Host.WriteMarker(r.alloc), true) in said || Host.Reply(Host.WriteMarker(r.alloc), false) in said
  }

  lemma ExitMarks(said: seq<Host.Answer>, r: TaskRecord, e: Exit, marked: bool)
    requires ExitAnswers(said, r, e, marked)
    ensures MarkerAsked(said, r) <==> HeardDead(said, r)
    ensures HeardDead(said, r) ==> e.code != 0 || e.err
    ensures marked <==> Host.Reply(Host.WriteMarker(r.alloc), true) in said
  {
    if said != [] {
      assert said[0] in said;
      if |said| > 1 {
        assert said[1] in said;
      }
    }
  }

  /** Over a whole goroutine, marking is attempted exactly if the sandbox was read as dead, which is
      read only after an abnormal exit; and the allocation is marked exactly if that succeeded. */
  lemma RunMarks(said: seq<Host.Answer>, r: TaskRecord, recovered: bool, inTask: bool, e: Exit, marked: bool)
    requires RunAnswers(said, r, recovered, inTask, e, marked)
    ensures MarkerAsked(said, r) <==> HeardDead(said, r)
    ensures HeardDead(said, r) ==> e.code != 0 || e.err
    ensures marked <==> Host.Reply(Host.WriteMarker(r.alloc), true) in said
  {
    if inTask {
      ExitMarks(said[1..], r, e, marked);
      assert said == [said[0]] + said[1..];
    } else if EnterAnswers(said, r, recovered, Some(e), marked) {
      if |said| > 1 {
        ExitMarks(said[2..], r, e, marked);
        assert said == [said[0], said[1]] + said[2..];
      }
    } else {
      ExitMarks(said[3..], r, e, marked);
      assert said[2..][1..] == said[3..];
      assert said == [said[0], said[1], said[2]] + said[3..];
      assert said[..2] == [said[0], said[1]] && said[2..][0] == said[2];
    }
  }

  /** What a goroutine does to containerd: nothing to other allocations or to other tasks' containers,
      and nothing to its own sandbox unless the allocation is marked. */
  ghost predicate Effect(st: Store, st': Store, dead: set<string>, r: TaskRecord) {
    OwnOnly(st, st', r.container) && (r.alloc !in dead ==> SameSandbox(st, st', r.alloc))
  }

  lemma EffectThen(st: Store, st1: Store, st2: Store, dead: set<string>, dead': set<string>, r: TaskRecord)
    requires Effect(st, st1, dead, r) && Effect(st1, st2, dead', r) && dead <= dead'
    ensures Effect(st, st2, dead', r)
  {
    OwnOnlyThen(st, st1, st2, r.container);
  }

  lemma EffectHalt(st: Store, dead: set<string>, r: TaskRecord)
    requires r.container == TaskOf(r.alloc, r.name)
    ensures Effect(st, Halt(st, r.container), dead, r)
  {
    HaltOwnOnly(st, r.container, r.container);
  }

  lemma EffectBoot(st: Store, dead: set<string>, r: TaskRecord)
    requires r.container == TaskOf(r.alloc, r.name)
    ensures Effect(st, Boot(st, r.container), dead, r)
  {
  }

  lemma EffectSwept(st: Store, reaped: bool, dead: set<string>, r: TaskRecord)
    requires r.container == TaskOf(r.alloc, r.name) && r.alloc in dead
    ensures Effect(st, SweptStore(st, r.alloc, reaped), dead, r)
    ensures !HasSandbox(SweptStore(st, r.alloc, reaped), r.alloc)
  {
    TornDownOwnOnly(st, r.container);
    HaltOwnOnly(TornDown(st, r.alloc), SandboxOf(r.alloc), r.container);
    if reaped {
      OwnOnlyThen(st, TornDown(st, r.alloc), SweptStore(st, r.alloc, reaped), r.container);
    }
  }

  /** The driver's state directory, as far as dead-sandbox markers go. */
  class StateDir {
    const ctr: Containerd.Client
    ghost const journal: History.Journal
    var dead: set<string>

    ghost predicate Valid()
      reads this, ctr, journal
    {
      && journal.Valid()
      && journal.state.store == ctr.View()
      && journal.state.markers == dead
    }

    constructor (ctr: Containerd.Client, ghost journal: History.Journal)
      requires journal.Valid() && journal.state.store == ctr.View() && journal.state.markers == {}
      ensures Valid() && this.ctr == ctr && this.journal == journal && dead == {}
    {
      this.ctr, this.journal, dead := ctr, journal, {};
    }

    method SandboxDead(alloc: string) returns (found: bool)
      ensures found == (alloc in dead)
    {
      found := alloc in dead;
    }

    /** In the task table `tasks`, only the goroutine of `t`, whose entry was `i`, has moved: to `pc`. */
    ghost predicate Moved(tasks: map<string, Info>, t: string, i: Info, pc: MonitorPc)
      reads journal
    {
      i.handle.Some? && journal.state.tasks == tasks[t := ToMonitor(i, pc)]
    }

    ghost predicate Watches(i: Info, alloc: string) {
      i.handle.Some? && i.handle.value.task == RecordOf(alloc, i.handle.value.task.name)
    }

    twostate predicate MapUntouched()
      reads journal
    {
      journal.state.lock == old(journal.state.lock) && journal.state.sandboxes == old(journal.state.sandboxes)
    }

    ghost method Advance(tasks: map<string, Info>, t: string, i: Info, pc: MonitorPc, a: MonitorAct, j: Info,
            pc': MonitorPc)
      requires journal.Valid() && Moved(tasks, t, i, pc) && CanMonitor(ToMonitor(i, pc), a)
      requires MonitorPermitted(journal.faults, journal.state, i.handle.value.task, a)
      requires j.handle.Some? && AfterMonitor(ToMonitor(i, pc), a) == ToMonitor(j, pc')
      modifies journal
      ensures journal.Valid() && MapUntouched() && Moved(tasks, t, j, pc')
      ensures journal.state.store == StoreAfter(old(journal.state.store), i.handle.value.task, Monitor(a))
      ensures journal.state.markers == MarkersAfter(old(journal.state.markers), i.handle.value.task, Monitor(a))
    {
      journal.TakeMonitor(t, a);
      History.Twice(tasks, t, ToMonitor(i, pc), ToMonitor(j, pc'));
    }

    method StopSandbox(ghost tasks: map<string, Info>, ghost t: string, ghost i: Info, ghost e: Exit, alloc: string)
      requires Valid() && Watches(i, alloc) && Moved(tasks, t, i, Marked(e))
      modifies ctr, journal
      ensures Valid() && MapUntouched() && Moved(tasks, t, i, SweptHalt(e))
      ensures ctr.View() == Halt(old(ctr.View()), SandboxOf(alloc))
    {
      ctr.DeleteTask(SandboxOf(alloc));
      Advance(tasks, t, i, Marked(e), SweepHalt, i, SweptHalt(e));
    }

    method DeleteSandboxContainer(ghost tasks: map<string, Info>, ghost t: string, ghost i: Info, ghost e: Exit,
            alloc: string)
      requires Valid() && Watches(i, alloc) && Moved(tasks, t, i, SweptHalt(e))
      modifies ctr, journal
      ensures Valid() && MapUntouched() && Moved(tasks, t, i, SweptContainer(e))
      ensures ctr.View() == DeleteContainer(old(ctr.View()), SandboxOf(alloc))
    {
      ctr.DeleteContainer(SandboxOf(alloc));
      Advance(tasks, t, i, SweptHalt(e), SweepContainer, i, SweptContainer(e));
    }

    method DeleteSandboxRecord(ghost tasks: map<string, Info>, ghost t: string, ghost i: Info, ghost e: Exit,
            alloc: string)
      requires Valid() && Watches(i, alloc) && Moved(tasks, t, i, SweptContainer(e))
      modifies ctr, journal
      ensures Valid() && MapUntouched() && Moved(tasks, t, i, SweptMetadata(e))
      ensures ctr.View() == DeleteMetadata(old(ctr.View()), SandboxOf(alloc))
    {
      ctr.DeleteSandboxMetadata(SandboxOf(alloc));
      Advance(tasks, t, i, SweptContainer(e), SweepMetadata, i, SweptMetadata(e));
    }

    /** An error while reaping processes is only logged. */
    method ReapProcesses(ghost tasks: map<string, Info>, ghost t: string, ghost i: Info, ghost e: Exit, alloc: string)
      returns (reaped: bool)
      requires Valid() && Watches(i, alloc) && Moved(tasks, t, i, SweptMetadata(e))
      modifies ctr, ctr.host, journal
      ensures ctr.host.said == old(ctr.host.said) + [Host.Reply(Host.ReapProcesses(alloc), reaped)]
      ensures Valid() && MapUntouched() && Moved(tasks, t, i, Recording(e))
      ensures ctr.View() == if reaped then Halt(old(ctr.View()), SandboxOf(alloc)) else old(ctr.View())
    {
      reaped := ctr.host.Ask(Host.ReapProcesses(alloc), false);
      if reaped {
        ctr.DeleteTask(SandboxOf(alloc));
        Advance(tasks, t, i, SweptMetadata(e), SweepProcesses, i, Recording(e));
      } else {
        Advance(tasks, t, i, SweptMetadata(e), SweepProcessesFails, i, Recording(e));
      }
    }

    method WriteDeadMarker(ghost tasks: map<string, Info>, ghost t: string, ghost i: Info, ghost e: Exit,
            alloc: string) returns (ok: bool)
      requires Valid() && Watches(i, alloc) && Moved(tasks, t, i, Condemning(e))
      modifies this, ctr.host, journal
      ensures ctr.host.said == old(ctr.host.said) + [Host.Reply(Host.WriteMarker(alloc), ok)]
      ensures Valid() && MapUntouched()
      ensures ok ==> dead == old(dead) + {alloc} && Moved(tasks, t, i, Marked(e))
      ensures !ok ==> dead == old(dead) && Moved(tasks, t, MarkingFailed(i), Recording(e))
    {
      ok := ctr.host.Ask(Host.WriteMarker(alloc), false);
      if ok {
        dead := dead + {alloc};
        Advance(tasks, t, i, Condemning(e), WriteMarker, i, Marked(e));
      } else {
        Advance(tasks, t, i, Condemning(e), WriteMarkerFails, MarkingFailed(i), Recording(e));
      }
    }

    /** If the marker cannot be written, nothing else is done; otherwise the marker is on disk and
        nothing is left under the sandbox ID, whatever reaping its processes does. */
    method MarkSandboxDead(ghost tasks: map<string, Info>, ghost t: string, ghost i: Info, ghost e: Exit,
            alloc: string) returns (ok: bool, ghost said: seq<Host.Answer>)
      requires Valid() && Watches(i, alloc) && Moved(tasks, t, i, Condemning(e))
      modifies this, ctr, ctr.host, journal
      ensures ctr.host.said == old(ctr.host.said) + said && MarkAnswers(said, alloc, ok)
      ensures Valid() && MapUntouched()
      ensures dead == if ok then old(dead) + {alloc} else old(dead)
      ensures ctr.View() == if ok then SweptStore(old(ctr.View()), alloc, said[1].granted) else old(ctr.View())
      ensures Moved(tasks, t, if ok then i else MarkingFailed(i), Recording(e))
    {
      ok := WriteDeadMarker(tasks, t, i, e, alloc);
      said := [Host.Reply(Host.WriteMarker(alloc), ok)];
      if ok {
        var reaped := Sweep(tasks, t, i, e, alloc);
        said := said + [Host.Reply(Host.ReapProcesses(alloc), reaped)];
      }
    }

    /** Everything under the sandbox ID goes, whatever reaping its processes does. */
    method Sweep(ghost tasks: map<string, Info>, ghost t: string, ghost i: Info, ghost e: Exit, alloc: string)
      returns (reaped: bool)
      requires Valid() && Watches(i, alloc) && Moved(tasks, t, i, Marked(e))
      modifies ctr, ctr.host, journal
      ensures ctr.host.said == old(ctr.host.said) + [Host.Reply(Host.ReapProcesses(alloc), reaped)]
      ensures Valid() && MapUntouched() && Moved(tasks, t, i, Recording(e))
      ensures ctr.View() == SweptStore(old(ctr.View()), alloc, reaped)
    {
      StopSandbox(tasks, t, i, e, alloc);
      DeleteSandboxContainer(tasks, t, i, e, alloc);
      DeleteSandboxRecord(tasks, t, i, e, alloc);
      reaped := ReapProcesses(tasks, t, i, e, alloc);
    }
  }

  function MarkingFailed(i: Info): Info
    requires i.handle.Some?
  {
    i.(handle := Some(i.handle.value.(markFailed := true)))
  }

  function WithExit(i: Info, e: Exit): Info
    requires i.handle.Some?
  {
    i.(handle := Some(i.handle.value.(exit := Some(e))))
  }

  function WithDone(i: Info): Info
    requires i.handle.Some?
  {
    i.(handle := Some(i.handle.value.(done := true)))
  }

  function SawDead(i: Info): Info
    requires i.handle.Some?
  {
    i.(handle := Some(i.handle.value.(sawDead := true)))
  }

  /** `j` is `i` up to what its goroutine learned about the sandbox. */
  predicate SameButForFindings(i: Info, j: Info) {
    && i.handle.Some? && j.handle.Some?
    && j == i.(handle := Some(i.handle.value.(sawDead := j.handle.value.sawDead, markFailed := j.handle.value.markFailed)))
  }

  class TaskHandle {
    ghost const tid: string
    const task: TaskRecord
    const recovered: bool
    const ctr: Containerd.Client
    const dir: StateDir
    var exitResult: Option<Exit>
    var doneClosed: bool
    /** The goroutine is waiting for its task to exit. */
    var inTask: bool

    constructor (ghost tid: string, task: TaskRecord, recovered: bool, ctr: Containerd.Client, dir: StateDir)
      ensures this.tid == tid && this.task == task && this.recovered == recovered && this.ctr == ctr && this.dir == dir
      ensures exitResult == None && !doneClosed && !inTask
    {
      this.tid, this.task, this.recovered, this.ctr, this.dir := tid, task, recovered, ctr, dir;
      exitResult, doneClosed, inTask := None, false, false;
    }

    /** The object and its entry in the machine say the same. */
    ghost predicate Matches(i: Info)
      reads this
    {
      && i.handle.Some?
      && i.handle.value.task == task && i.handle.value.recovered == recovered
      && i.handle.value.exit == exitResult && i.handle.value.done == doneClosed
    }

    ghost predicate Ready(tasks: map<string, Info>, i: Info, pc: MonitorPc)
      reads this, dir, ctr, dir.journal
    {
      && dir.ctr == ctr && dir.Valid()
      && Matches(i) && dir.Watches(i, task.alloc)
      && dir.Moved(tasks, tid, i, pc)
    }

    method IsRunning() returns (r: bool)
      ensures r <==> exitResult == None
    {
      r := exitResult == None;
    }

    method SetExit(ghost tasks: map<string, Info>, ghost i: Info, e: Exit)
      requires Ready(tasks, i, Recording(e))
      modifies this`exitResult, dir.journal
      ensures exitResult == Some(e)
      ensures dir.MapUntouched() && Ready(tasks, WithExit(i, e), Closing)
    {
      exitResult := Some(e);
      dir.Advance(tasks, tid, i, Recording(e), Tasks.SetExit, WithExit(i, e), Closing);
    }

    method CloseDone(ghost tasks: map<string, Info>, ghost i: Info)
      requires Ready(tasks, i, Closing) && !doneClosed
      modifies this`doneClosed, dir.journal
      ensures doneClosed
      ensures dir.MapUntouched() && Ready(tasks, WithDone(i), Finished)
    {
      doneClosed := true;
      dir.Advance(tasks, tid, i, Closing, Tasks.CloseDone, WithDone(i), Finished);
    }

    /** Reads the sandbox's state after an abnormal exit, and after no other. The sandbox counts as dead
        exactly if it is read as not running or its transport as closed. */
    method ProbeSandbox(ghost tasks: map<string, Info>, ghost i: Info, e: Exit)
      returns (dead: bool, ghost j: Info, ghost said: seq<Host.Answer>)
      requires Ready(tasks, i, Returned(e))
      modifies dir.journal, ctr.host
      ensures ctr.host.said == old(ctr.host.said) + said
      ensures ProbeAnswers(said, task.sandbox, e, dead)
      ensures dir.MapUntouched() && dir.journal.state.markers == old(dir.journal.state.markers)
      ensures SameButForFindings(i, j) && Ready(tasks, j, if dead then Condemning(e) else Recording(e))
      ensures dead ==> !Up(ctr.View(), task.sandbox)
    {
      dead := false;
      j, said := i, [];
      if Abnormal(e) {
        var r := ctr.TaskState(task.sandbox);
        dead := ConcludesDead(r);
        j, said := if dead then SawDead(i) else i, [Host.Read(task.sandbox, r)];
        dir.Advance(tasks, tid, i, Returned(e), Probe(r), j, if dead then Condemning(e) else Recording(e));
      } else {
        dir.Advance(tasks, tid, i, Returned(e), SkipProbe, i, Recording(e));
      }
    }

    method OnSandboxDead(ghost tasks: map<string, Info>, ghost i: Info, ghost e: Exit)
      returns (ghost j: Info, ghost said: seq<Host.Answer>, ghost marked: bool)
      requires Ready(tasks, i, Condemning(e))
      modifies dir, ctr, ctr.host, dir.journal
      ensures ctr.host.said == old(ctr.host.said) + said && MarkAnswers(said, task.alloc, marked)
      ensures dir.MapUntouched() && SameButForFindings(i, j) && Ready(tasks, j, Recording(e))
      ensures Verdict(old(dir.dead), old(ctr.View()), marked)
    {
      var ok;
      ok, said := dir.MarkSandboxDead(tasks, tid, i, e, task.alloc);
      marked := ok;
      j := if ok then i else MarkingFailed(i);
      if ok {
        EffectSwept(old(ctr.View()), said[1].granted, dir.dead, task);
      }
    }

    /** Compared with the markers `dead` and the store `st` before: the allocation has been marked and
        nothing is left under its sandbox ID, or nothing happened. */
    ghost predicate Verdict(dead: set<string>, st: Store, marked: bool)
      reads dir, ctr
    {
      if marked then
        dir.dead == dead + {task.alloc} && !HasSandbox(ctr.View(), task.alloc) && Effect(st, ctr.View(), dir.dead, task)
      else dir.dead == dead && ctr.View() == st
    }

    /** recordExit up to setExit. */
    method Decide(ghost tasks: map<string, Info>, ghost i: Info, e: Exit)
      returns (ghost j: Info, ghost said: seq<Host.Answer>, ghost marked: bool)
      requires Ready(tasks, i, Returned(e))
      modifies dir, ctr, ctr.host, dir.journal
      ensures ctr.host.said == old(ctr.host.said) + said && ExitAnswers(said, task, e, marked)
      ensures dir.MapUntouched() && SameButForFindings(i, j) && Ready(tasks, j, Recording(e))
      ensures Up(old(ctr.View()), task.sandbox) ==> !marked
      ensures Verdict(old(dir.dead), old(ctr.View()), marked)
    {
      var dead;
      marked := false;
      dead, j, said := ProbeSandbox(tasks, i, e);
      if dead {
        ghost var more;
        j, more, marked := OnSandboxDead(tasks, j, e);
        said := said + more;
      }
    }

    /** The allocation is marked exactly after an abnormal exit whose reading of the sandbox says that it
        is not running or its transport is closed, if the marker can then be written; otherwise neither
        the markers nor containerd move. The result is set last. */
    method RecordExit(ghost tasks: map<string, Info>, ghost i: Info, e: Exit)
      returns (ghost j: Info, ghost said: seq<Host.Answer>, ghost marked: bool)
      requires Ready(tasks, i, Returned(e))
      modifies this`exitResult, dir, ctr, ctr.host, dir.journal
      ensures ctr.host.said == old(ctr.host.said) + said && ExitAnswers(said, task, e, marked)
      ensures dir.MapUntouched() && exitResult == Some(e)
      ensures SameButForFindings(WithExit(i, e), j) && Ready(tasks, j, Closing)
      ensures Up(old(ctr.View()), task.sandbox) ==> !marked
      ensures Verdict(old(dir.dead), old(ctr.View()), marked)
    {
      j, said, marked := Decide(tasks, i, e);
      SetExit(tasks, j, e);
      j := WithExit(j, e);
    }

    /** openLogs of a fresh or a recovered task; nothing but the log files depends on it. */
    method OpenLogs(ghost tasks: map<string, Info>, ghost i: Info) returns (ok: bool)
      requires Ready(tasks, i, Opening)
      modifies dir.journal, ctr.host
      ensures ctr.host.said == old(ctr.host.said) + [Host.Reply(Host.OpenLogs, ok)]
      ensures dir.MapUntouched() && dir.journal.state.markers == old(dir.journal.state.markers)
      ensures Ready(tasks, i, if ok then Opened else Recording(if recovered then Exit(0, false) else Exit(1, true)))
    {
      ok := ctr.host.Ask(Host.OpenLogs, false);
      if ok {
        dir.Advance(tasks, tid, i, Opening, Tasks.OpenLogs, i, Opened);
      } else {
        dir.Advance(tasks, tid, i, Opening, OpenLogsFails, i, Recording(if recovered then Exit(0, false) else Exit(1, true)));
      }
    }

    /** RunTask up to the start of the task, or MonitorTask up to attaching to it. */
    method Begin(ghost tasks: map<string, Info>, ghost i: Info) returns (ok: bool)
      requires Ready(tasks, i, Opened)
      modifies ctr, ctr.host, dir.journal
      ensures var c := if recovered then Host.Attach(task.container) else Host.StartTask(task.container);
              ctr.host.said == old(ctr.host.said) + [Host.Reply(c, ok)]
      ensures dir.MapUntouched() && dir.journal.state.markers == old(dir.journal.state.markers)
      ensures Ready(tasks, i, if ok then InTask else Returned(Exit(-1, true)))
      ensures ctr.View() == if ok && !recovered then Boot(old(ctr.View()), task.container) else old(ctr.View())
      ensures ok && !recovered ==> Up(ctr.View(), task.container)
    {
      if recovered {
        ok := ctr.host.Ask(Host.Attach(task.container), false);
      } else {
        ok := ctr.StartTaskDetached(task.container);
      }
      if !ok {
        dir.Advance(tasks, tid, i, Opened, RunFails, i, Returned(Exit(-1, true)));
      } else if recovered {
        dir.Advance(tasks, tid, i, Opened, AttachTask, i, InTask);
      } else {
        dir.Advance(tasks, tid, i, Opened, RunTask, i, InTask);
      }
    }

    /** The goroutine from the result of its task to the close of doneCh. */
    method Conclude(ghost tasks: map<string, Info>, ghost i: Info, e: Exit)
      returns (ghost j: Info, ghost said: seq<Host.Answer>, ghost marked: bool)
      requires Ready(tasks, i, Returned(e)) && !doneClosed
      modifies this`exitResult, this`doneClosed, dir, ctr, ctr.host, dir.journal
      ensures ctr.host.said == old(ctr.host.said) + said && ExitAnswers(said, task, e, marked)
      ensures dir.MapUntouched() && exitResult == Some(e) && doneClosed
      ensures SameButForFindings(WithDone(WithExit(i, e)), j) && Ready(tasks, j, Finished)
      ensures Up(old(ctr.View()), task.sandbox) ==> !marked
      ensures Verdict(old(dir.dead), old(ctr.View()), marked)
    {
      j, said, marked := RecordExit(tasks, i, e);
      CloseDone(tasks, j);
      j := WithDone(j);
    }

    /** What a whole goroutine has done since the markers were `dead` and the store `st`. */
    ghost predicate Ran(dead: set<string>, st: Store, marked: bool)
      reads this, dir, ctr
    {
      && (Up(st, task.sandbox) ==> !marked)
      && dir.dead == (if marked then dead + {task.alloc} else dead)
      && Effect(st, ctr.View(), dir.dead, task)
    }

    method FailToOpen(ghost tasks: map<string, Info>, ghost i: Info) returns (ghost j: Info)
      requires Ready(tasks, i, Recording(if recovered then Exit(0, false) else Exit(1, true))) && !doneClosed
      modifies this`exitResult, this`doneClosed, dir.journal
      ensures dir.MapUntouched() && doneClosed
      ensures exitResult == Some(if recovered then Exit(0, false) else Exit(1, true))
      ensures j == WithDone(WithExit(i, exitResult.value)) && Ready(tasks, j, Finished)
    {
      var e := if recovered then Exit(0, false) else Exit(1, true);
      SetExit(tasks, i, e);
      j := WithExit(i, e);
      CloseDone(tasks, j);
      j := WithDone(j);
    }

    /** The first half of the goroutine: it ends at once exactly if its logs cannot be opened or its task
        cannot be started or attached to, and otherwise its task is in progress. */
    method Enter(ghost tasks: map<string, Info>, ghost i: Info)
      returns (ghost j: Info, ghost said: seq<Host.Answer>, ghost marked: bool)
      requires Ready(tasks, i, Opening) && !doneClosed && !inTask && exitResult == None
      modifies this, dir, ctr, ctr.host, dir.journal
      ensures ctr.host.said == old(ctr.host.said) + said && EnterAnswers(said, task, recovered, exitResult, marked)
      ensures dir.MapUntouched() && doneClosed == exitResult.Some? == !inTask
      ensures inTask ==> j == i && Ready(tasks, i, InTask) && SameSandbox(old(ctr.View()), ctr.View(), task.alloc)
      ensures inTask && !recovered ==> Up(ctr.View(), task.container)
      ensures !inTask ==> SameButForFindings(WithDone(WithExit(i, exitResult.value)), j) && Ready(tasks, j, Finished)
      ensures Ran(old(dir.dead), old(ctr.View()), marked)
    {
      var ok := OpenLogs(tasks, i);
      said := [Host.Reply(Host.OpenLogs, ok)];
      if ok {
        ghost var more;
        j, more, marked := EnterTask(tasks, i);
        said := said + more;
      } else {
        marked := false;
        j := FailToOpen(tasks, i);
      }
    }

    method EnterTask(ghost tasks: map<string, Info>, ghost i: Info)
      returns (ghost j: Info, ghost said: seq<Host.Answer>, ghost marked: bool)
      requires Ready(tasks, i, Opened) && !doneClosed && !inTask && exitResult == None
      modifies this, dir, ctr, ctr.host, dir.journal
      ensures ctr.host.said == old(ctr.host.said) + said
      ensures var start := if recovered then Host.Attach(task.container) else Host.StartTask(task.container);
              if inTask then said == [Host.Reply(start, true)] && !marked
              else |said| > 0 && said[0] == Host.Reply(start, false) && exitResult == Some(Exit(-1, true))
                   && ExitAnswers(said[1..], task, Exit(-1, true), marked)
      ensures dir.MapUntouched() && doneClosed == exitResult.Some? == !inTask
      ensures inTask ==> j == i && Ready(tasks, i, InTask) && SameSandbox(old(ctr.View()), ctr.View(), task.alloc)
      ensures inTask && !recovered ==> Up(ctr.View(), task.container)
      ensures !inTask ==> SameButForFindings(WithDone(WithExit(i, exitResult.value)), j) && Ready(tasks, j, Finished)
      ensures Ran(old(dir.dead), old(ctr.View()), marked)
    {
      ghost var st := ctr.View();
      var ok := Begin(tasks, i);
      said := [Host.Reply(if recovered then Host.Attach(task.container) else Host.StartTask(task.container), ok)];
      if ok {
        j, marked, inTask := i, false, true;
        EffectBoot(st, dir.dead, task);
      } else {
        ghost var more;
        j, more, marked := Conclude(tasks, i, Exit(-1, true));
        said := said + more;
      }
    }

    /** Any exit may be reported; the task has stopped, unless it is only the connection to it that was lost. */
    method AwaitExit(ghost tasks: map<string, Info>, ghost i: Info) returns (e: Exit, ghost stopped: bool)
      requires Ready(tasks, i, InTask)
      modifies ctr, ctr.host, dir.journal
      ensures ctr.host.said == old(ctr.host.said) + [Host.Exited(task.container, e, stopped)]
      ensures dir.MapUntouched() && dir.journal.state.markers == old(dir.journal.state.markers)
      ensures Ready(tasks, i, Returned(e))
      ensures ctr.View() == if stopped then Halt(old(ctr.View()), task.container) else old(ctr.View())
    {
      var gone: bool := *;
      if gone {
        ctr.DeleteTask(task.container);
        dir.journal.TakeExit(task.container);
      }
      var code: int, err: bool := *, *;
      e, stopped := Exit(code, err), gone;
      ctr.host.Note(Host.Exited(task.container, e, stopped));
      dir.Advance(tasks, tid, i, InTask, TaskReturns(e), i, Returned(e));
    }

    /** The second half: from a task in progress to a closed doneCh, with the exit that was reported. */
    method Leave(ghost tasks: map<string, Info>, ghost i: Info)
      returns (ghost j: Info, ghost said: seq<Host.Answer>, ghost marked: bool)
      requires Ready(tasks, i, InTask) && !doneClosed && inTask
      modifies this, dir, ctr, ctr.host, dir.journal
      ensures dir.MapUntouched() && exitResult.Some? && doneClosed && !inTask
      ensures ctr.host.said == old(ctr.host.said) + said && LeaveAnswers(said, task, exitResult.value, marked)
      ensures SameButForFindings(WithDone(WithExit(i, exitResult.value)), j) && Ready(tasks, j, Finished)
      ensures Ran(old(dir.dead), old(ctr.View()), marked)
    {
      ghost var st := ctr.View();
      var e;
      ghost var stopped;
      e, stopped := AwaitExit(tasks, i);
      ghost var st1, dead := ctr.View(), dir.dead;
      EffectHalt(st, dead, task);
      j, said, marked := Conclude(tasks, i, e);
      said := [Host.Exited(task.container, e, stopped)] + said;
      inTask := false;
      EffectThen(st, st1, ctr.View(), dead, dir.dead, task);
    }

    /** The goroutine from wherever it stands between calls to its end, for a fresh handle (run) or a
        recovered one (monitorRecovered): it ends with a result and a closed doneCh, having heard what
        RunAnswers says. It marks no allocation but its own, and that only if its sandbox was not up when
        it began; nothing of other allocations, nothing of other tasks, and unless it marks its own
        allocation nothing of its sandbox, is touched. */
    method Run(ghost tasks: map<string, Info>, ghost i: Info)
      returns (ghost j: Info, ghost said: seq<Host.Answer>, ghost marked: bool)
      requires Ready(tasks, i, if inTask then InTask else Opening) && !doneClosed && exitResult == None
      modifies this, dir, ctr, ctr.host, dir.journal
      ensures dir.MapUntouched() && exitResult.Some? && doneClosed && !inTask
      ensures ctr.host.said == old(ctr.host.said) + said
      ensures RunAnswers(said, task, recovered, old(inTask), exitResult.value, marked)
      ensures SameButForFindings(WithDone(WithExit(i, exitResult.value)), j) && Ready(tasks, j, Finished)
      ensures Ran(old(dir.dead), old(ctr.View()), marked)
    {
      if inTask {
        j, said, marked := Leave(tasks, i);
      } else {
        j, said, marked := RunThrough(tasks, i);
      }
    }

    method RunThrough(ghost tasks: map<string, Info>, ghost i: Info)
      returns (ghost j: Info, ghost said: seq<Host.Answer>, ghost marked: bool)
      requires Ready(tasks, i, Opening) && !doneClosed && !inTask && exitResult == None
      modifies this, dir, ctr, ctr.host, dir.journal
      ensures dir.MapUntouched() && exitResult.Some? && doneClosed && !inTask
      ensures ctr.host.said == old(ctr.host.said) + said
      ensures RunAnswers(said, task, recovered, false, exitResult.value, marked)
      ensures SameButForFindings(WithDone(WithExit(i, exitResult.value)), j) && Ready(tasks, j, Finished)
      ensures Ran(old(dir.dead), old(ctr.View()), marked)
    {
      ghost var st, dead := ctr.View(), dir.dead;
      j, said, marked := Enter(tasks, i);
      if inTask {
        ghost var st1, first, more := ctr.View(), said, [];
        j, more, marked := Leave(tasks, i);
        said := first + more;
        assert said[..2] == first && said[2..] == more;
        EffectThen(st, st1, ctr.View(), dead, dir.dead, task);
      }
    }
  }
}
