/** Reaping the processes of a dead sandbox: SIGTERM for all, one shared deadline, SIGKILL for
    the survivors. */
module Reaper {
  import opened Processes
  import opened Tasks

  const SECOND := 1_000_000_000
  const MILLISECOND := 1_000_000
  const GRACE := 3 * SECOND

  /** A pidfd and the process it was opened for. */
  datatype PidFd = PidFd(fd: nat, pid: int)

  datatype OpenResult = Opened(handle: PidFd) | NoSuchProcess | OpenFailed

  datatype SignalResult = Delivered | Gone | Refused

  datatype WaitResult = HasExited | StillRunning | PollFailed

  /** What a call did, in the order of the calls. A tick is a reading of the clock; a wait asks for whole
      milliseconds and takes nanoseconds. */
  datatype Event =
    | Open(pid: int, got: OpenResult)
    | Term(handle: PidFd, sent: SignalResult)
    | Tick(now: nat)
    | Wait(handle: PidFd, asked: nat, took: nat, waited: WaitResult)
    | Kill(handle: PidFd, sent: SignalResult)
    | Close(handle: PidFd)

  /** The kernel as the reaper sees it: a clock in nanoseconds that never goes back, the open
      pidfds, and a record of the calls. */
  class Kernel {
    var clock: nat
    var open: set<PidFd>
    var nextFd: nat
    ghost var log: seq<Event>

    predicate Valid()
      reads this
    {
      forall h :: h in open ==> h.fd < nextFd
    }

    constructor ()
      ensures Valid() && open == {} && log == []
    {
      clock, open, nextFd, log := 0, {}, 0, [];
    }

    method Now() returns (now: nat)
      requires Valid()
      modifies this`clock, this`log
      ensures Valid() && old(clock) <= now == clock && log == old(log) + [Tick(now)]
    {
      var passed :| 0 <= passed;
      clock := clock + passed;
      now := clock;
      log := log + [Tick(now)];
    }

    method OpenProcess(pid: int) returns (r: OpenResult)
      requires Valid()
      modifies this
      ensures Valid() && old(clock) <= clock && log == old(log) + [Open(pid, r)]
      ensures r.Opened? ==> r.handle.pid == pid && r.handle !in old(open) && open == old(open) + {r.handle}
      ensures !r.Opened? ==> open == old(open)
    {
      var found: bool, allowed: bool := *, *;
      if found && allowed {
        var h := PidFd(nextFd, pid);
        nextFd, open, r := nextFd + 1, open + {h}, OpenResult.Opened(h);
      } else {
        r := if found then OpenFailed else NoSuchProcess;
      }
      log := log + [Open(pid, r)];
    }

    method Signal(h: PidFd, kill: bool) returns (r: SignalResult)
      requires Valid() && h in open
      modifies this`clock, this`log
      ensures Valid() && old(clock) <= clock
      ensures log == old(log) + [if kill then Kill(h, r) else Term(h, r)]
    {
      r := *;
      log := log + [if kill then Kill(h, r) else Term(h, r)];
    }

    /** Blocks no longer than the milliseconds asked for, and as long as that if the process does not exit. */
    method Poll(h: PidFd, milliseconds: nat) returns (r: WaitResult, ghost took: nat)
      requires Valid() && h in open
      modifies this`clock, this`log
      ensures Valid() && took <= milliseconds * MILLISECOND && old(clock) + took <= clock
      ensures r.StillRunning? ==> took == milliseconds * MILLISECOND
      ensures log == old(log) + [Wait(h, milliseconds, took, r)]
    {
      r := *;
      var blocked :| 0 <= blocked;
      if r.StillRunning? || blocked > milliseconds * MILLISECOND {
        blocked := milliseconds * MILLISECOND;
      }
      clock, took := clock + blocked, blocked;
      log := log + [Wait(h, milliseconds, took, r)];
    }

    method CloseHandle(h: PidFd)
      requires Valid() && h in open
      modifies this`open, this`log
      ensures Valid() && open == old(open) - {h} && log == old(log) + [Close(h)]
    {
      open := open - {h};
      log := log + [Close(h)];
    }
  }

  // ----- What a run of the reaper looks like in the record -----

  /** The outcome of opening one process after another, skipping those already gone. */
  predicate OpenedInOrder(events: seq<Event>, pids: seq<int>) {
    && |events| == |pids|
    && forall k :: 0 <= k < |pids| ==> events[k].Open? && events[k].pid == pids[k] && !events[k].got.OpenFailed?
  }

  function OpenedBy(e: Event): seq<PidFd> {
    if e.Open? && e.got.Opened? then [e.got.handle] else []
  }

  function HandlesOf(events: seq<Event>): seq<PidFd> {
    if events == [] then [] else HandlesOf(events[..|events| - 1]) + OpenedBy(events[|events| - 1])
  }

  lemma {:induction false} HandlesAppend(events: seq<Event>, e: Event)
    ensures HandlesOf(events + [e]) == HandlesOf(events) + OpenedBy(e)
  {
    assert (events + [e])[..|events|] == events;
  }

  function Members(hs: seq<PidFd>): set<PidFd> {
    set h | h in hs
  }

  lemma MembersAppend(hs: seq<PidFd>, h: PidFd)
    ensures Members(hs + [h]) == Members(hs) + {h}
  {
  }

  lemma MembersRemoved(open: set<PidFd>, hs: seq<PidFd>)
    requires forall h :: h in hs ==> h !in open
    ensures (open + Members(hs)) - Members(hs) == open
  {
  }

  predicate Distinct(hs: seq<PidFd>) {
    forall j, k :: 0 <= j < k < |hs| ==> hs[j] != hs[k]
  }

  predicate TermedInOrder(events: seq<Event>, hs: seq<PidFd>) {
    && |events| == |hs|
    && forall k :: 0 <= k < |hs| ==> events[k].Term? && events[k].handle == hs[k] && !events[k].sent.Refused?
  }

  /** A reading of the clock, a wait, and the kill that follows it if there is one. */
  datatype Round = Round(handle: PidFd, now: nat, asked: nat, took: nat, waited: WaitResult,
                         kill: Option<SignalResult>)

  function Calls(r: Round): seq<Event> {
    [Tick(r.now), Wait(r.handle, r.asked, r.took, r.waited)] + if r.kill.Some? then [Kill(r.handle, r.kill.value)] else []
  }

  function Flatten(rounds: seq<Round>): seq<Event> {
    FlattenTo(rounds, |rounds|)
  }

  function FlattenTo(rounds: seq<Round>, n: nat): seq<Event>
    requires n <= |rounds|
  {
    if n == 0 then [] else FlattenTo(rounds, n - 1) + Calls(rounds[n - 1])
  }

  /** What a round returned: its process is killed exactly when its wait reported it still running. */
  predicate RoundRan(r: Round, err: Option<ReapError>) {
    match r.waited
    case HasExited => err.None? && r.kill.None?
    case StillRunning => r.kill.Some? && err == if r.kill.value.Refused? then Some(KillError) else None
    case PollFailed => err == Some(WaitError) && r.kill.None?
  }

  predicate Complete(r: Round) {
    RoundRan(r, None)
  }

  predicate WaitedInOrder(rounds: seq<Round>, hs: seq<PidFd>) {
    && |rounds| == |hs|
    && forall k :: 0 <= k < |hs| ==> rounds[k].handle == hs[k] && Complete(rounds[k])
  }

  function Closes(hs: seq<PidFd>): seq<Event> {
    seq(|hs|, i requires 0 <= i < |hs| => Close(hs[i]))
  }

  lemma ClosesAppend(hs: seq<PidFd>, h: PidFd)
    ensures Closes(hs + [h]) == Closes(hs) + [Close(h)]
  {
  }

  function TimeWaited(rounds: seq<Round>): nat {
    TimeWaitedTo(rounds, |rounds|)
  }

  function TimeWaitedTo(rounds: seq<Round>, n: nat): nat
    requires n <= |rounds|
  {
    if n == 0 then 0 else TimeWaitedTo(rounds, n - 1) + rounds[n - 1].took
  }

  /** The wait asks for all the whole milliseconds left until 3 s after `started`, or for one if some
      time is left but less than that. */
  predicate AsksForAllLeft(started: nat, r: Round) {
    var left := if started + 3_000_000_000 > r.now then started + 3_000_000_000 - r.now else 0;
    if 0 < left < 1_000_000 then r.asked == 1
    else r.asked * 1_000_000 <= left && left - r.asked * 1_000_000 < 1_000_000
  }

  /** The wait takes no longer than it asks for, and as long as that if its process does not exit. */
  predicate KeepsTime(r: Round) {
    r.took <= r.asked * MILLISECOND && (r.waited.StillRunning? ==> r.took == r.asked * MILLISECOND)
  }

  /** When the `i`-th round can read the clock at the earliest. */
  function NotBefore(started: nat, rounds: seq<Round>, i: nat): nat
    requires i <= |rounds|
  {
    if i == 0 then started else rounds[i - 1].now + rounds[i - 1].took
  }

  /** Rounds that share the deadline 3 s after `started`, one after the other. */
  predicate OnSchedule(started: nat, rounds: seq<Round>) {
    && (forall i :: 0 <= i < |rounds| ==> AsksForAllLeft(started, rounds[i]) && KeepsTime(rounds[i]))
    && (forall i {:trigger NotBefore(started, rounds, i)} ::
          0 <= i < |rounds| ==> rounds[i].now >= NotBefore(started, rounds, i))
  }

  lemma OnScheduleNext(started: nat, rounds: seq<Round>, r: Round)
    requires OnSchedule(started, rounds) && AsksForAllLeft(started, r) && KeepsTime(r)
    requires r.now >= NotBefore(started, rounds, |rounds|)
    ensures OnSchedule(started, rounds + [r])
    ensures NotBefore(started, rounds + [r], |rounds| + 1) == r.now + r.took
  {
    forall i | 0 <= i <= |rounds|
      ensures (rounds + [r])[i].now >= NotBefore(started, rounds + [r], i)
    {
      assert NotBefore(started, rounds + [r], i) == NotBefore(started, rounds, i);
    }
  }

  datatype ReapError = FindFailed | OpenError(pid: int) | TermError | WaitError | KillError

  // ----- Stopping early -----

  predicate TermRefused(events: seq<Event>, hs: seq<PidFd>) {
    var n := |events|;
    0 < n <= |hs| && TermedInOrder(events[..n - 1], hs[..n - 1]) && events[n - 1] == Term(hs[n - 1], Refused)
  }

  /** How the waits went, by the error that ended them: all rounds but the last are complete. */
  predicate WaitRan(rounds: seq<Round>, hs: seq<PidFd>, err: Option<ReapError>) {
    if err.None? then WaitedInOrder(rounds, hs)
    else
      var n := |rounds| - 1;
      0 <= n < |hs| && WaitedInOrder(rounds[..n], hs[..n]) && rounds[n].handle == hs[n] && RoundRan(rounds[n], err)
  }

  // ----- The reaper -----

  /** The wait is asked for in milliseconds; what is left below one millisecond counts as one. */
  function Milliseconds(remaining: nat): nat {
    if remaining > 0 && remaining / MILLISECOND == 0 then 1 else remaining / MILLISECOND
  }

  lemma RoundingUp(remaining: nat)
    ensures var asked := Milliseconds(remaining);
            if 0 < remaining < MILLISECOND then asked == 1
            else asked * MILLISECOND <= remaining && remaining - asked * MILLISECOND < MILLISECOND
  {
  }

  ghost predicate AllOpen(k: Kernel, hs: seq<PidFd>)
    reads k
  {
    k.Valid() && Distinct(hs) && forall i :: 0 <= i < |hs| ==> hs[i] in k.open
  }

  /** What opening has done since the set of open handles was `before`. */
  ghost predicate OpenSoFar(k: Kernel, before: set<PidFd>, handles: seq<PidFd>)
    reads k
  {
    && AllOpen(k, handles) && k.open == before + Members(handles)
    && forall h :: h in handles ==> h !in before
  }

  method OpenNext(k: Kernel, pid: int, handles: seq<PidFd>, ghost before: set<PidFd>)
    returns (r: OpenResult, more: seq<PidFd>)
    requires OpenSoFar(k, before, handles)
    modifies k
    ensures OpenSoFar(k, before, more) && more == handles + OpenedBy(Open(pid, r))
    ensures k.log == old(k.log) + [Open(pid, r)]
  {
    r := k.OpenProcess(pid);
    more := handles;
    if r.Opened? {
      MembersAppend(handles, r.handle);
      more := more + [r.handle];
    }
  }

  method OpenAll(k: Kernel, pids: seq<int>) returns (handles: seq<PidFd>, failed: Option<int>, ghost events: seq<Event>)
    requires k.Valid()
    modifies k
    ensures OpenSoFar(k, old(k.open), handles)
    ensures k.log == old(k.log) + events && handles == HandlesOf(events)
    ensures failed.None? ==> OpenedInOrder(events, pids)
    ensures failed.Some? ==> OpenStopped(events, pids, failed.value)
  {
    handles, failed, events := [], None, [];
    for i := 0 to |pids|
      invariant OpenSoFar(k, old(k.open), handles)
      invariant k.log == old(k.log) + events && handles == HandlesOf(events)
      invariant failed.None? && OpenedInOrder(events, pids[..i])
    {
      var r;
      r, handles := OpenNext(k, pids[i], handles, old(k.open));
      ghost var e := Open(pids[i], r);
      HandlesAppend(events, e);
      if r.OpenFailed? {
        OpenStops(events, pids, i);
        failed, events := Some(pids[i]), events + [e];
        return;
      }
      events := events + [e];
    }
    assert pids[..|pids|] == pids;
  }

  predicate OpenStopped(events: seq<Event>, pids: seq<int>, pid: int) {
    var n := |events| - 1;
    && 0 <= n < |pids| && OpenedInOrder(events[..n], pids[..n])
    && pid == pids[n] && events[n] == Open(pid, OpenFailed)
  }

  lemma OpenStops(events: seq<Event>, pids: seq<int>, i: nat)
    requires i < |pids| && OpenedInOrder(events, pids[..i])
    ensures OpenStopped(events + [Open(pids[i], OpenFailed)], pids, pids[i])
  {
    assert (events + [Open(pids[i], OpenFailed)])[..i] == events;
  }

  method TermAll(k: Kernel, handles: seq<PidFd>) returns (failed: bool, ghost events: seq<Event>)
    requires AllOpen(k, handles)
    modifies k`clock, k`log
    ensures k.Valid() && old(k.clock) <= k.clock && k.log == old(k.log) + events
    ensures if failed then TermRefused(events, handles) else TermedInOrder(events, handles)
  {
    failed, events := false, [];
    for i := 0 to |handles|
      invariant AllOpen(k, handles) && old(k.clock) <= k.clock && k.log == old(k.log) + events
      invariant TermedInOrder(events, handles[..i])
    {
      var r := k.Signal(handles[i], false);
      ghost var e := Term(handles[i], r);
      assert (events + [e])[..|events|] == events;
      events := events + [e];
      if r.Refused? {
        failed := true;
        return;
      }
    }
    assert handles[..|handles|] == handles;
  }

  /** A round: its wait is asked to end by the deadline, its kill is not. */
  method WaitFor(k: Kernel, h: PidFd, deadline: nat, ghost started: nat)
    returns (failed: Option<ReapError>, ghost round: Round)
    requires k.Valid() && h in k.open && deadline == started + GRACE
    modifies k`clock, k`log
    ensures k.Valid() && k.log == old(k.log) + Calls(round) && round.handle == h
    ensures old(k.clock) <= round.now && round.now + round.took <= k.clock
    ensures AsksForAllLeft(started, round) && KeepsTime(round)
    ensures RoundRan(round, failed)
  {
    failed := None;
    var now := k.Now();
    var remaining := Remaining(deadline, now);
    RoundingUp(remaining);
    var asked := Milliseconds(remaining);
    var r, took := k.Poll(h, asked);
    round := Round(h, now, asked, took, r, None);
    if r.PollFailed? {
      failed := Some(WaitError);
    } else if r.StillRunning? {
      var sent := k.Signal(h, true);
      round := Round(h, now, asked, took, r, Some(sent));
      failed := if sent.Refused? then Some(KillError) else None;
    }
  }

  lemma {:induction false} FlattenPrefix(rounds: seq<Round>, r: Round, n: nat)
    requires n <= |rounds|
    ensures FlattenTo(rounds + [r], n) == FlattenTo(rounds, n)
  {
    if n > 0 {
      FlattenPrefix(rounds, r, n - 1);
    }
  }

  lemma {:induction false} RoundAdded(rounds: seq<Round>, r: Round)
    ensures Flatten(rounds + [r]) == Flatten(rounds) + Calls(r)
  {
    FlattenPrefix(rounds, r, |rounds|);
  }

  /** One more round after complete ones: the waits go on, or end with its error. */
  lemma WaitNext(rounds: seq<Round>, r: Round, hs: seq<PidFd>, i: nat, failed: Option<ReapError>)
    requires i < |hs| && WaitedInOrder(rounds, hs[..i]) && r.handle == hs[i] && RoundRan(r, failed)
    ensures failed.None? ==> WaitedInOrder(rounds + [r], hs[..i + 1])
    ensures failed.Some? ==> WaitRan(rounds + [r], hs, failed)
  {
    assert (rounds + [r])[..i] == rounds;
  }

  /** The calls of the waits: the clock is read for the deadline, and then in each round. */
  function WaitCalls(started: nat, rounds: seq<Round>): seq<Event> {
    [Tick(started)] + Flatten(rounds)
  }

  method WaitAll(k: Kernel, handles: seq<PidFd>)
    returns (failed: Option<ReapError>, ghost started: nat, ghost rounds: seq<Round>)
    requires AllOpen(k, handles)
    modifies k`clock, k`log
    ensures k.Valid() && k.log == old(k.log) + WaitCalls(started, rounds)
    ensures old(k.clock) <= started && OnSchedule(started, rounds)
    ensures WaitRan(rounds, handles, failed)
  {
    failed, rounds := None, [];
    var start := k.Now();
    started := start;
    var deadline := start + GRACE;
    for i := 0 to |handles|
      invariant failed.None? && AllOpen(k, handles) && k.log == old(k.log) + WaitCalls(started, rounds)
      invariant OnSchedule(started, rounds) && NotBefore(started, rounds, |rounds|) <= k.clock
      invariant WaitedInOrder(rounds, handles[..i])
    {
      ghost var r;
      failed, r := WaitFor(k, handles[i], deadline, started);
      RoundAdded(rounds, r);
      OnScheduleNext(started, rounds, r);
      WaitNext(rounds, r, handles, i, failed);
      rounds := rounds + [r];
      if failed.Some? {
        return;
      }
    }
    assert handles[..|handles|] == handles;
  }

  method CloseAll(k: Kernel, handles: seq<PidFd>)
    requires AllOpen(k, handles)
    modifies k`open, k`log
    ensures k.Valid() && k.open == old(k.open) - Members(handles) && k.log == old(k.log) + Closes(handles)
  {
    for i := 0 to |handles|
      invariant k.Valid() && k.open == old(k.open) - Members(handles[..i])
      invariant k.log == old(k.log) + Closes(handles[..i])
    {
      k.CloseHandle(handles[i]);
      assert handles[..i + 1][..i] == handles[..i];
      assert handles[..i + 1] == handles[..i] + [handles[i]];
      MembersAppend(handles[..i], handles[i]);
      ClosesAppend(handles[..i], handles[i]);
    }
    assert handles[..|handles|] == handles;
  }

  /** The calls of one run, phase by phase. */
  datatype Trace = Trace(opens: seq<Event>, terms: seq<Event>, started: Option<nat>, waits: seq<Round>)

  function Waits(t: Trace): seq<Event> {
    if t.started.None? then [] else WaitCalls(t.started.value, t.waits)
  }

  function Record(t: Trace, err: Option<ReapError>): seq<Event> {
    t.opens + t.terms + Waits(t) + if Abandons(err) then [] else Closes(HandlesOf(t.opens))
  }

  predicate OpenRan(t: Trace, pids: seq<int>, err: Option<ReapError>) {
    match err
    case Some(FindFailed) => t.opens == []
    case Some(OpenError(pid)) => OpenStopped(t.opens, pids, pid)
    case _ => OpenedInOrder(t.opens, pids)
  }

  predicate SignalRan(t: Trace, hs: seq<PidFd>, err: Option<ReapError>) {
    if Abandons(err) then t.terms == [] && t.started.None? && t.waits == []
    else if err == Some(TermError) then TermRefused(t.terms, hs) && t.started.None? && t.waits == []
    else
      && TermedInOrder(t.terms, hs) && t.started.Some?
      && WaitRan(t.waits, hs, err) && OnSchedule(t.started.value, t.waits)
  }

  /** How far a run came, by the error it returned. */
  predicate Ran(t: Trace, pids: seq<int>, err: Option<ReapError>) {
    OpenRan(t, pids, err) && SignalRan(t, HandlesOf(t.opens), err)
  }

  predicate Abandons(err: Option<ReapError>) {
    err.Some? && (err.value.FindFailed? || err.value.OpenError?)
  }

  function Pids(entries: Option<seq<ProcessEntry>>, id: string): seq<int> {
    if entries.Some? then Select(entries.value, id) else []
  }

  /** What a run does once every process that still exists is open. */
  function Signals(t: Trace): seq<Event> {
    t.terms + Waits(t) + Closes(HandlesOf(t.opens))
  }

  lemma Grouped(before: seq<Event>, a: seq<Event>, b: seq<Event>, c: seq<Event>)
    ensures before + a + b + c == before + (a + b + c)
  {
  }

  lemma Regrouped(before: seq<Event>, a: seq<Event>, b: seq<Event>, c: seq<Event>, d: seq<Event>)
    ensures before + a + (b + c + d) == before + (a + b + c + d)
  {
  }

  lemma Recorded(before: seq<Event>, t: Trace, err: Option<ReapError>)
    requires !Abandons(err)
    ensures before + t.opens + Signals(t) == before + Record(t, err)
  {
    Regrouped(before, t.opens, t.terms, Waits(t), Closes(HandlesOf(t.opens)));
  }

  /** A run that stops at a process it cannot open. */
  lemma StoppedRun(opens: seq<Event>, pids: seq<int>, pid: int)
    requires OpenStopped(opens, pids, pid)
    ensures var t, err := Trace(opens, [], None, []), Some(OpenError(pid));
            Ran(t, pids, err) && Record(t, err) == opens
  {
    assert opens + [] == opens;
  }

  method SignalAll(k: Kernel, handles: seq<PidFd>, ghost opens: seq<Event>)
    returns (err: Option<ReapError>, ghost t: Trace)
    requires AllOpen(k, handles) && handles == HandlesOf(opens)
    modifies k`clock, k`log, k`open
    ensures k.Valid() && k.open == old(k.open) - Members(handles)
    ensures k.log == old(k.log) + Signals(t)
    ensures t.opens == opens && SignalRan(t, handles, err) && !Abandons(err)
  {
    t := Trace(opens, [], None, []);
    var refused;
    ghost var terms;
    refused, terms := TermAll(k, handles);
    if refused {
      err, t := Some(TermError), Trace(opens, terms, None, []);
    } else {
      ghost var started, waits;
      err, started, waits := WaitAll(k, handles);
      t := Trace(opens, terms, Some(started), waits);
    }
    CloseAll(k, handles);
    Grouped(old(k.log), terms, Waits(t), Closes(handles));
  }

  /** The last phases of a run over the processes `pids`. */
  method ReapOpened(k: Kernel, handles: seq<PidFd>, ghost opens: seq<Event>, ghost pids: seq<int>,
          ghost before: seq<Event>, ghost others: set<PidFd>) returns (err: Option<ReapError>, ghost t: Trace)
    requires OpenSoFar(k, others, handles) && handles == HandlesOf(opens) && OpenedInOrder(opens, pids)
    requires k.log == before + opens
    modifies k`clock, k`log, k`open
    ensures k.Valid() && k.open == others && k.log == before + Record(t, err)
    ensures t.opens == opens && Ran(t, pids, err) && !Abandons(err)
  {
    err, t := SignalAll(k, handles, opens);
    MembersRemoved(others, handles);
    Recorded(before, t, err);
  }

  /** Once every process that still exists is open, no return leaves a handle open; before that, an
      error in opening leaves every handle opened so far open and its process unsignalled. */
  method Reap(k: Kernel, pids: seq<int>) returns (err: Option<ReapError>, ghost t: Trace)
    requires k.Valid()
    modifies k
    ensures k.Valid() && Ran(t, pids, err) && err != Some(FindFailed)
    ensures k.log == old(k.log) + Record(t, err)
    ensures k.open == old(k.open) + if Abandons(err) then Members(HandlesOf(t.opens)) else {}
    ensures Distinct(HandlesOf(t.opens)) && forall h :: h in HandlesOf(t.opens) ==> h !in old(k.open)
  {
    var handles, failedPid, opens := OpenAll(k, pids);
    if failedPid.Some? {
      StoppedRun(opens, pids, failedPid.value);
      err, t := Some(OpenError(failedPid.value)), Trace(opens, [], None, []);
    } else {
      err, t := ReapOpened(k, handles, opens, pids, old(k.log), old(k.open));
    }
  }

  method CleanupSandboxProcesses(k: Kernel, entries: Option<seq<ProcessEntry>>, id: string)
    returns (err: Option<ReapError>, ghost t: Trace)
    requires k.Valid()
    modifies k
    ensures k.Valid() && Ran(t, Pids(entries, id), err) && (entries.None? <==> err == Some(FindFailed))
    ensures k.log == old(k.log) + Record(t, err)
    ensures k.open == old(k.open) + if Abandons(err) then Members(HandlesOf(t.opens)) else {}
    ensures Distinct(HandlesOf(t.opens)) && forall h :: h in HandlesOf(t.opens) ==> h !in old(k.open)
  {
    if entries.None? {
      err, t := Some(FindFailed), Trace([], [], None, []);
      return;
    }
    var pids := SandboxProcessIDs(entries.value, id);
    err, t := Reap(k, pids);
  }

  // ----- When handles are left open -----

  /** Is the handle opened by some call of the record? */
  predicate SomeOpened(events: seq<Event>, n: nat)
    requires n <= |events|
  {
    exists j :: 0 <= j < n && OpenedBy(events[j]) != []
  }

  lemma {:induction false} HandlesFromOpens(events: seq<Event>)
    ensures HandlesOf(events) != [] <==> SomeOpened(events, |events|)
  {
    if events != [] {
      var n := |events| - 1;
      HandlesFromOpens(events[..n]);
      assert forall j :: 0 <= j < n ==> events[..n][j] == events[j];
      assert SomeOpened(events, |events|) <==> SomeOpened(events[..n], n) || OpenedBy(events[n]) != [];
    }
  }

  /** Handles stay open and their processes get no signal exactly when the kernel opens one process of
      the sandbox and then fails to open a later one. */
  lemma LeakIff(t: Trace, pids: seq<int>, err: Option<ReapError>)
    requires Ran(t, pids, err)
    ensures Abandons(err) && HandlesOf(t.opens) != [] <==>
            exists j, i :: 0 <= j < i < |t.opens| && OpenedBy(t.opens[j]) != [] && t.opens[i].Open?
                    && t.opens[i].got.OpenFailed?
  {
    HandlesFromOpens(t.opens);
    var n := |t.opens| - 1;
    if err.Some? && err.value.OpenError? {
      assert t.opens[n].got.OpenFailed?;
    }
    forall i | 0 <= i < |t.opens|
      ensures t.opens[i].Open? && (t.opens[i].got.OpenFailed? ==> Abandons(err) && i == n)
    {
      OpensOnly(t, pids, err, i);
    }
  }

  /** A sandbox with two processes, of which the second cannot be opened. */
  lemma LeakingRun(h: PidFd) returns (t: Trace, pids: seq<int>, err: Option<ReapError>)
    requires h.pid == 1
    ensures Ran(t, pids, err) && HandlesOf(t.opens) == [h] && Record(t, err) == t.opens
    ensures Targets(Record(t, err), OnTerm) == Targets(Record(t, err), OnClose) == []
  {
    pids, err := [1, 2], Some(OpenError(2));
    var opens := [Open(1, OpenResult.Opened(h)), Open(2, OpenFailed)];
    t := Trace(opens, [], None, []);
    assert opens[..1] == [Open(1, OpenResult.Opened(h))] && pids[..1] == [1];
    HandlesAppend([], opens[0]);
    HandlesAppend([opens[0]], opens[1]);
    assert [] + [opens[0]] == [opens[0]] && [opens[0]] + [opens[1]] == opens;
    assert Record(t, err) == opens;
    OpensHaveNoTargets(opens, 2, OnTerm);
    OpensHaveNoTargets(opens, 2, OnClose);
  }

  // ----- How tight the bound on the waits is -----

  function Remaining(deadline: nat, now: nat): nat {
    if deadline > now then deadline - now else 0
  }

  /** When the `i`-th wait can start at the earliest. */
  function Earliest(started: nat, now: seq<nat>, took: seq<nat>, i: nat): nat
    requires i < |now| == |took|
  {
    if i == 0 then started else now[i - 1] + took[i - 1]
  }

  /** Clock readings before the waits, and how long the waits took: a monotone clock, and polls that
      block no longer than asked. */
  predicate Scheduled(started: nat, now: seq<nat>, took: seq<nat>) {
    && |now| == |took|
    && (forall i {:trigger Earliest(started, now, took, i)} :: 0 <= i < |now| ==> now[i] >= Earliest(started, now, took, i))
    && (forall i :: 0 <= i < |now| ==> took[i] <= Milliseconds(Remaining(started + GRACE, now[i])) * MILLISECOND)
  }

  function Total(took: seq<nat>, n: nat): nat
    requires n <= |took|
  {
    if n == 0 then 0 else Total(took, n - 1) + took[n - 1]
  }

  /** Every schedule of waits, of any length, stays below 3 s + 1 ms. */
  lemma {:induction false} WaitsBounded(started: nat, now: seq<nat>, took: seq<nat>, n: nat)
    requires Scheduled(started, now, took) && n <= |took|
    ensures Total(took, n) < GRACE + MILLISECOND
    ensures n > 0 ==> started + Total(took, n) <= now[n - 1] + took[n - 1]
  {
    if n > 0 {
      WaitsBounded(started, now, took, n - 1);
      assert now[n - 1] >= Earliest(started, now, took, n - 1);
      RoundingUp(Remaining(started + GRACE, now[n - 1]));
    }
  }

  function Nows(rounds: seq<Round>): seq<nat> {
    seq(|rounds|, i requires 0 <= i < |rounds| => rounds[i].now)
  }

  function Tooks(rounds: seq<Round>): seq<nat> {
    seq(|rounds|, i requires 0 <= i < |rounds| => rounds[i].took)
  }

  lemma {:induction false} TotalIsTimeWaited(rounds: seq<Round>, n: nat)
    requires n <= |rounds|
    ensures Total(Tooks(rounds), n) == TimeWaitedTo(rounds, n)
  {
    if n > 0 {
      TotalIsTimeWaited(rounds, n - 1);
    }
  }

  lemma RoundsScheduled(started: nat, rounds: seq<Round>)
    requires OnSchedule(started, rounds)
    ensures Scheduled(started, Nows(rounds), Tooks(rounds))
  {
    forall i | 0 <= i < |rounds|
      ensures Nows(rounds)[i] >= Earliest(started, Nows(rounds), Tooks(rounds), i)
      ensures Tooks(rounds)[i] <= Milliseconds(Remaining(started + GRACE, Nows(rounds)[i])) * MILLISECOND
    {
      RoundingUp(Remaining(started + GRACE, rounds[i].now));
      assert NotBefore(started, rounds, i) == Earliest(started, Nows(rounds), Tooks(rounds), i);
    }
  }

  /** The waits of every run together stay below 3 s + 1 ms. */
  lemma TimeBounded(t: Trace, pids: seq<int>, err: Option<ReapError>)
    requires Ran(t, pids, err)
    ensures TimeWaited(t.waits) < GRACE + MILLISECOND
  {
    if t.started.Some? {
      RoundsScheduled(t.started.value, t.waits);
      WaitsBounded(t.started.value, Nows(t.waits), Tooks(t.waits), |t.waits|);
      TotalIsTimeWaited(t.waits, |t.waits|);
    }
  }

  /** In every run a process is killed only after a wait that did not end before the last millisecond of
      the 3 s, which begin after the last SIGTERM (TermsFirst). */
  lemma KilledOnlyLate(t: Trace, pids: seq<int>, err: Option<ReapError>, i: nat)
    requires Ran(t, pids, err) && i < |t.waits| && t.waits[i].kill.Some?
    ensures t.started.Some? && t.waits[i].now + t.waits[i].took > t.started.value + 2_999_000_000
  {
    var n := |t.waits| - 1;
    assert RoundRan(t.waits[i], None) || RoundRan(t.waits[i], err) by {
      assert i < n && err.Some? ==> t.waits[..n][i] == t.waits[i];
    }
    assert AsksForAllLeft(t.started.value, t.waits[i]) && KeepsTime(t.waits[i]);
  }

  /** And there is one that comes within a nanosecond of it, so 3 s alone is not a bound. */
  lemma BoundReached() returns (now: seq<nat>, took: seq<nat>)
    ensures Scheduled(0, now, took) && Total(took, |took|) == GRACE + MILLISECOND - 1
  {
    now, took := [0, GRACE - 1], [GRACE - 1, MILLISECOND];
    assert Total(took, 1) == GRACE - 1;
  }

  /** A wait started before the deadline may end after it if and only if less than a millisecond was
      left. */
  lemma OverrunIff(deadline: nat, now: nat)
    requires now < deadline
    ensures (exists took: nat :: Overruns(deadline, now, took)) <==> Remaining(deadline, now) < MILLISECOND
    ensures forall took: nat :: Overruns(deadline, now, took) ==> Remaining(deadline, now) < took <= MILLISECOND
  {
    RoundingUp(Remaining(deadline, now));
    if Remaining(deadline, now) < MILLISECOND {
      assert Overruns(deadline, now, MILLISECOND);
    }
  }

  /** A wait allowed to take so long, started at `now`, ends after the deadline. */
  predicate Overruns(deadline: nat, now: nat, took: nat) {
    took <= Milliseconds(Remaining(deadline, now)) * MILLISECOND && now + took > deadline
  }

  /** When no wait starts in the last millisecond, all waits together keep to 3 s. */
  lemma {:induction false} WaitsKept(started: nat, now: seq<nat>, took: seq<nat>, n: nat)
    requires Scheduled(started, now, took) && n <= |took|
    requires forall i :: 0 <= i < n ==>
               var left := Remaining(started + GRACE, now[i]); left == 0 || left >= MILLISECOND
    ensures Total(took, n) <= GRACE
    ensures n > 0 ==> started + Total(took, n) <= now[n - 1] + took[n - 1]
  {
    if n > 0 {
      WaitsKept(started, now, took, n - 1);
      assert now[n - 1] >= Earliest(started, now, took, n - 1);
      RoundingUp(Remaining(started + GRACE, now[n - 1]));
    }
  }

  /** Waits on nothing, after the deadline, take no time. */
  lemma {:induction false} WithIdleWaits(started: nat, now: seq<nat>, took: seq<nat>, n: nat)
    returns (more: seq<nat>, longer: seq<nat>)
    requires Scheduled(started, now, took) && 0 < |took| <= n
    ensures Scheduled(started, more, longer) && |longer| == n && Total(longer, n) == Total(took, |took|)
    decreases n - |took|
  {
    if |took| == n {
      more, longer := now, took;
    } else {
      var k := |took| - 1;
      var now', took' := now + [now[k] + took[k]], took + [0];
      TotalPrefix(took, 0, |took|);
      ScheduledOn(started, now, took);
      more, longer := WithIdleWaits(started, now', took', n);
    }
  }

  lemma ScheduledOn(started: nat, now: seq<nat>, took: seq<nat>)
    requires Scheduled(started, now, took) && took != []
    ensures var k := |took| - 1; Scheduled(started, now + [now[k] + took[k]], took + [0])
  {
    var k := |took| - 1;
    var now', took' := now + [now[k] + took[k]], took + [0];
    forall i | 0 <= i <= k + 1
      ensures now'[i] >= Earliest(started, now', took', i)
    {
      if i <= k {
        assert Earliest(started, now', took', i) == Earliest(started, now, took, i);
      }
    }
  }

  lemma OneWaitKept(started: nat, now: seq<nat>, took: seq<nat>)
    requires Scheduled(started, now, took) && |took| == 1
    ensures Total(took, 1) <= GRACE
  {
    var left := Remaining(started + GRACE, now[0]);
    assert Earliest(started, now, took, 0) == started;
    RoundingUp(left);
    assert Total(took, 1) == Total(took, 0) + took[0] == took[0];
  }

  lemma {:induction false} TotalPrefix(took: seq<nat>, last: nat, n: nat)
    requires n <= |took|
    ensures Total(took + [last], n) == Total(took, n)
  {
    if n > 0 {
      TotalPrefix(took, last, n - 1);
    }
  }

  /** The waits of a sandbox with `n` processes can pass 3 s if and only if there are at least two. */
  lemma DeadlinePassedIff(started: nat, n: nat)
    ensures (exists now, took :: |took| == n && Scheduled(started, now, took) && Total(took, n) > GRACE) <==> n >= 2
  {
    if n >= 2 {
      var now, took := [started, started + GRACE - 1], [GRACE - 1, MILLISECOND];
      assert Total(took, 1) == GRACE - 1;
      var more, longer := WithIdleWaits(started, now, took, n);
      assert Total(longer, n) > GRACE;
    }
    forall now, took | |took| == n && n < 2 && Scheduled(started, now, took)
      ensures Total(took, n) <= GRACE
    {
      if n == 1 {
        OneWaitKept(started, now, took);
      }
    }
  }

  // ----- The protocol, read off the record -----

  datatype Kind = OnTerm | OnWait | OnKill | OnClose

  function Target(e: Event, kind: Kind): seq<PidFd> {
    match (e, kind)
    case (Term(h, _), OnTerm) => [h]
    case (Wait(h, _, _, _), OnWait) => [h]
    case (Kill(h, _), OnKill) => [h]
    case (Close(h), OnClose) => [h]
    case _ => []
  }

  /** The handles on which calls of one kind were made, in the order of the calls. */
  function Targets(events: seq<Event>, kind: Kind): seq<PidFd> {
    TargetsTo(events, |events|, kind)
  }

  function TargetsTo(events: seq<Event>, n: nat, kind: Kind): seq<PidFd>
    requires n <= |events|
  {
    if n == 0 then [] else TargetsTo(events, n - 1, kind) + Target(events[n - 1], kind)
  }

  /** The handles whose wait reported that the process had not exited. */
  function Survivors(rounds: seq<Round>): seq<PidFd> {
    SurvivorsTo(rounds, |rounds|)
  }

  function SurvivorsTo(rounds: seq<Round>, n: nat): seq<PidFd>
    requires n <= |rounds|
  {
    if n == 0 then []
    else SurvivorsTo(rounds, n - 1) + if rounds[n - 1].waited.StillRunning? then [rounds[n - 1].handle] else []
  }

  lemma {:induction false} TargetsPrefix(a: seq<Event>, b: seq<Event>, n: nat, kind: Kind)
    requires n <= |a|
    ensures TargetsTo(a + b, n, kind) == TargetsTo(a, n, kind)
  {
    if n > 0 {
      TargetsPrefix(a, b, n - 1, kind);
    }
  }

  lemma {:induction false} TargetsSuffix(a: seq<Event>, b: seq<Event>, n: nat, kind: Kind)
    requires n <= |b|
    ensures TargetsTo(a + b, |a| + n, kind) == Targets(a, kind) + TargetsTo(b, n, kind)
  {
    if n == 0 {
      TargetsPrefix(a, b, |a|, kind);
    } else {
      TargetsSuffix(a, b, n - 1, kind);
    }
  }

  lemma TargetsConcat(a: seq<Event>, b: seq<Event>, kind: Kind)
    ensures Targets(a + b, kind) == Targets(a, kind) + Targets(b, kind)
  {
    TargetsSuffix(a, b, |b|, kind);
  }

  lemma {:induction false} OpensHaveNoTargets(events: seq<Event>, n: nat, kind: Kind)
    requires n <= |events| && forall k :: 0 <= k < |events| ==> events[k].Open?
    ensures TargetsTo(events, n, kind) == []
  {
    if n > 0 {
      OpensHaveNoTargets(events, n - 1, kind);
    }
  }

  lemma {:induction false} TargetAdded(events: seq<Event>, hs: seq<PidFd>, n: nat, kind: Kind, own: Kind)
    requires 0 < n <= |events| && n <= |hs|
    requires TargetsTo(events, n - 1, kind) == if kind == own then hs[..n - 1] else []
    requires Target(events[n - 1], kind) == if kind == own then [hs[n - 1]] else []
    ensures TargetsTo(events, n, kind) == if kind == own then hs[..n] else []
  {
    assert hs[..n] == hs[..n - 1] + [hs[n - 1]];
  }

  lemma TermTarget(events: seq<Event>, hs: seq<PidFd>, k: nat, kind: Kind)
    requires TermedInOrder(events, hs) && k < |hs|
    ensures Target(events[k], kind) == if kind == OnTerm then [hs[k]] else []
  {
    assert events[k].Term? && events[k].handle == hs[k];
  }

  lemma {:induction false} TermTargets(events: seq<Event>, hs: seq<PidFd>, n: nat, kind: Kind)
    requires TermedInOrder(events, hs) && n <= |hs|
    ensures TargetsTo(events, n, kind) == if kind == OnTerm then hs[..n] else []
  {
    if n > 0 {
      TermTarget(events, hs, n - 1, kind);
      TermTargets(events, hs, n - 1, kind);
      TargetAdded(events, hs, n, kind, OnTerm);
    }
  }

  lemma {:induction false} CloseTargets(events: seq<Event>, hs: seq<PidFd>, n: nat, kind: Kind)
    requires n <= |events| == |hs| && forall k :: 0 <= k < |hs| ==> events[k] == Close(hs[k])
    ensures TargetsTo(events, n, kind) == if kind == OnClose then hs[..n] else []
  {
    if n > 0 {
      CloseTargets(events, hs, n - 1, kind);
      TargetAdded(events, hs, n, kind, OnClose);
    }
  }

  lemma {:induction false} OneTarget(e: Event, kind: Kind)
    ensures Targets([e], kind) == Target(e, kind)
  {
    assert TargetsTo([e], 0, kind) == [];
  }

  function CallTarget(r: Round, kind: Kind): seq<PidFd> {
    match kind
    case OnWait => [r.handle]
    case OnKill => if r.waited.StillRunning? then [r.handle] else []
    case _ => []
  }

  lemma {:induction false} TwoTargets(e: Event, f: Event, kind: Kind)
    ensures Targets([e, f], kind) == Target(e, kind) + Target(f, kind)
  {
    OneTarget(e, kind);
    OneTarget(f, kind);
    TargetsConcat([e], [f], kind);
    assert [e] + [f] == [e, f];
  }

  lemma {:induction false} CallTargets(r: Round, kind: Kind)
    requires Complete(r)
    ensures Targets(Calls(r), kind) == CallTarget(r, kind)
  {
    var tick, wait := Tick(r.now), Wait(r.handle, r.asked, r.took, r.waited);
    TwoTargets(tick, wait, kind);
    if r.kill.Some? {
      var kill := Kill(r.handle, r.kill.value);
      OneTarget(kill, kind);
      TargetsConcat([tick, wait], [kill], kind);
    } else {
      assert Calls(r) == [tick, wait];
    }
  }

  function RoundTargets(rounds: seq<Round>, hs: seq<PidFd>, n: nat, kind: Kind): seq<PidFd>
    requires n <= |rounds| == |hs|
  {
    match kind
    case OnWait => hs[..n]
    case OnKill => SurvivorsTo(rounds, n)
    case _ => []
  }

  lemma RoundTargetsNext(rounds: seq<Round>, hs: seq<PidFd>, n: nat, kind: Kind)
    requires n < |rounds| == |hs| && rounds[n].handle == hs[n]
    ensures RoundTargets(rounds, hs, n + 1, kind) == RoundTargets(rounds, hs, n, kind) + CallTarget(rounds[n], kind)
  {
    assert hs[..n + 1] == hs[..n] + [hs[n]];
  }

  lemma {:induction false} ThenCalls(events: seq<Event>, r: Round, kind: Kind)
    requires Complete(r)
    ensures Targets(events + Calls(r), kind) == Targets(events, kind) + CallTarget(r, kind)
  {
    TargetsConcat(events, Calls(r), kind);
    CallTargets(r, kind);
  }

  lemma {:induction false} NextRound(rounds: seq<Round>, n: nat, kind: Kind)
    requires n < |rounds| && Complete(rounds[n])
    ensures Targets(FlattenTo(rounds, n + 1), kind) == Targets(FlattenTo(rounds, n), kind) + CallTarget(rounds[n], kind)
  {
    ThenCalls(FlattenTo(rounds, n), rounds[n], kind);
  }

  lemma {:induction false} WaitTargetsNext(rounds: seq<Round>, hs: seq<PidFd>, n: nat, kind: Kind)
    requires n < |rounds| == |hs| && rounds[n].handle == hs[n] && Complete(rounds[n])
    requires Targets(FlattenTo(rounds, n), kind) == RoundTargets(rounds, hs, n, kind)
    ensures Targets(FlattenTo(rounds, n + 1), kind) == RoundTargets(rounds, hs, n + 1, kind)
  {
    NextRound(rounds, n, kind);
    RoundTargetsNext(rounds, hs, n, kind);
  }

  lemma {:induction false} WaitTargets(rounds: seq<Round>, hs: seq<PidFd>, n: nat, kind: Kind)
    requires WaitedInOrder(rounds, hs) && n <= |hs|
    ensures Targets(FlattenTo(rounds, n), kind) == RoundTargets(rounds, hs, n, kind)
  {
    if n > 0 {
      WaitTargets(rounds, hs, n - 1, kind);
      WaitTargetsNext(rounds, hs, n - 1, kind);
    }
  }

  lemma FourTargets(a: seq<Event>, b: seq<Event>, c: seq<Event>, d: seq<Event>, kind: Kind)
    ensures Targets(a + b + c + d, kind) == Targets(a, kind) + Targets(b, kind) + Targets(c, kind) + Targets(d, kind)
  {
    TargetsConcat(a, b, kind);
    TargetsConcat(a + b, c, kind);
    TargetsConcat(a + b + c, d, kind);
  }

  lemma Gathered(a: seq<PidFd>, b: seq<PidFd>, c: seq<PidFd>, d: seq<PidFd>, hs: seq<PidFd>, survivors: seq<PidFd>,
          kind: Kind)
    requires a == [] && b == (if kind == OnTerm then hs else []) && d == (if kind == OnClose then hs else [])
    requires c == if kind == OnWait then hs else if kind == OnKill then survivors else []
    ensures a + b + c + d == if kind == OnKill then survivors else hs
  {
  }

  lemma {:induction false} TickedTargets(started: nat, waits: seq<Round>, kind: Kind)
    ensures Targets(WaitCalls(started, waits), kind) == Targets(Flatten(waits), kind)
  {
    OneTarget(Tick(started), kind);
    TargetsConcat([Tick(started)], Flatten(waits), kind);
  }

  lemma {:induction false} PhaseTargets(opens: seq<Event>, terms: seq<Event>, calls: seq<Event>, waits: seq<Round>,
          hs: seq<PidFd>, kind: Kind)
    requires forall k :: 0 <= k < |opens| ==> opens[k].Open?
    requires TermedInOrder(terms, hs) && WaitedInOrder(waits, hs)
    requires Targets(calls, kind) == Targets(Flatten(waits), kind)
    ensures Targets(opens + terms + calls + Closes(hs), kind) == if kind == OnKill then Survivors(waits) else hs
  {
    FourTargets(opens, terms, calls, Closes(hs), kind);
    OpensHaveNoTargets(opens, |opens|, kind);
    TermTargets(terms, hs, |hs|, kind);
    WaitTargets(waits, hs, |hs|, kind);
    CloseTargets(Closes(hs), hs, |hs|, kind);
    assert hs[..|hs|] == hs;
    Gathered(Targets(opens, kind), Targets(terms, kind), Targets(calls, kind), Targets(Closes(hs), kind), hs,
             Survivors(waits), kind);
  }

  lemma RecordTargets(t: Trace, pids: seq<int>, kind: Kind)
    requires Ran(t, pids, None)
    ensures Targets(Record(t, None), kind) == if kind == OnKill then Survivors(t.waits) else HandlesOf(t.opens)
  {
    TickedTargets(t.started.value, t.waits, kind);
    PhaseTargets(t.opens, t.terms, Waits(t), t.waits, HandlesOf(t.opens), kind);
  }

  /** A complete run terminates, waits for and closes each opened process exactly once, in the order
      they were opened, and kills exactly those that had not exited. */
  lemma EachHandleOnce(t: Trace, pids: seq<int>)
    requires Ran(t, pids, None)
    ensures var hs, log := HandlesOf(t.opens), Record(t, None);
            && Targets(log, OnTerm) == Targets(log, OnWait) == Targets(log, OnClose) == hs
            && Targets(log, OnKill) == Survivors(t.waits)
  {
    RecordTargets(t, pids, OnTerm);
    RecordTargets(t, pids, OnWait);
    RecordTargets(t, pids, OnClose);
    RecordTargets(t, pids, OnKill);
  }

  lemma {:induction false} NoneClosed(events: seq<Event>, n: nat)
    requires n <= |events| && forall k :: 0 <= k < |events| ==> !events[k].Close?
    ensures TargetsTo(events, n, OnClose) == []
  {
    if n > 0 {
      NoneClosed(events, n - 1);
    }
  }

  lemma {:induction false} NoneClosedBefore(t: Trace, pids: seq<int>, err: Option<ReapError>)
    requires Ran(t, pids, err)
    ensures Targets(t.opens, OnClose) == Targets(t.terms, OnClose) == Targets(Waits(t), OnClose) == []
  {
    forall i | 0 <= i < |t.opens| ensures !t.opens[i].Close? {
      OpensOnly(t, pids, err, i);
    }
    forall i | 0 <= i < |t.terms| ensures !t.terms[i].Close? {
      TermKinds(t, HandlesOf(t.opens), err, i);
    }
    forall i | 0 <= i < |Waits(t)| ensures !Waits(t)[i].Close? {
      WaitsOnly(t, i);
    }
    NoneClosed(t.opens, |t.opens|);
    NoneClosed(t.terms, |t.terms|);
    NoneClosed(Waits(t), |Waits(t)|);
  }

  /** On every return after the open loop, with or without an error, exactly the handles that were
      opened are closed, each once and in order; on an earlier return none is. */
  lemma {:induction false} ClosedOnEveryReturn(t: Trace, pids: seq<int>, err: Option<ReapError>)
    requires Ran(t, pids, err)
    ensures Targets(Record(t, err), OnClose) == if Abandons(err) then [] else HandlesOf(t.opens)
  {
    NoneClosedBefore(t, pids, err);
    var closes := if Abandons(err) then [] else Closes(HandlesOf(t.opens));
    assert Targets(closes, OnClose) == (if Abandons(err) then [] else HandlesOf(t.opens)) by {
      if !Abandons(err) {
        ClosesTargets(HandlesOf(t.opens));
      }
    }
    OnlyLast(t.opens, t.terms, Waits(t), closes, OnClose);
  }

  lemma {:induction false} ClosesTargets(hs: seq<PidFd>)
    ensures Targets(Closes(hs), OnClose) == hs
  {
    CloseTargets(Closes(hs), hs, |hs|, OnClose);
    assert hs[..|hs|] == hs;
  }

  lemma {:induction false} OnlyLast(a: seq<Event>, b: seq<Event>, c: seq<Event>, d: seq<Event>, kind: Kind)
    requires Targets(a, kind) == Targets(b, kind) == Targets(c, kind) == []
    ensures Targets(a + b + c + d, kind) == Targets(d, kind)
  {
    FourTargets(a, b, c, d, kind);
  }

  predicate KillsSurvivorAt(events: seq<Event>, i: nat)
    requires i < |events|
  {
    && (events[i].Kill? ==>
          i > 0 && events[i - 1].Wait? && events[i - 1].waited.StillRunning?
                  && events[i - 1].handle == events[i].handle)
    && (events[i].Wait? ==> i > 0 && events[i - 1].Tick?)
    && (events[i].Wait? && events[i].waited.StillRunning? ==>
          i + 1 < |events| && events[i + 1].Kill? && events[i + 1].handle == events[i].handle)
  }

  /** In a complete run a kill follows directly on the wait that reported its process still running,
      and every such wait is followed by its kill; every wait follows directly on a reading of the clock. */
  lemma {:induction false} KillsFollowWaits(rounds: seq<Round>, hs: seq<PidFd>, n: nat, i: nat)
    requires WaitedInOrder(rounds, hs) && n <= |rounds| && i < |FlattenTo(rounds, n)|
    ensures KillsSurvivorAt(FlattenTo(rounds, n), i)
  {
    if i < |FlattenTo(rounds, n - 1)| {
      KillsFollowWaits(rounds, hs, n - 1, i);
    }
  }

  lemma {:induction false} WaitKinds(rounds: seq<Round>, n: nat, i: nat)
    requires n <= |rounds| && i < |FlattenTo(rounds, n)|
    ensures var e := FlattenTo(rounds, n)[i]; e.Tick? || e.Wait? || e.Kill?
  {
    if i < |FlattenTo(rounds, n - 1)| {
      WaitKinds(rounds, n - 1, i);
    }
  }

  lemma WaitsOnly(t: Trace, i: nat)
    requires i < |Waits(t)|
    ensures Waits(t)[i].Tick? || Waits(t)[i].Wait? || Waits(t)[i].Kill?
  {
    if i > 0 {
      WaitKinds(t.waits, |t.waits|, i - 1);
    }
  }

  lemma TermKinds(t: Trace, hs: seq<PidFd>, err: Option<ReapError>, i: nat)
    requires SignalRan(t, hs, err) && i < |t.terms|
    ensures t.terms[i].Term?
  {
    assert i < |t.terms| - 1 ==> t.terms[..|t.terms| - 1][i] == t.terms[i];
  }

  lemma OpensOnly(t: Trace, pids: seq<int>, err: Option<ReapError>, i: nat)
    requires OpenRan(t, pids, err) && i < |t.opens|
    ensures t.opens[i].Open? && i < |pids| && t.opens[i].pid == pids[i]
    ensures t.opens[i].got.OpenFailed? ==> Abandons(err) && i == |t.opens| - 1
  {
    var n := |t.opens| - 1;
    assert i < n ==> t.opens[..n][i] == t.opens[i];
  }

  /** The four phases of a record, whatever error ended it. */
  lemma PhaseAt(t: Trace, pids: seq<int>, err: Option<ReapError>, i: nat)
    requires Ran(t, pids, err) && i < |Record(t, err)|
    ensures var e, a, b := Record(t, err)[i], |t.opens|, |t.opens| + |t.terms|;
            if i < a then e.Open? && e.pid in pids
            else if i < b then e.Term?
            else if i < b + |Waits(t)| then e.Tick? || e.Wait? || e.Kill?
            else e.Close?
  {
    var hs, a, b := HandlesOf(t.opens), |t.opens|, |t.opens| + |t.terms|;
    if i < a {
      OpensOnly(t, pids, err, i);
    } else if i < b {
      TermKinds(t, hs, err, i - a);
    } else if i < b + |Waits(t)| {
      WaitsOnly(t, i - b);
    }
  }

  /** However a run ends, every SIGTERM precedes every wait and every SIGKILL. */
  lemma TermsFirst(t: Trace, pids: seq<int>, err: Option<ReapError>, i: nat, j: nat)
    requires Ran(t, pids, err) && i < |Record(t, err)| && j < |Record(t, err)|
    requires Record(t, err)[i].Term? && (Record(t, err)[j].Wait? || Record(t, err)[j].Kill?)
    ensures i < j
  {
    PhaseAt(t, pids, err, i);
    PhaseAt(t, pids, err, j);
  }

  /** However a run ends, no process is opened that the process table does not match with the sandbox. */
  lemma OnlyMatchedOpened(t: Trace, entries: Option<seq<ProcessEntry>>, id: string, err: Option<ReapError>, i: nat)
    requires Ran(t, Pids(entries, id), err) && i < |Record(t, err)| && Record(t, err)[i].Open?
    ensures entries.Some?
    ensures exists k ::
              0 <= k < |entries.value| && Selected(entries.value[k], id)
                      && entries.value[k].pid.value == Record(t, err)[i].pid
  {
    PhaseAt(t, Pids(entries, id), err, i);
    SelectExactly(entries.value, id, Record(t, err)[i].pid);
  }
}
