/** Recovery after a driver restart rebuilds the reference counts. */
module Recovery {
  import opened Names
  import opened Runtime
  import opened Tasks
  import opened Machine
  import opened References
  import Agreement

  /** RecoverTask for one persisted task, run without interleaving. */
  function RecoverLabels(s: State, t: string): seq<Label>
    requires InfoOf(s, t).persisted.Some?
  {
    var known := InfoOf(s, t).persisted.value.alloc in s.sandboxes;
    [Act(t, Recover(FindRunning)), Act(t, Recover(if known then RecoverKnown else RecoverNew)),
     Act(t, Recover(Watch)), Act(t, Recover(Keep))]
  }

  function Recovered(s: State, t: string): State
    requires InfoOf(s, t).persisted.Some?
  {
    var r := InfoOf(s, t).persisted.value;
    s.(sandboxes := Taken(s.sandboxes, r.alloc), tasks := s.tasks[t := RecoveredInfo(r)], stale := s.stale - {r.alloc})
  }

  /** A task persisted and still running, that no call has touched since the restart. */
  predicate Awaits(s: State, t: string) {
    && t in s.tasks && s.tasks[t].persisted.Some?
    && var r := s.tasks[t].persisted.value;
    && s.tasks[t] == BLANK.(persisted := Some(r))
    && WellFormedRecord(r)
    && r.alloc !in s.touched
    && Up(s.store, r.container)
  }

  function Seen(r: TaskRecord, pc: RecoverPc, handle: Option<Handle>): Info {
    BLANK.(persisted := Some(r), recover := Some(pc), handle := handle)
  }

  lemma RecoverAttaches(f: Faults, s: State, t: string)
    requires Awaits(s, t) && s.lock.Free?
    requires var a := s.tasks[t].persisted.value.alloc; a in s.sandboxes ==> s.sandboxes[a].refs < MAX_REFS
    ensures var r := s.tasks[t].persisted.value;
            Run(f, s, RecoverLabels(s, t)[..2],
                s.(sandboxes := Taken(s.sandboxes, r.alloc), tasks := s.tasks[t := Seen(r, Attached, None)], stale := s.stale - {r.alloc}))
  {
    var r := s.tasks[t].persisted.value;
    var ls := RecoverLabels(s, t);
    var s1 := s.(tasks := s.tasks[t := Seen(r, SeenRunning, None)]);
    assert Enabled(f, s, ls[0]) && Step(f, s, ls[0]) == s1;
    var s2 := s.(sandboxes := Taken(s.sandboxes, r.alloc), tasks := s.tasks[t := Seen(r, Attached, None)], stale := s.stale - {r.alloc});
    assert s1.tasks[t := Seen(r, Attached, None)] == s2.tasks;
    assert Enabled(f, s1, ls[1]) && Step(f, s1, ls[1]) == s2;
    TwoSteps(f, s, ls[0], s1, ls[1], s2);
    assert ls[..2] == [ls[0], ls[1]];
  }

  lemma TwoSteps(f: Faults, s: State, k: Label, s1: State, l: Label, s2: State)
    requires Enabled(f, s, k) && Step(f, s, k) == s1 && Enabled(f, s1, l) && Step(f, s1, l) == s2
    ensures Run(f, s, [k, l], s2)
  {
    assert [k, l][1..] == [l] && [l][1..] == [];
  }

  lemma RecoverKeeps(f: Faults, s: State, t: string, r: TaskRecord)
    requires t in s.tasks && s.tasks[t] == Seen(r, Attached, None)
    ensures Run(f, s, [Act(t, Recover(Watch)), Act(t, Recover(Keep))], s.(tasks := s.tasks[t := RecoveredInfo(r)]))
  {
    var s1 := s.(tasks := s.tasks[t := Seen(r, Watched, Some(NewHandle(r, true)))]);
    var s2 := s.(tasks := s.tasks[t := RecoveredInfo(r)]);
    assert Step(f, s, Act(t, Recover(Watch))) == s1;
    assert s1.tasks[t := RecoveredInfo(r)] == s2.tasks;
    assert Step(f, s1, Act(t, Recover(Keep))) == s2;
    TwoSteps(f, s, Act(t, Recover(Watch)), s1, Act(t, Recover(Keep)), s2);
  }

  /** RecoverTask of a waiting task succeeds, and this is what it does. */
  lemma RecoverOne(f: Faults, s: State, t: string)
    requires Awaits(s, t) && s.lock.Free?
    requires var a := s.tasks[t].persisted.value.alloc; a in s.sandboxes ==> s.sandboxes[a].refs < MAX_REFS
    ensures Run(f, s, RecoverLabels(s, t), Recovered(s, t))
  {
    var r := s.tasks[t].persisted.value;
    var ls := RecoverLabels(s, t);
    var s2 := s.(sandboxes := Taken(s.sandboxes, r.alloc), tasks := s.tasks[t := Seen(r, Attached, None)], stale := s.stale - {r.alloc});
    RecoverAttaches(f, s, t);
    RecoverKeeps(f, s2, t, r);
    assert s2.tasks[t := RecoveredInfo(r)] == s.tasks[t := RecoveredInfo(r)];
    RunAppend(f, s, ls[..2], s2, ls[2..], Recovered(s, t));
    assert ls[..2] + ls[2..] == ls;
  }

  // ----- Any number of tasks, in any order -----

  predicate Distinct(ts: seq<string>) {
    forall j, k :: 0 <= j < k < |ts| ==> ts[j] != ts[k]
  }

  predicate AllAwait(s: State, ts: seq<string>) {
    forall t :: t in ts ==> Awaits(s, t)
  }

  function RecoveredAll(s: State, ts: seq<string>): State
    requires AllAwait(s, ts) && Distinct(ts)
    decreases |ts|
  {
    if ts == [] then s
    else
      assert Awaits(s, ts[0]);
      OthersAwait(s, ts);
      RecoveredAll(Recovered(s, ts[0]), ts[1..])
  }

  lemma OthersAwait(s: State, ts: seq<string>)
    requires AllAwait(s, ts) && Distinct(ts) && ts != []
    ensures Awaits(s, ts[0]) && AllAwait(Recovered(s, ts[0]), ts[1..]) && Distinct(ts[1..])
  {
    assert ts[0] in ts;
    assert Awaits(s, ts[0]);
    forall t | t in ts[1..]
      ensures Awaits(Recovered(s, ts[0]), t)
    {
      assert Awaits(s, t);
    }
  }

  /** How many of these tasks belong to the allocation. */
  function BelongingTo(tasks: map<string, Info>, ts: seq<string>, alloc: string): nat {
    if ts == [] then 0
    else
      (if ts[0] in tasks && tasks[ts[0]].persisted.Some? && tasks[ts[0]].persisted.value.alloc == alloc then 1 else 0)
      + BelongingTo(tasks, ts[1..], alloc)
  }

  lemma {:induction false} BelongingKept(tasks: map<string, Info>, ts: seq<string>, t: string, i: Info, alloc: string)
    requires t !in ts
    ensures BelongingTo(tasks[t := i], ts, alloc) == BelongingTo(tasks, ts, alloc)
  {
    if ts != [] {
      BelongingKept(tasks, ts[1..], t, i, alloc);
    }
  }

  function RefsIn(m: SandboxMap, alloc: string): int {
    if alloc in m then m[alloc].refs else 0
  }

  predicate RoomFor(m: SandboxMap, n: nat) {
    n < MAX_REFS && forall a :: a in m ==> 0 < m[a].refs && m[a].refs + n < MAX_REFS
  }

  lemma {:induction false} RecoverAllRuns(f: Faults, s: State, ts: seq<string>) returns (ls: seq<Label>)
    requires AllAwait(s, ts) && Distinct(ts) && s.lock.Free? && RoomFor(s.sandboxes, |ts|)
    ensures Run(f, s, ls, RecoveredAll(s, ts))
    decreases |ts|
  {
    if ts == [] {
      ls := [];
    } else {
      OthersAwait(s, ts);
      RecoverOne(f, s, ts[0]);
      var ms := RecoverAllRuns(f, Recovered(s, ts[0]), ts[1..]);
      RunAppend(f, s, RecoverLabels(s, ts[0]), Recovered(s, ts[0]), ms, RecoveredAll(s, ts));
      ls := RecoverLabels(s, ts[0]) + ms;
    }
  }

  /** Every count recovery leaves is the earlier one plus the number of tasks recovered. */
  lemma {:induction false} RebuiltCount(s: State, ts: seq<string>, alloc: string)
    requires AllAwait(s, ts) && Distinct(ts)
    requires alloc in s.sandboxes ==> s.sandboxes[alloc].id == SandboxOf(alloc)
    ensures var m := RecoveredAll(s, ts).sandboxes;
            && (alloc in m ==> m[alloc].id == SandboxOf(alloc))
            && RefsIn(m, alloc) == RefsIn(s.sandboxes, alloc) + BelongingTo(s.tasks, ts, alloc)
            && (alloc in m <==> alloc in s.sandboxes || BelongingTo(s.tasks, ts, alloc) > 0)
    decreases |ts|
  {
    if ts != [] {
      OthersAwait(s, ts);
      assert ts[0] !in ts[1..];
      BelongingKept(s.tasks, ts[1..], ts[0], RecoveredInfo(s.tasks[ts[0]].persisted.value), alloc);
      RebuiltCount(Recovered(s, ts[0]), ts[1..], alloc);
    }
  }

  /** The tasks that Nomad would recover after a crash in state `s`. */
  predicate StillRunning(s: State, t: string) {
    t in s.tasks && s.tasks[t].persisted.Some? && Up(s.store, s.tasks[t].persisted.value.container)
  }

  lemma AwaitAfterCrash(s: State, ts: seq<string>)
    requires AllOk(s) && (forall t :: t in ts ==> StillRunning(s, t))
    ensures AllAwait(CrashStep(s), ts)
  {
    forall t | t in ts
      ensures Awaits(CrashStep(s), t)
    {
      assert StillRunning(s, t) && Ok(s.tasks[t]);
    }
  }

  lemma BelongingAfterCrash(s: State, ts: seq<string>, alloc: string)
    ensures BelongingTo(CrashStep(s).tasks, ts, alloc) == BelongingTo(s.tasks, ts, alloc)
  {
  }

  /** Crash in any reachable state, then recover any of the tasks still running, in any order: each
      of these calls succeeds, and for each allocation the map is left with the sandbox ID it had
      and a count equal to the number of its tasks recovered, and with no other allocation. */
  lemma RecoveryRebuilds(f: Faults, ls: seq<Label>, s: State, ts: seq<string>) returns (ms: seq<Label>, s': State)
    requires Run(f, INIT, ls, s)
    requires Distinct(ts) && |ts| < MAX_REFS && forall t :: t in ts ==> StillRunning(s, t)
    ensures Run(f, s, [Crash] + ms, s')
    ensures forall a :: a in s'.sandboxes <==> BelongingTo(s.tasks, ts, a) > 0
    ensures forall a :: a in s'.sandboxes ==> s'.sandboxes[a] == Entry(SandboxOf(a), BelongingTo(s.tasks, ts, a))
  {
    AllOkRun(f, INIT, ls, s);
    AwaitAfterCrash(s, ts);
    var s1 := CrashStep(s);
    ms := RecoverAllRuns(f, s1, ts);
    s' := RecoveredAll(s1, ts);
    assert ([Crash] + ms)[1..] == ms;
    forall a
      ensures a in s'.sandboxes <==> BelongingTo(s.tasks, ts, a) > 0
      ensures a in s'.sandboxes ==> s'.sandboxes[a] == Entry(SandboxOf(a), BelongingTo(s.tasks, ts, a))
    {
      RebuiltCount(s1, ts, a);
      BelongingAfterCrash(s, ts, a);
    }
  }

  /** What becomes of a recovered sandbox: in any run that boots and adopts nothing more for the
      allocation, in whatever order and interleaving its tasks are destroyed, by the time nobody
      holds it the sandbox has been torn down exactly once; for the last clause no start of the
      allocation may have failed to encode its state. */
  lemma TornDownOnce(f: Faults, ls: seq<Label>, s: State, ms: seq<Label>, s': State, alloc: string)
    requires Run(f, INIT, ls, s) && Agreement.Booted(s, alloc)
    requires Run(f, s, ms, s') && Crash !in ms && Encodes(f, INIT, ls + ms, alloc)
    requires Agreement.Count(f, s, ms, alloc, Agreement.Boots) == 0
            && Agreement.Count(f, s, ms, alloc, Agreement.Adopts) == 0
    ensures Agreement.Count(f, s, ms, alloc, Agreement.TearsDown)
            == if Agreement.Booted(s', alloc) then 0 else 1
    ensures s'.lock.Free? ==> (Agreement.Booted(s', alloc) <==> Holders(s'.tasks, alloc) != {})
  {
    Agreement.AgreesInitially();
    Agreement.AgreesRun(f, INIT, ls, s);
    Agreement.TeardownsBalance(f, s, ms, s', alloc);
    RunAppend(f, INIT, ls, s, ms, s');
    RefsRun(f, INIT, ls + ms, s', alloc);
  }
}
