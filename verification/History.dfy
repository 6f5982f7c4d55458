/** A ghost record of the steps that imperative code takes, kept as a run of the state machine. */
module History {
  import opened Names
  import opened Runtime
  import opened Tasks
  import opened Machine

  lemma Twice(m: map<string, Info>, t: string, i: Info, j: Info)
    ensures m[t := i][t := j] == m[t := j]
  {
  }

  class Journal {
    ghost const faults: Faults
    ghost var state: State
    ghost var trace: seq<Label>

    ghost constructor (faults: Faults)
      ensures this.faults == faults && state == INIT && Valid()
    {
      this.faults := faults;
      state, trace := INIT, [];
    }

    /** The state is reachable, by these steps. */
    ghost predicate Valid()
      reads this
    {
      Run(faults, INIT, trace, state)
    }

    ghost function Entry(t: string): Info
      reads this
    {
      InfoOf(state, t)
    }

    /** Record one step; it must be possible in the machine at this point. */
    ghost method Take(t: string, a: Act)
      requires Valid() && ActEnabled(faults, state, t, a)
      modifies this
      ensures Valid() && trace == old(trace) + [Machine.Act(t, a)]
      ensures var r := Subject(old(Entry(t)), a);
              && state.store == StoreAfter(old(state.store), r, a)
              && state.markers == MarkersAfter(old(state.markers), r, a)
              && state.lock == LockAfter(old(state.lock), t, r, a)
              && state.sandboxes == SandboxesAfter(old(state.sandboxes), r, a)
              && state.tasks == old(state.tasks)[t := After(old(Entry(t)), a)]
              && Entry(t) == After(old(Entry(t)), a)
              && (After(old(Entry(t)), a) == old(Entry(t)) && t in old(state.tasks) ==> state.tasks == old(state.tasks))
    {
      RunSnoc(faults, INIT, trace, state, Machine.Act(t, a));
      trace := trace + [Machine.Act(t, a)];
      state := Step(faults, state, Machine.Act(t, a));
    }

    /** A step of the goroutine of `t`. */
    ghost method TakeMonitor(t: string, a: MonitorAct)
      requires Valid() && CanMonitor(Entry(t), a) && MonitorPermitted(faults, state, Entry(t).handle.value.task, a)
      modifies this
      ensures Valid() && state.lock == old(state.lock) && state.sandboxes == old(state.sandboxes)
      ensures state.store == StoreAfter(old(state.store), old(Entry(t).handle.value.task), Monitor(a))
      ensures state.markers == MarkersAfter(old(state.markers), old(Entry(t).handle.value.task), Monitor(a))
      ensures state.tasks == old(state.tasks)[t := AfterMonitor(old(Entry(t)), a)]
    {
      Take(t, Monitor(a));
    }

    lemma EntryOk(t: string)
      requires Valid()
      ensures Ok(Entry(t))
    {
      AllOkRun(faults, INIT, trace, state);
    }

    /** The task of a container exits. */
    ghost method TakeExit(c: Cid)
      requires Valid() && c.TaskOf?
      modifies this
      ensures Valid() && state == old(state).(store := Halt(old(state.store), c))
    {
      RunSnoc(faults, INIT, trace, state, TaskExits(c));
      trace := trace + [TaskExits(c)];
      state := state.(store := Halt(state.store, c));
    }

    /** The driver process crashes and restarts. */
    ghost method TakeCrash()
      requires Valid()
      modifies this
      ensures Valid() && state == CrashStep(old(state))
    {
      RunSnoc(faults, INIT, trace, state, Crash);
      trace := trace + [Crash];
      state := CrashStep(state);
    }
  }
}
