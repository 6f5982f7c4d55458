/** What one task's calls can take away from other tasks and other allocations. */
module Isolation {
  import opened Names
  import opened Runtime
  import opened Tasks
  import opened Machine
  import opened References
  import Agreement
  import FalsePoisoning
  import Poison

  /** The task on whose behalf a step is taken, if any. */
  predicate ActsFor(s: State, l: Label, c: Cid) {
    l.Act? && Can(InfoOf(s, l.tid), l.act) && Subject(InfoOf(s, l.tid), l.act).container == c
  }

  /** A step that ends the VM of an allocation: its teardown, its death cleanup, or its own death. */
  predicate EndsVm(s: State, l: Label, alloc: string) {
    || l == VmDies(alloc)
    || (l.Act? && Can(InfoOf(s, l.tid), l.act) && Subject(InfoOf(s, l.tid), l.act).alloc == alloc
        && FalsePoisoning.StopsVm(l.act))
  }

  /** A task's container is removed only by a call for that very task, in every run; and a running
      task stops only by a call for it, by itself, or with its VM. */
  lemma OnlyOwnTask(f: Faults, s: State, l: Label, c: Cid)
    requires AllOk(s) && Enabled(f, s, l) && c.TaskOf?
    ensures c in s.store.containers && c !in Step(f, s, l).store.containers ==> ActsFor(s, l, c)
    ensures c in s.store.running && c !in Step(f, s, l).store.running
            ==> ActsFor(s, l, c) || l == TaskExits(c) || EndsVm(s, l, c.alloc)
  {
    if l.Act? {
      SubjectWellFormed(InfoOf(s, l.tid), l.act);
      TaskRemovedBy(s.store, Subject(InfoOf(s, l.tid), l.act), l.act, c);
    }
  }

  lemma TaskRemovedBy(st: Store, r: TaskRecord, a: Act, c: Cid)
    requires WellFormedRecord(r) && c.TaskOf?
    ensures c in st.containers && c !in StoreAfter(st, r, a).containers ==> r.container == c
    ensures c in st.running && c !in StoreAfter(st, r, a).running
            ==> r.container == c || (FalsePoisoning.StopsVm(a) && r.alloc == c.alloc)
  {
    match a
    case Start(b) =>
    case Create(b) =>
    case Monitor(b) =>
    case Destroy(b) =>
    case Release(d, b) =>
    case _ =>
  }

  predicate SandboxKept(st: Store, st': Store, alloc: string) {
    var c := SandboxOf(alloc);
    && (c in st.containers ==> c in st'.containers)
    && (c in st.metadata ==> c in st'.metadata)
    && (c in st.running ==> c in st'.running)
  }

  predicate LockedFor(lock: Lock, alloc: string) {
    CreatingOf(lock, alloc) || TearingOf(lock, alloc)
  }

  /** Only creation, teardown and death cleanup of its own allocation touch what a sandbox has. */
  lemma SandboxRemovedBy(f: Faults, s: State, t: string, r: TaskRecord, a: Act, alloc: string)
    requires WellFormedRecord(r) && Permitted(f, s, t, r, a)
    ensures !SandboxKept(s.store, StoreAfter(s.store, r, a), alloc)
            ==> r.alloc == alloc && (Agreement.SweepingAct(a) || LockedFor(s.lock, alloc))
  {
    match a
    case Start(b) =>
    case Create(b) =>
    case Monitor(b) =>
    case Destroy(b) =>
    case Release(d, b) =>
    case _ =>
  }

  /** No step of the driver takes anything of a sandbox away while someone holds a reference on it,
      unless the allocation is already marked dead or a start of it could not encode its state. */
  lemma SandboxOutlivesHolders(f: Faults, ls: seq<Label>, s: State, t: string, a: Act, alloc: string)
    requires Run(f, INIT, ls, s) && Encodes(f, INIT, ls, alloc) && ActEnabled(f, s, t, a)
    ensures SandboxKept(s.store, ActStep(f, s, t, a).store, alloc) || Holders(s.tasks, alloc) == {}
            || alloc in s.markers
  {
    RefsRun(f, INIT, ls, s, alloc);
    Poison.MarkersFirstRun(f, INIT, ls, s);
    var i := InfoOf(s, t);
    SubjectWellFormed(i, a);
    SandboxRemovedBy(f, s, t, Subject(i, a), a, alloc);
    Agreement.SweeperMarked(i, a, s.markers);
  }

  // ----- The printed IDs -----

  predicate Sized(c: Cid, n: nat) {
    |c.alloc| == n && ValidCid(c)
  }

  predicate SizedRecord(r: TaskRecord, n: nat) {
    |r.alloc| == n
  }

  predicate SizedInfo(i: Info, n: nat) {
    && (i.start.Some? ==> SizedRecord(i.start.value.task, n))
    && (i.handle.Some? ==> SizedRecord(i.handle.value.task, n))
    && (i.persisted.Some? ==> SizedRecord(i.persisted.value, n))
  }

  predicate SizedStore(st: Store, n: nat) {
    forall c :: c in st.containers + st.metadata + st.running ==> Sized(c, n)
  }

  predicate SizedState(s: State, n: nat) {
    (forall t :: t in s.tasks ==> SizedInfo(s.tasks[t], n)) && SizedStore(s.store, n)
  }

  /** Every StartTask of the run names an allocation by an ID of length `n`. */
  predicate SizedRun(ls: seq<Label>, n: nat) {
    forall l :: l in ls && l.Act? && l.act.Start? && l.act.start.Begin? ==> SizedRecord(l.act.start.task, n)
  }

  lemma SizedAfter(i: Info, a: Act, n: nat)
    requires Ok(i) && SizedInfo(i, n) && Can(i, a) && (a.Start? && a.start.Begin? ==> SizedRecord(a.start.task, n))
    ensures SizedInfo(After(i, a), n)
    ensures !(a.Start? && a.start.Refuse?) ==> SizedRecord(Subject(i, a), n)
  {
    match a
    case Start(b) =>
    case Monitor(b) => Agreement.TouchingMonitor(i, b);
    case Create(b) =>
    case Destroy(b) =>
    case Release(c, b) =>
    case Recover(b) =>
  }

  lemma SizedStoreAfter(st: Store, r: TaskRecord, a: Act, n: nat)
    requires SizedStore(st, n) && WellFormedRecord(r) && SizedRecord(r, n)
    ensures SizedStore(StoreAfter(st, r, a), n)
  {
    assert Sized(r.container, n) && Sized(r.sandbox, n);
    match a
    case Start(b) =>
    case Create(b) =>
    case Monitor(b) =>
    case Destroy(b) =>
    case Release(d, b) =>
    case _ =>
  }

  lemma SizedStep(f: Faults, s: State, l: Label, n: nat)
    requires AllOk(s) && SizedState(s, n) && Enabled(f, s, l) && SizedRun([l], n)
    ensures SizedState(Step(f, s, l), n)
  {
    if l.Act? {
      assert l in [l];
      SizedAfter(InfoOf(s, l.tid), l.act, n);
      SubjectWellFormed(InfoOf(s, l.tid), l.act);
      if !(l.act.Start? && l.act.start.Refuse?) {
        SizedStoreAfter(s.store, Subject(InfoOf(s, l.tid), l.act), l.act, n);
      }
    }
  }

  lemma {:induction false} SizedRunState(f: Faults, s: State, ls: seq<Label>, s': State, n: nat)
    requires AllOk(s) && SizedState(s, n) && Run(f, s, ls, s') && SizedRun(ls, n)
    ensures SizedState(s', n)
    decreases |ls|
  {
    if ls != [] {
      assert SizedRun([ls[0]], n);
      assert SizedRun(ls[1..], n);
      AllOkStep(f, s, ls[0]);
      SizedStep(f, s, ls[0], n);
      SizedRunState(f, Step(f, s, ls[0]), ls[1..], s', n);
    }
  }

  function Printed(ids: set<Cid>): set<string> {
    set c | c in ids :: Render(c)
  }

  lemma PrintedFaithful(ids: set<Cid>, c: Cid, n: nat)
    requires (forall d :: d in ids ==> Sized(d, n)) && Sized(c, n)
    ensures Render(c) in Printed(ids) <==> c in ids
    ensures Printed(ids + {c}) == Printed(ids) + {Render(c)}
    ensures Printed(ids - {c}) == Printed(ids) - {Render(c)}
  {
    forall d | d in ids
      ensures Render(d) == Render(c) <==> d == c
    {
      RenderInjective(d, c);
    }
  }

  /** What the printed ID of every container of an allocation begins with. */
  function AllocPrefix(alloc: string): string {
    "kata-" + alloc + "-"
  }

  lemma PrefixTellsAlloc(c: Cid, alloc: string)
    requires |c.alloc| == |alloc|
    ensures AllocPrefix(alloc) <= Render(c) <==> c.alloc == alloc
  {
    var n := if c.TaskOf? then c.name else "sandbox";
    assert "-sandbox" == "-" + "sandbox";
    assert Render(c) == AllocPrefix(c.alloc) + n;
    assert AllocPrefix(alloc)[5..5 + |alloc|] == alloc;
    assert Render(c)[5..5 + |alloc|] == c.alloc;
  }

  /** Stopping a container, on printed IDs: a sandbox takes everything of its allocation along. */
  function PrintedHalt(ids: set<string>, c: Cid): set<string> {
    if c.TaskOf? then ids - {Render(c)} else set x | x in ids && !(AllocPrefix(c.alloc) <= x)
  }

  lemma PrintedHaltFaithful(st: Store, c: Cid, n: nat)
    requires SizedStore(st, n) && Sized(c, n)
    ensures Printed(Halt(st, c).running) == PrintedHalt(Printed(st.running), c)
  {
    forall d | d in st.running
      ensures (Render(d) == Render(c) <==> d == c) && (AllocPrefix(c.alloc) <= Render(d) <==> d.alloc == c.alloc)
    {
      assert d in st.containers + st.metadata + st.running;
      RenderInjective(d, c);
      PrefixTellsAlloc(d, c.alloc);
    }
  }

  /** In a run whose allocation IDs all have one length, containerd's containers, metadata and running
      tasks under printed IDs behave exactly as under the unprinted ones: looking one up, adding,
      deleting, starting and stopping one commute with printing. */
  lemma PrintedStoreFaithful(f: Faults, ls: seq<Label>, s: State, n: nat, c: Cid)
    requires Run(f, INIT, ls, s) && SizedRun(ls, n) && Sized(c, n)
    ensures Render(c) in Printed(s.store.containers) <==> c in s.store.containers
    ensures Printed(AddContainer(s.store, c).containers) == Printed(s.store.containers) + {Render(c)}
    ensures Printed(DeleteContainer(s.store, c).containers) == Printed(s.store.containers) - {Render(c)}
    ensures Render(c) in Printed(s.store.metadata) <==> c in s.store.metadata
    ensures Printed(AddMetadata(s.store, c).metadata) == Printed(s.store.metadata) + {Render(c)}
    ensures Printed(DeleteMetadata(s.store, c).metadata) == Printed(s.store.metadata) - {Render(c)}
    ensures Render(c) in Printed(s.store.running) <==> c in s.store.running
    ensures Printed(Boot(s.store, c).running) == Printed(s.store.running) + {Render(c)}
    ensures Printed(Halt(s.store, c).running) == PrintedHalt(Printed(s.store.running), c)
  {
    SizedRunState(f, INIT, ls, s, n);
    PrintedFaithful(s.store.containers, c, n);
    PrintedFaithful(s.store.metadata, c, n);
    PrintedFaithful(s.store.running, c, n);
    PrintedHaltFaithful(s.store, c, n);
  }
}
