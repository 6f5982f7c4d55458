/** Reference counts equal live holders at every step of every run. */
module References {
  import opened Names
  import opened Runtime
  import opened Tasks
  import opened Machine

  /** Does this task hold a reference on the allocation's sandbox? A StartTask call does from
      GetOrCreate until its handle is stored or its reference released, a RecoverTask call from
      Recover until its handle is stored, and a stored handle until DestroyTask releases it. */
  predicate HoldsFor(i: Info, alloc: string) {
    || (i.start.Some? && i.start.value.task.alloc == alloc && HoldingPc(i.start.value.pc))
    || (i.recover.Some? && i.persisted.Some? && i.persisted.value.alloc == alloc && !i.recover.value.SeenRunning?)
    || (i.stored && i.handle.Some? && i.handle.value.task.alloc == alloc && !(i.destroy.Some? && PastRelease(i.destroy.value)))
  }

  predicate HoldingPc(pc: StartPc) {
    pc.Acquired? || pc.Made? || pc.Launched? || pc.Failing?
  }

  predicate PastRelease(pc: DestroyPc) {
    pc.TearingDown? || pc.Released? || pc.DirRemoved?
  }

  function Holders(tasks: map<string, Info>, alloc: string): set<string> {
    set t | t in tasks && HoldsFor(tasks[t], alloc)
  }

  /** What mutex and map say about an allocation with `n` holders. While the last reference is being
      torn down under the mutex the entry is still in the map, with count zero. */
  predicate Counted(lock: Lock, sandboxes: SandboxMap, alloc: string, n: nat) {
    if alloc in sandboxes then
      && sandboxes[alloc] == Entry(SandboxOf(alloc), n)
      && (n == 0 <==> TearingOf(lock, alloc))
      && !CreatingOf(lock, alloc)
    else
      n == 0 && !TearingOf(lock, alloc)
  }

  predicate RefsAt(lock: Lock, sandboxes: SandboxMap, tasks: map<string, Info>, alloc: string) {
    Counted(lock, sandboxes, alloc, |Holders(tasks, alloc)|)
  }

  /** A start fails before its goroutine is launched, as long as the driver state can be encoded. */
  predicate FailsEarly(i: Info) {
    i.start.Some? && (i.start.value.pc.Failing? || i.start.value.pc.InTearDown?) ==> i.handle.None? && !i.stored
  }

  predicate EarlyFor(i: Info, alloc: string) {
    i.start.Some? && i.start.value.task.alloc == alloc ==> FailsEarly(i)
  }

  ghost predicate RefsOk(s: State, alloc: string) {
    (forall t :: t in s.tasks ==> EarlyFor(s.tasks[t], alloc)) && RefsAt(s.lock, s.sandboxes, s.tasks, alloc)
  }

  /** A start of the allocation fails because the driver state cannot be encoded. */
  predicate EncodeFailsAt(s: State, l: Label, alloc: string) {
    && l.Act? && l.act == Start(EncodeFails) && Can(InfoOf(s, l.tid), l.act)
    && Subject(InfoOf(s, l.tid), l.act).alloc == alloc
  }

  /** Along the run no start of the allocation has failed to encode since the last restart. */
  predicate Encodes(f: Faults, s: State, ls: seq<Label>, alloc: string)
    decreases |ls|
  {
    ls != [] && Enabled(f, s, ls[0]) ==>
      (EncodeFailsAt(s, ls[0], alloc) ==> Crash in ls[1..]) && Encodes(f, Step(f, s, ls[0]), ls[1..], alloc)
  }

  lemma {:induction false} AlwaysEncodes(f: Faults, s: State, ls: seq<Label>, alloc: string)
    requires !f.encodeFails
    ensures Encodes(f, s, ls, alloc)
    decreases |ls|
  {
    if ls != [] && Enabled(f, s, ls[0]) {
      AlwaysEncodes(f, Step(f, s, ls[0]), ls[1..], alloc);
    }
  }

  // ----- One entry -----

  predicate Acquires(a: Act) {
    a == Start(Reuse) || a == Create(Publish) || a == Recover(RecoverNew) || a == Recover(RecoverKnown)
  }

  predicate Drops(a: Act) {
    a.Release? && (a.release.NothingHeld? || a.release.KeepSandbox? || a.release.LastReference?)
  }

  lemma HoldingByStart(i: Info, a: StartAct, alloc: string)
    requires Ok(i) && FailsEarly(i) && CanStart(i, a)
    ensures !a.EncodeFails? ==> FailsEarly(AfterStart(i, a))
    ensures if a.Reuse? then !HoldsFor(i, alloc) && (HoldsFor(AfterStart(i, a), alloc) <==> alloc == i.start.value.task.alloc)
            else if a.EncodeFails? then HoldsFor(AfterStart(i, a), alloc) <==> alloc == i.start.value.task.alloc
            else HoldsFor(AfterStart(i, a), alloc) == HoldsFor(i, alloc)
  {
  }

  lemma HoldingByCreate(i: Info, a: CreateAct, alloc: string)
    requires Ok(i) && FailsEarly(i) && StartAt(i, InCreate)
    ensures FailsEarly(AfterCreate(i, a)) && !HoldsFor(i, alloc)
    ensures HoldsFor(AfterCreate(i, a), alloc) <==> a.Publish? && alloc == i.start.value.task.alloc
  {
  }

  lemma HoldingByMonitor(i: Info, a: MonitorAct, alloc: string)
    requires Ok(i) && FailsEarly(i) && CanMonitor(i, a)
    ensures FailsEarly(AfterMonitor(i, a)) && HoldsFor(AfterMonitor(i, a), alloc) == HoldsFor(i, alloc)
  {
  }

  lemma HoldingByDestroy(i: Info, a: DestroyAct, alloc: string)
    requires Ok(i) && FailsEarly(i) && CanDestroy(i, a)
    ensures FailsEarly(AfterDestroy(i, a)) && HoldsFor(AfterDestroy(i, a), alloc) == HoldsFor(i, alloc)
  {
  }

  lemma HoldingByRelease(i: Info, c: Caller, a: ReleaseAct, alloc: string)
    requires Ok(i) && FailsEarly(i) && CanRelease(i, c, a)
    ensures FailsEarly(AfterRelease(i, c, a)) && !HoldsFor(AfterRelease(i, c, a), alloc)
    ensures HoldsFor(i, alloc) <==> Drops(Release(c, a)) && alloc == Subject(i, Release(c, a)).alloc
  {
  }

  lemma HoldingByRecover(i: Info, a: RecoverAct, alloc: string)
    requires Ok(i) && FailsEarly(i) && CanRecover(i, a)
    ensures FailsEarly(AfterRecover(i, a))
    ensures if a.RecoverNew? || a.RecoverKnown? then
              !HoldsFor(i, alloc) && (HoldsFor(AfterRecover(i, a), alloc) <==> alloc == i.persisted.value.alloc)
            else HoldsFor(AfterRecover(i, a), alloc) == HoldsFor(i, alloc)
  {
  }

  /** How an action of a task changes what that task holds. A failed encoding is the one that makes
      the call a holder although its handle is stored, or has even been destroyed already. */
  lemma Holding(i: Info, a: Act, alloc: string)
    requires Ok(i) && FailsEarly(i) && Can(i, a)
    ensures a != Start(EncodeFails) ==> FailsEarly(After(i, a))
    ensures Acquires(a) ==> !HoldsFor(i, alloc) && (HoldsFor(After(i, a), alloc) <==> alloc == Subject(i, a).alloc)
    ensures Drops(a) ==> !HoldsFor(After(i, a), alloc) && (HoldsFor(i, alloc) <==> alloc == Subject(i, a).alloc)
    ensures a == Start(EncodeFails) ==> (HoldsFor(After(i, a), alloc) <==> alloc == Subject(i, a).alloc)
    ensures !Acquires(a) && !Drops(a) && a != Start(EncodeFails) ==> HoldsFor(After(i, a), alloc) == HoldsFor(i, alloc)
  {
    match a
    case Start(b) => HoldingByStart(i, b, alloc);
    case Create(b) => HoldingByCreate(i, b, alloc);
    case Monitor(b) => HoldingByMonitor(i, b, alloc);
    case Destroy(b) => HoldingByDestroy(i, b, alloc);
    case Release(c, b) => HoldingByRelease(i, c, b, alloc);
    case Recover(b) => HoldingByRecover(i, b, alloc);
  }

  lemma HoldsOwnOnly(i: Info, own: string, alloc: string)
    requires Belongs(i, own) && alloc != own
    ensures !HoldsFor(i, alloc)
  {
  }

  /** An action for another allocation has nothing to do with this one's references. */
  lemma HoldingElsewhere(i: Info, a: Act, alloc: string)
    requires Ok(i) && Can(i, a) && alloc != Subject(i, a).alloc
    ensures !HoldsFor(i, alloc) && !HoldsFor(After(i, a), alloc) && EarlyFor(After(i, a), alloc)
  {
    var own := Subject(i, a).alloc;
    BelongsToSubject(i, a);
    HoldsOwnOnly(i, own, alloc);
    if a != Start(Refuse(Subject(i, a))) {
      StillBelongs(i, a);
    }
    HoldsOwnOnly(After(i, a), own, alloc);
  }

  lemma HoldersUpdate(tasks: map<string, Info>, t: string, j: Info, alloc: string)
    ensures Holders(tasks[t := j], alloc)
            == if HoldsFor(j, alloc) then Holders(tasks, alloc) + {t} else Holders(tasks, alloc) - {t}
    ensures t in Holders(tasks, alloc) <==> t in tasks && HoldsFor(tasks[t], alloc)
  {
  }

  // ----- One step -----

  /** The mutex moves only for the allocation it is about, so an action leaves the others alone. */
  lemma LockFrame(f: Faults, s: State, t: string, a: Act, alloc: string)
    requires ActEnabled(f, s, t, a) && alloc != Subject(InfoOf(s, t), a).alloc
    ensures var lock' := LockAfter(s.lock, t, Subject(InfoOf(s, t), a), a);
            && TearingOf(lock', alloc) == TearingOf(s.lock, alloc)
            && (lock'.Creating? && lock'.alloc == alloc ==> s.lock.Creating? && s.lock.alloc == alloc)
  {
  }

  lemma SandboxesFrame(sandboxes: SandboxMap, r: TaskRecord, a: Act, alloc: string)
    requires alloc != r.alloc
    ensures var m := SandboxesAfter(sandboxes, r, a);
            && (alloc in m <==> alloc in sandboxes)
            && (alloc in m ==> m[alloc] == sandboxes[alloc])
  {
  }

  lemma RefsElsewhere(f: Faults, s: State, t: string, a: Act, alloc: string)
    requires ActEnabled(f, s, t, a) && alloc != Subject(InfoOf(s, t), a).alloc
    requires RefsAt(s.lock, s.sandboxes, s.tasks, alloc)
    requires Holders(s.tasks[t := After(InfoOf(s, t), a)], alloc) == Holders(s.tasks, alloc)
    ensures var r := Subject(InfoOf(s, t), a);
            RefsAt(LockAfter(s.lock, t, r, a), SandboxesAfter(s.sandboxes, r, a), s.tasks[t := After(InfoOf(s, t), a)], alloc)
  {
    LockFrame(f, s, t, a, alloc);
    SandboxesFrame(s.sandboxes, Subject(InfoOf(s, t), a), a, alloc);
  }

  function CountAfter(a: Act, n: nat): int {
    if Acquires(a) then n + 1 else if Drops(a) then n - 1 else n
  }

  /** The count of the action's own allocation: plus one, minus one, or unchanged, with the holders. */
  lemma CountedHere(f: Faults, s: State, t: string, r: TaskRecord, a: Act, n: nat)
    requires Permitted(f, s, t, r, a) && WellFormedRecord(r)
    requires Counted(s.lock, s.sandboxes, r.alloc, n) && CountAfter(a, n) >= 0
    ensures Counted(LockAfter(s.lock, t, r, a), SandboxesAfter(s.sandboxes, r, a), r.alloc, CountAfter(a, n))
  {
    match a
    case Release(c, b) => CountedByRelease(s, t, r, c, b, n);
    case _ =>
  }

  lemma CountedByRelease(s: State, t: string, r: TaskRecord, c: Caller, a: ReleaseAct, n: nat)
    requires ReleasePermitted(s, t, r, c, a)
    requires Counted(s.lock, s.sandboxes, r.alloc, n) && CountAfter(Release(c, a), n) >= 0
    ensures Counted(LockAfter(s.lock, t, r, Release(c, a)), SandboxesAfter(s.sandboxes, r, Release(c, a)),
                    r.alloc, CountAfter(Release(c, a), n))
  {
  }

  lemma RefsActAt(f: Faults, s: State, t: string, a: Act, alloc: string)
    requires AllOk(s) && RefsOk(s, alloc) && ActEnabled(f, s, t, a) && !EncodeFailsAt(s, Act(t, a), alloc)
    ensures var r := Subject(InfoOf(s, t), a);
            RefsAt(LockAfter(s.lock, t, r, a), SandboxesAfter(s.sandboxes, r, a), s.tasks[t := After(InfoOf(s, t), a)], alloc)
    ensures EarlyFor(After(InfoOf(s, t), a), alloc)
  {
    var i := InfoOf(s, t);
    var r := Subject(i, a);
    HoldersAfter(f, s, t, a, alloc);
    if alloc != r.alloc {
      RefsElsewhere(f, s, t, a, alloc);
    } else {
      SubjectWellFormed(i, a);
      SizeAfter(Holders(s.tasks, alloc), Holders(s.tasks[t := After(i, a)], alloc), t, a);
      CountedHere(f, s, t, r, a, |Holders(s.tasks, alloc)|);
    }
  }

  lemma SizeAfter(hs: set<string>, hs': set<string>, t: string, a: Act)
    requires Acquires(a) ==> t !in hs && hs' == hs + {t}
    requires Drops(a) ==> t in hs && hs' == hs - {t}
    requires !Acquires(a) && !Drops(a) ==> hs' == hs
    ensures |hs'| == CountAfter(a, |hs|)
  {
  }

  lemma HoldersAfter(f: Faults, s: State, t: string, a: Act, alloc: string)
    requires AllOk(s) && RefsOk(s, alloc) && ActEnabled(f, s, t, a) && !EncodeFailsAt(s, Act(t, a), alloc)
    ensures var hs, hs' := Holders(s.tasks, alloc), Holders(s.tasks[t := After(InfoOf(s, t), a)], alloc);
            && var here := alloc == Subject(InfoOf(s, t), a).alloc;
            && (Acquires(a) && here ==> t !in hs && hs' == hs + {t})
            && (Drops(a) && here ==> t in hs && hs' == hs - {t})
            && (!here || (!Acquires(a) && !Drops(a)) ==> hs' == hs)
    ensures EarlyFor(After(InfoOf(s, t), a), alloc)
  {
    var i := InfoOf(s, t);
    if alloc == Subject(i, a).alloc {
      BelongsToSubject(i, a);
      assert EarlyFor(i, alloc);
      Holding(i, a, alloc);
    } else {
      HoldingElsewhere(i, a, alloc);
    }
    HoldersUpdate(s.tasks, t, After(i, a), alloc);
  }

  lemma RefsStep(f: Faults, s: State, l: Label, alloc: string)
    requires AllOk(s) && RefsOk(s, alloc) && Enabled(f, s, l) && !EncodeFailsAt(s, l, alloc)
    ensures RefsOk(Step(f, s, l), alloc)
  {
    if l.Act? {
      RefsActAt(f, s, l.tid, l.act, alloc);
    } else if l.Crash? {
      RefsAfterCrash(s, alloc);
    }
  }

  /** After a restart nobody holds anything. */
  lemma RefsAfterCrash(s: State, alloc: string)
    ensures RefsOk(CrashStep(s), alloc)
  {
    assert Holders(CrashStep(s).tasks, alloc) == {};
  }

  lemma {:induction false} RefsRun(f: Faults, s: State, ls: seq<Label>, s': State, alloc: string)
    requires AllOk(s) && (RefsOk(s, alloc) || Crash in ls)
    requires Run(f, s, ls, s') && Encodes(f, s, ls, alloc)
    ensures AllOk(s') && RefsOk(s', alloc)
    decreases |ls|
  {
    if ls != [] {
      var s1 := Step(f, s, ls[0]);
      AllOkStep(f, s, ls[0]);
      if ls[0] == Crash {
        RefsAfterCrash(s, alloc);
      } else if RefsOk(s, alloc) && !EncodeFailsAt(s, ls[0], alloc) {
        RefsStep(f, s, ls[0], alloc);
      }
      RefsRun(f, s1, ls[1..], s', alloc);
    }
  }

  // ----- Conservation -----

  /** In every state of every run, crashes and recoveries included, as long as no start of the
      allocation has failed to encode its state since the last restart: the count of a sandbox is the
      number of its live holders, its ID is the one derived from the allocation, and the map has a
      key exactly when there is a holder, except inside the teardown of the last reference. */
  lemma RefCountIsHolders(f: Faults, ls: seq<Label>, s: State, alloc: string)
    requires Run(f, INIT, ls, s) && Encodes(f, INIT, ls, alloc)
    ensures alloc in s.sandboxes
            ==> s.sandboxes[alloc] == Entry(SandboxOf(alloc), |Holders(s.tasks, alloc)|)
    ensures !TearingOf(s.lock, alloc) ==> (alloc in s.sandboxes <==> Holders(s.tasks, alloc) != {})
  {
    RefsRun(f, INIT, ls, s, alloc);
  }

  /** Releasing tears the sandbox down exactly when the caller was its only holder, in whatever
      order holders release, and no release ever finds the allocation missing. */
  lemma LastHolderTearsDown(f: Faults, ls: seq<Label>, s: State, t: string, c: Caller)
    requires Run(f, INIT, ls, s) && s.lock.Free? && CanRelease(InfoOf(s, t), c, LastReference)
    requires Encodes(f, INIT, ls, Subject(InfoOf(s, t), Release(c, LastReference)).alloc)
    ensures var r := Subject(InfoOf(s, t), Release(c, LastReference));
            && t in Holders(s.tasks, r.alloc)
            && (ReleasePermitted(s, t, r, c, LastReference) <==> Holders(s.tasks, r.alloc) == {t})
            && (ReleasePermitted(s, t, r, c, KeepSandbox) <==> Holders(s.tasks, r.alloc) != {t})
            && !ReleasePermitted(s, t, r, c, NothingHeld)
  {
    var i := InfoOf(s, t);
    var alloc := Subject(i, Release(c, LastReference)).alloc;
    var hs := Holders(s.tasks, alloc);
    RefsRun(f, INIT, ls, s, alloc);
    BelongsToSubject(i, Release(c, LastReference));
    assert EarlyFor(i, alloc);
    HoldingByRelease(i, c, LastReference, alloc);
    assert t in hs;
    if |hs| == 1 {
      assert |hs - {t}| == 0;
      assert hs == {t};
    }
  }
}
