/** SandboxManager: the reference-counted map from allocation to VM, with its rollbacks.

    Every method also records the machine steps it takes in the journal, so its code is a run of
    the state machine; `Valid` ties journal, containerd and map together. */
module Sandbox {
  import opened Names
  import opened Runtime
  import opened Tasks
  import opened Machine
  import Containerd
  import History
  import Host

  class Sandbox {
    const id: Cid
    const alloc: string
    var refCount: int

    constructor (id: Cid, alloc: string)
      ensures this.id == id && this.alloc == alloc && refCount == 1
    {
      this.id, this.alloc, refCount := id, alloc, 1;
    }
  }

  /** What a creation has put into containerd by the time it reaches a stage. */
  function Built(base: Store, alloc: string, stage: CreateStage): Store {
    var c := SandboxOf(alloc);
    match stage
    case AtPause => base
    case AtContainer => base
    case AtMetadata => AddContainer(base, c)
    case AtUndoContainer => AddContainer(base, c)
    case AtBoot => AddMetadata(AddContainer(base, c), c)
    case AtUndoMetadata => AddMetadata(AddContainer(base, c), c)
    case AtPublish => Boot(AddMetadata(AddContainer(base, c), c), c)
  }

  lemma UndoRestores(base: Store, alloc: string)
    requires !HasSandbox(base, alloc)
    ensures var c := SandboxOf(alloc);
            && DeleteContainer(Built(base, alloc, AtUndoContainer), c) == base
            && DeleteMetadata(Built(base, alloc, AtUndoMetadata), c) == Built(base, alloc, AtUndoContainer)
  {
  }

  /** The calls of a creation, in order. */
  function CreationPlan(alloc: string): seq<Host.Call> {
    [Host.PullPauseImage, Host.CreateContainer(SandboxOf(alloc)), Host.CreateMetadata(SandboxOf(alloc)),
     Host.StartTask(SandboxOf(alloc))]
  }

  lemma RefsForgotten(m: SandboxMap, alloc: string)
    requires alloc in m
    ensures AddRefs(m, alloc, -1) - {alloc} == m - {alloc}
  {
  }

  /** The entry of a call that comes back from Release. */
  function PastRelease(i: Info, c: Caller): Info {
    if c == StartTask then i.(start := None) else ToDestroy(i, Released)
  }

  class SandboxManager {
    const ctr: Containerd.Client
    ghost const journal: History.Journal
    var sandboxes: map<string, Sandbox>

    ghost function Entries(): SandboxMap
      reads this, sandboxes.Values
    {
      map a | a in sandboxes :: Entry(sandboxes[a].id, sandboxes[a].refCount)
    }

    /** Each entry is filed under its own allocation, so no two keys share a sandbox. */
    ghost predicate Filed()
      reads this
    {
      forall a :: a in sandboxes ==> sandboxes[a].alloc == a
    }

    ghost predicate Valid()
      reads this, sandboxes.Values, ctr, journal
    {
      && Filed()
      && journal.Valid()
      && journal.state.store == ctr.View()
      && journal.state.sandboxes == Entries()
    }

    constructor (ctr: Containerd.Client, ghost journal: History.Journal)
      requires journal.Valid() && journal.state.store == ctr.View() && journal.state.sandboxes == map[]
      ensures Valid() && this.ctr == ctr && this.journal == journal && sandboxes == map[]
    {
      this.ctr, this.journal := ctr, journal;
      sandboxes := map[];
    }

    ghost predicate StartAtAlloc(t: string, pc: StartPc, alloc: string)
      reads journal
    {
      && StartAt(journal.Entry(t), pc)
      && journal.Entry(t).start.value.task == RecordOf(alloc, journal.Entry(t).start.value.task.name)
    }

    // ----- The map by itself -----

    method AddRef(alloc: string, n: int) returns (sb: Sandbox)
      requires Filed() && alloc in sandboxes
      modifies sandboxes.Values
      ensures ctr.host.said == old(ctr.host.said)
      ensures Filed() && sb == sandboxes[alloc] && sb.refCount == old(sandboxes[alloc].refCount) + n
      ensures Entries() == AddRefs(old(Entries()), alloc, n)
    {
      sb := sandboxes[alloc];
      sb.refCount := sb.refCount + n;
    }

    method AddSandbox(alloc: string, id: Cid) returns (sb: Sandbox)
      requires Filed()
      modifies this
      ensures Filed() && fresh(sb) && sandboxes == old(sandboxes)[alloc := sb]
      ensures Entries() == old(Entries())[alloc := Entry(id, 1)]
    {
      sb := new Sandbox(id, alloc);
      sandboxes := sandboxes[alloc := sb];
    }

    method RemoveSandbox(alloc: string)
      requires Filed()
      modifies this
      ensures Filed() && sandboxes == old(sandboxes) - {alloc} && Entries() == old(Entries()) - {alloc}
    {
      sandboxes := sandboxes - {alloc};
    }

    // ----- GetOrCreate after a miss, one containerd call at a time -----

    ghost predicate InStage(t: string, alloc: string, stage: CreateStage, base: Store)
      reads journal, ctr
    {
      && journal.Valid()
      && journal.state.store == ctr.View()
      && journal.state.lock == Creating(t, alloc, stage)
      && StartAtAlloc(t, InCreate, alloc)
      && (!HasSandbox(base, alloc) ==> ctr.View() == Built(base, alloc, stage))
    }

    /** The mutex is released with an error and the StartTask call is over; if there was nothing
        under the sandbox ID before, containerd is as it was. */
    ghost predicate Abandoned(t: string, alloc: string, base: Store, tasks: map<string, Info>, i: Info)
      reads journal, ctr
    {
      && journal.Valid()
      && journal.state.store == ctr.View()
      && journal.state.lock.Free?
      && journal.state.tasks == tasks[t := i.(start := None)]
      && (!HasSandbox(base, alloc) ==> ctr.View() == base)
    }

    method PullPauseImage(ghost t: string, ghost alloc: string, ghost base: Store) returns (ok: bool)
      requires InStage(t, alloc, AtPause, base)
      modifies journal, ctr.host
      ensures ctr.host.said == old(ctr.host.said) + [Host.Reply(Host.PullPauseImage, ok)]
      ensures journal.state.sandboxes == old(journal.state.sandboxes)
              && journal.state.markers == old(journal.state.markers)
      ensures ok ==> InStage(t, alloc, AtContainer, base) && journal.state.tasks == old(journal.state.tasks)
      ensures !ok ==> Abandoned(t, alloc, base, old(journal.state.tasks), old(journal.Entry(t)))
    {
      ok := ctr.EnsureImage();
      if ok {
        journal.Take(t, Create(PullPause));
      } else {
        journal.Take(t, Create(PullPauseFails));
      }
    }

    method CreatePauseContainer(ghost t: string, alloc: string, ghost base: Store) returns (ok: bool)
      requires InStage(t, alloc, AtContainer, base)
      modifies journal, ctr, ctr.host
      ensures ctr.host.said == old(ctr.host.said) + [Host.Reply(Host.CreateContainer(SandboxOf(alloc)), ok)]
      ensures journal.state.sandboxes == old(journal.state.sandboxes)
              && journal.state.markers == old(journal.state.markers)
      ensures ok ==> InStage(t, alloc, AtMetadata, base) && journal.state.tasks == old(journal.state.tasks)
      ensures !ok ==> Abandoned(t, alloc, base, old(journal.state.tasks), old(journal.Entry(t)))
    {
      ok := ctr.CreateContainer(SandboxOf(alloc));
      if ok {
        journal.Take(t, Create(CreateSandbox));
      } else {
        journal.Take(t, Create(CreateSandboxFails));
      }
    }

    method CreateRecord(ghost t: string, alloc: string, ghost base: Store) returns (ok: bool)
      requires InStage(t, alloc, AtMetadata, base)
      modifies journal, ctr, ctr.host
      ensures ctr.host.said == old(ctr.host.said) + [Host.Reply(Host.CreateMetadata(SandboxOf(alloc)), ok)]
      ensures journal.state.sandboxes == old(journal.state.sandboxes)
              && journal.state.markers == old(journal.state.markers)
      ensures ok ==> InStage(t, alloc, AtBoot, base) && journal.state.tasks == old(journal.state.tasks)
      ensures !ok ==> Abandoned(t, alloc, base, old(journal.state.tasks), old(journal.Entry(t)))
    {
      ok := ctr.CreateSandboxMetadata(SandboxOf(alloc));
      if ok {
        journal.Take(t, Create(CreateMetadata));
      } else {
        journal.Take(t, Create(CreateMetadataFails));
        RemoveContainer(t, alloc, base);
      }
    }

    method StartVm(ghost t: string, alloc: string, ghost base: Store) returns (ok: bool)
      requires InStage(t, alloc, AtBoot, base)
      modifies journal, ctr, ctr.host
      ensures ctr.host.said == old(ctr.host.said) + [Host.Reply(Host.StartTask(SandboxOf(alloc)), ok)]
      ensures journal.state.sandboxes == old(journal.state.sandboxes)
              && journal.state.markers == old(journal.state.markers)
      ensures ok ==> InStage(t, alloc, AtPublish, base) && journal.state.tasks == old(journal.state.tasks)
      ensures !ok ==> Abandoned(t, alloc, base, old(journal.state.tasks), old(journal.Entry(t)))
    {
      ok := ctr.StartTaskDetached(SandboxOf(alloc));
      if ok {
        journal.Take(t, Create(BootVm));
      } else {
        journal.Take(t, Create(BootVmFails));
        UndoCreation(t, alloc, base);
      }
    }

    method UndoCreation(ghost t: string, alloc: string, ghost base: Store)
      requires InStage(t, alloc, AtUndoMetadata, base)
      modifies journal, ctr
      ensures journal.state.sandboxes == old(journal.state.sandboxes)
              && journal.state.markers == old(journal.state.markers)
      ensures Abandoned(t, alloc, base, old(journal.state.tasks), old(journal.Entry(t)))
    {
      RemoveRecord(t, alloc, base);
      RemoveContainer(t, alloc, base);
    }

    method RemoveRecord(ghost t: string, alloc: string, ghost base: Store)
      requires InStage(t, alloc, AtUndoMetadata, base)
      modifies journal, ctr
      ensures journal.state.sandboxes == old(journal.state.sandboxes)
              && journal.state.markers == old(journal.state.markers)
      ensures journal.state.tasks == old(journal.state.tasks)
      ensures InStage(t, alloc, AtUndoContainer, base)
    {
      if !HasSandbox(base, alloc) {
        UndoRestores(base, alloc);
      }
      ctr.DeleteSandboxMetadata(SandboxOf(alloc));
      journal.Take(t, Create(UndoMetadata));
    }

    method RemoveContainer(ghost t: string, alloc: string, ghost base: Store)
      requires InStage(t, alloc, AtUndoContainer, base)
      modifies journal, ctr
      ensures journal.state.sandboxes == old(journal.state.sandboxes)
              && journal.state.markers == old(journal.state.markers)
      ensures Abandoned(t, alloc, base, old(journal.state.tasks), old(journal.Entry(t)))
    {
      if !HasSandbox(base, alloc) {
        UndoRestores(base, alloc);
      }
      ctr.DeleteContainer(SandboxOf(alloc));
      journal.Take(t, Create(UndoContainer));
    }

    method CreateVm(ghost t: string, alloc: string, ghost base: Store) returns (ok: bool, ghost k: nat)
      requires InStage(t, alloc, AtPause, base)
      modifies ctr, ctr.host, journal
      ensures Host.Followed(old(ctr.host.said), ctr.host.said, CreationPlan(alloc)[..2], k, ok)
      ensures journal.state.sandboxes == old(journal.state.sandboxes)
              && journal.state.markers == old(journal.state.markers)
      ensures ok ==> InStage(t, alloc, AtMetadata, base) && journal.state.tasks == old(journal.state.tasks)
      ensures !ok ==> Abandoned(t, alloc, base, old(journal.state.tasks), old(journal.Entry(t)))
    {
      ok := PullPauseImage(t, alloc, base);
      k := One(ok);
      if ok {
        ok := CreatePauseContainer(t, alloc, base);
        k := k + One(ok);
      }
    }

    method RegisterAndStart(ghost t: string, alloc: string, ghost base: Store) returns (ok: bool, ghost k: nat)
      requires InStage(t, alloc, AtMetadata, base)
      modifies ctr, ctr.host, journal
      ensures Host.Followed(old(ctr.host.said), ctr.host.said, CreationPlan(alloc)[2..], k, ok)
      ensures journal.state.sandboxes == old(journal.state.sandboxes)
              && journal.state.markers == old(journal.state.markers)
      ensures ok ==> InStage(t, alloc, AtPublish, base) && journal.state.tasks == old(journal.state.tasks)
      ensures !ok ==> Abandoned(t, alloc, base, old(journal.state.tasks), old(journal.Entry(t)))
    {
      ok := CreateRecord(t, alloc, base);
      k := One(ok);
      if ok {
        ok := StartVm(t, alloc, base);
        k := k + One(ok);
      }
    }

    method BuildVm(ghost t: string, alloc: string, ghost base: Store) returns (ok: bool, ghost k: nat)
      requires InStage(t, alloc, AtPause, base)
      modifies ctr, ctr.host, journal
      ensures Host.Followed(old(ctr.host.said), ctr.host.said, CreationPlan(alloc), k, ok)
      ensures journal.state.sandboxes == old(journal.state.sandboxes)
              && journal.state.markers == old(journal.state.markers)
      ensures ok ==> InStage(t, alloc, AtPublish, base) && journal.state.tasks == old(journal.state.tasks)
      ensures !ok ==> Abandoned(t, alloc, base, old(journal.state.tasks), old(journal.Entry(t)))
    {
      ok, k := CreateVm(t, alloc, base);
      ghost var j := k;
      if ok {
        ok, j := RegisterAndStart(t, alloc, base);
        k := k + j;
      }
      Host.AnswersInTwo(CreationPlan(alloc), 2, k);
    }

    method PublishSandbox(ghost t: string, alloc: string, ghost base: Store) returns (sb: Sandbox)
      requires Filed() && InStage(t, alloc, AtPublish, base) && journal.state.sandboxes == Entries()
      modifies this, journal
      ensures Valid() && journal.state.lock.Free? && sandboxes == old(sandboxes)[alloc := sb] && fresh(sb)
      ensures journal.state.markers == old(journal.state.markers)
      ensures Entries() == old(Entries())[alloc := Entry(SandboxOf(alloc), 1)]
      ensures journal.state.tasks == old(journal.state.tasks)[t := ToStart(old(journal.Entry(t)), Acquired)]
    {
      sb := AddSandbox(alloc, SandboxOf(alloc));
      journal.Take(t, Create(Publish));
    }

    // ----- The three operations -----

    /** It fails exactly if one of the calls of a creation is refused, which ends it. On success the
        allocation's entry has one more reference, or is new with one, and containerd holds a booted
        sandbox for it; on error the map is unchanged, and so is containerd if it held
        nothing under the sandbox ID. */
    method GetOrCreate(ghost t: string, alloc: string) returns (sb: Sandbox?, ghost k: nat)
      requires Valid() && journal.state.lock.Free? && StartAtAlloc(t, Cleaned, alloc)
      requires alloc in sandboxes ==> sandboxes[alloc].refCount < MAX_REFS
      modifies this, sandboxes.Values, ctr, ctr.host, journal
      ensures Host.Followed(old(ctr.host.said), ctr.host.said, if alloc in old(sandboxes) then [] else CreationPlan(alloc), k, sb != null)
      ensures Valid() && journal.state.lock.Free? && journal.state.markers == old(journal.state.markers)
      ensures sb != null ==> alloc in sandboxes && sandboxes[alloc] == sb
      ensures fresh(sandboxes.Values - old(sandboxes.Values))
      ensures sb != null
              ==> journal.state.tasks == old(journal.state.tasks)[t := ToStart(old(journal.Entry(t)), Acquired)]
      ensures sb == null ==> journal.state.tasks == old(journal.state.tasks)[t := old(journal.Entry(t)).(start := None)]
      ensures Entries() == if sb == null then old(Entries())
                           else if alloc in old(sandboxes) then AddRefs(old(Entries()), alloc, 1)
                           else old(Entries())[alloc := Entry(SandboxOf(alloc), 1)]
      ensures alloc in old(sandboxes) ==> sb != null && sandboxes == old(sandboxes) && ctr.View() == old(ctr.View())
      ensures alloc !in old(sandboxes) && !HasSandbox(old(ctr.View()), alloc)
              ==> ctr.View() == if sb == null then old(ctr.View()) else Built(old(ctr.View()), alloc, AtPublish)
    {
      if alloc in sandboxes {
        sb := AddRef(alloc, 1);
        journal.Take(t, Act.Start(Reuse));
        k := 0;
      } else {
        sb, k := CreateSandboxVm(t, alloc);
      }
    }

    ghost method EnterCreation(t: string, alloc: string)
      requires Valid() && journal.state.lock.Free? && StartAtAlloc(t, Cleaned, alloc) && alloc !in sandboxes
      modifies journal
      ensures InStage(t, alloc, AtPause, ctr.View()) && journal.state.sandboxes == Entries()
      ensures journal.state.markers == old(journal.state.markers)
      ensures journal.state.tasks == old(journal.state.tasks)[t := ToStart(old(journal.Entry(t)), InCreate)]
    {
      journal.Take(t, Act.Start(Miss));
    }

    method CreateSandboxVm(ghost t: string, alloc: string) returns (sb: Sandbox?, ghost k: nat)
      requires Valid() && journal.state.lock.Free? && StartAtAlloc(t, Cleaned, alloc) && alloc !in sandboxes
      modifies this, ctr, ctr.host, journal
      ensures Host.Followed(old(ctr.host.said), ctr.host.said, CreationPlan(alloc), k, sb != null)
      ensures Valid() && journal.state.lock.Free? && journal.state.markers == old(journal.state.markers)
      ensures sb != null ==> alloc in sandboxes && sandboxes[alloc] == sb
      ensures fresh(sandboxes.Values - old(sandboxes.Values))
      ensures sb != null
              ==> journal.state.tasks == old(journal.state.tasks)[t := ToStart(old(journal.Entry(t)), Acquired)]
      ensures sb == null ==> journal.state.tasks == old(journal.state.tasks)[t := old(journal.Entry(t)).(start := None)]
      ensures Entries() == if sb == null then old(Entries()) else old(Entries())[alloc := Entry(SandboxOf(alloc), 1)]
      ensures !HasSandbox(old(ctr.View()), alloc)
              ==> ctr.View() == if sb == null then old(ctr.View()) else Built(old(ctr.View()), alloc, AtPublish)
    {
      ghost var base, i := ctr.View(), ToStart(journal.Entry(t), InCreate);
      EnterCreation(t, alloc);
      sb, k := BuildAndPublish(t, alloc, base);
      History.Twice(old(journal.state.tasks), t, i, if sb == null then i.(start := None) else ToStart(i, Acquired));
    }

    method BuildAndPublish(ghost t: string, alloc: string, ghost base: Store) returns (sb: Sandbox?, ghost k: nat)
      requires Filed() && InStage(t, alloc, AtPause, base) && journal.state.sandboxes == Entries()
      modifies this, ctr, ctr.host, journal
      ensures Host.Followed(old(ctr.host.said), ctr.host.said, CreationPlan(alloc), k, sb != null)
      ensures Valid() && journal.state.lock.Free? && journal.state.markers == old(journal.state.markers)
      ensures sb != null ==> alloc in sandboxes && sandboxes[alloc] == sb
      ensures fresh(sandboxes.Values - old(sandboxes.Values))
      ensures journal.state.tasks == old(journal.state.tasks)[t :=
                if sb == null then old(journal.Entry(t)).(start := None) else ToStart(old(journal.Entry(t)), Acquired)]
      ensures Entries() == if sb == null then old(Entries()) else old(Entries())[alloc := Entry(SandboxOf(alloc), 1)]
      ensures !HasSandbox(base, alloc) ==> ctr.View() == if sb == null then base else Built(base, alloc, AtPublish)
    {
      var ok;
      ok, k := BuildVm(t, alloc, base);
      if ok {
        sb := PublishSandbox(t, alloc, base);
      } else {
        sb := null;
      }
    }

    // ----- Release -----

    ghost predicate Releasing(t: string, c: Caller, alloc: string)
      reads journal
    {
      && CanRelease(journal.Entry(t), c, LastReference)
      && var r := Subject(journal.Entry(t), Act.Release(c, LastReference));
      r == RecordOf(alloc, r.name)
    }

    ghost predicate TearingAt(t: string, c: Caller, alloc: string, stage: TearStage)
      reads journal, ctr
    {
      && journal.Valid()
      && journal.state.store == ctr.View()
      && journal.state.lock == Tearing(t, c, alloc, stage)
      && CanRelease(journal.Entry(t), c, TearHalt)
      && var r := Subject(journal.Entry(t), Act.Release(c, TearHalt));
      r == RecordOf(alloc, r.name)
    }

    /** Stop the VM and delete its container. */
    method StopVm(ghost t: string, ghost c: Caller, alloc: string)
      requires TearingAt(t, c, alloc, AtHalt)
      modifies ctr, journal
      ensures TearingAt(t, c, alloc, AtDropMetadata)
      ensures ctr.View() == DeleteContainer(Halt(old(ctr.View()), SandboxOf(alloc)), SandboxOf(alloc))
      ensures journal.state.sandboxes == old(journal.state.sandboxes)
              && journal.state.markers == old(journal.state.markers)
      ensures journal.state.tasks == old(journal.state.tasks)
    {
      ctr.DeleteTask(SandboxOf(alloc));
      journal.Take(t, Act.Release(c, TearHalt));
      ctr.DeleteContainer(SandboxOf(alloc));
      journal.Take(t, Act.Release(c, TearContainer));
    }

    method DropMetadata(ghost t: string, ghost c: Caller, alloc: string)
      requires TearingAt(t, c, alloc, AtDropMetadata)
      modifies ctr, journal
      ensures TearingAt(t, c, alloc, AtUnmap) && ctr.View() == DeleteMetadata(old(ctr.View()), SandboxOf(alloc))
      ensures journal.state.sandboxes == old(journal.state.sandboxes)
              && journal.state.markers == old(journal.state.markers)
      ensures journal.state.tasks == old(journal.state.tasks)
    {
      ctr.DeleteSandboxMetadata(SandboxOf(alloc));
      journal.Take(t, Act.Release(c, TearMetadata));
    }

    method RemoveResources(ghost t: string, ghost c: Caller, alloc: string)
      requires TearingAt(t, c, alloc, AtHalt)
      modifies ctr, journal
      ensures TearingAt(t, c, alloc, AtUnmap) && ctr.View() == TornDown(old(ctr.View()), alloc)
      ensures journal.state.sandboxes == old(journal.state.sandboxes)
              && journal.state.markers == old(journal.state.markers)
      ensures journal.state.tasks == old(journal.state.tasks)
    {
      StopVm(t, c, alloc);
      DropMetadata(t, c, alloc);
    }

    ghost method NoteUnmap(t: string, c: Caller, alloc: string)
      requires TearingAt(t, c, alloc, AtUnmap)
      modifies journal
      ensures journal.Valid() && journal.state.lock.Free? && journal.state.store == old(journal.state.store)
      ensures journal.state.markers == old(journal.state.markers)
      ensures journal.state.sandboxes == old(journal.state.sandboxes) - {alloc}
      ensures journal.state.tasks == old(journal.state.tasks)[t := PastRelease(old(journal.Entry(t)), c)]
    {
      journal.Take(t, Act.Release(c, Unmap));
    }

    method TearDown(ghost t: string, ghost c: Caller, alloc: string)
      requires Valid() && TearingAt(t, c, alloc, AtHalt)
      modifies this, ctr, journal
      ensures Valid() && journal.state.lock.Free? && journal.state.markers == old(journal.state.markers)
      ensures journal.state.tasks == old(journal.state.tasks)[t := PastRelease(old(journal.Entry(t)), c)]
      ensures Entries() == old(Entries()) - {alloc} && ctr.View() == TornDown(old(ctr.View()), alloc)
    {
      RemoveResources(t, c, alloc);
      RemoveSandbox(alloc);
      NoteUnmap(t, c, alloc);
    }

    ghost method NoteKept(t: string, c: Caller, alloc: string)
      requires journal.Valid() && journal.state.lock.Free? && Releasing(t, c, alloc)
      requires alloc in journal.state.sandboxes ==> journal.state.sandboxes[alloc].refs > 1
      modifies journal
      ensures journal.Valid() && journal.state.lock.Free? && journal.state.store == old(journal.state.store)
      ensures journal.state.markers == old(journal.state.markers)
      ensures journal.state.sandboxes
              == if alloc in old(journal.state.sandboxes) then AddRefs(old(journal.state.sandboxes), alloc, -1)
                                         else old(journal.state.sandboxes)
      ensures journal.state.tasks == old(journal.state.tasks)[t := PastRelease(old(journal.Entry(t)), c)]
    {
      if alloc in journal.state.sandboxes {
        journal.Take(t, Act.Release(c, KeepSandbox));
      } else {
        journal.Take(t, Act.Release(c, NothingHeld));
      }
    }

    /** Nothing if the allocation is unknown; one reference less if others remain; otherwise the VM,
        its container, its metadata and its map entry are gone. */
    method Release(ghost t: string, ghost c: Caller, alloc: string)
      requires Valid() && journal.state.lock.Free? && Releasing(t, c, alloc)
      modifies this, sandboxes.Values, ctr, journal
      ensures ctr.host.said == old(ctr.host.said)
      ensures Valid() && journal.state.lock.Free? && journal.state.markers == old(journal.state.markers)
      ensures journal.state.tasks == old(journal.state.tasks)[t := PastRelease(old(journal.Entry(t)), c)]
      ensures if alloc !in old(sandboxes) then Entries() == old(Entries()) && ctr.View() == old(ctr.View())
              else if old(sandboxes[alloc].refCount) > 1 then
                Entries() == AddRefs(old(Entries()), alloc, -1) && ctr.View() == old(ctr.View())
              else Entries() == old(Entries()) - {alloc} && ctr.View() == TornDown(old(ctr.View()), alloc)
    {
      if alloc !in sandboxes {
        NoteKept(t, c, alloc);
      } else {
        ReleaseKnown(t, c, alloc);
      }
    }

    method ReleaseKnown(ghost t: string, ghost c: Caller, alloc: string)
      requires Valid() && journal.state.lock.Free? && Releasing(t, c, alloc) && alloc in sandboxes
      modifies this, sandboxes.Values, ctr, journal
      ensures ctr.host.said == old(ctr.host.said)
      ensures Valid() && journal.state.lock.Free? && journal.state.markers == old(journal.state.markers)
      ensures journal.state.tasks == old(journal.state.tasks)[t := PastRelease(old(journal.Entry(t)), c)]
      ensures if old(sandboxes[alloc].refCount) > 1 then
                Entries() == AddRefs(old(Entries()), alloc, -1) && ctr.View() == old(ctr.View())
              else Entries() == old(Entries()) - {alloc} && ctr.View() == TornDown(old(ctr.View()), alloc)
    {
      ghost var m := Entries();
      var sb := AddRef(alloc, -1);
      if sb.refCount > 0 {
        NoteKept(t, c, alloc);
      } else {
        TearDownLast(t, c, alloc);
        RefsForgotten(m, alloc);
      }
    }

    method TearDownLast(ghost t: string, ghost c: Caller, alloc: string)
      requires Filed() && journal.Valid() && journal.state.store == ctr.View() && journal.state.lock.Free?
              && Releasing(t, c, alloc)
      requires alloc in journal.state.sandboxes && journal.state.sandboxes[alloc].refs <= 1
      requires AddRefs(journal.state.sandboxes, alloc, -1) == Entries()
      modifies this, ctr, journal
      ensures Valid() && journal.state.lock.Free? && journal.state.markers == old(journal.state.markers)
      ensures journal.state.tasks == old(journal.state.tasks)[t := PastRelease(old(journal.Entry(t)), c)]
      ensures Entries() == old(Entries()) - {alloc} && ctr.View() == TornDown(old(ctr.View()), alloc)
    {
      EnterTearDown(t, c, alloc);
      ghost var i := journal.Entry(t);
      TearDown(t, c, alloc);
      History.Twice(old(journal.state.tasks), t, i, PastRelease(i, c));
    }

    ghost method EnterTearDown(t: string, c: Caller, alloc: string)
      requires Filed() && journal.Valid() && journal.state.store == ctr.View() && journal.state.lock.Free?
              && Releasing(t, c, alloc)
      requires alloc in journal.state.sandboxes && journal.state.sandboxes[alloc].refs <= 1
      requires AddRefs(journal.state.sandboxes, alloc, -1) == Entries()
      modifies journal
      ensures Valid() && TearingAt(t, c, alloc, AtHalt) && journal.state.markers == old(journal.state.markers)
      ensures journal.state.tasks == old(journal.state.tasks)[t := journal.Entry(t)]
      ensures PastRelease(journal.Entry(t), c) == PastRelease(old(journal.Entry(t)), c)
    {
      journal.Take(t, Act.Release(c, LastReference));
    }

    // ----- Recover -----

    ghost predicate Recovering(t: string, alloc: string, id: Cid)
      reads journal
    {
      && journal.Entry(t).recover == Some(SeenRunning)
      && var p := journal.Entry(t).persisted;
      p.Some? && p.value == RecordOf(alloc, p.value.name) && p.value.sandbox == id
    }

    ghost method NoteRecovered(t: string, alloc: string, id: Cid)
      requires journal.Valid() && journal.state.lock.Free? && Recovering(t, alloc, id)
      requires alloc in journal.state.sandboxes ==> journal.state.sandboxes[alloc].refs < MAX_REFS
      modifies journal
      ensures journal.Valid() && journal.state.lock.Free? && journal.state.store == old(journal.state.store)
      ensures journal.state.markers == old(journal.state.markers)
      ensures journal.state.sandboxes
              == if alloc in old(journal.state.sandboxes) then AddRefs(old(journal.state.sandboxes), alloc, 1)
                                         else old(journal.state.sandboxes)[alloc := Entry(id, 1)]
      ensures journal.state.tasks == old(journal.state.tasks)[t := old(journal.Entry(t)).(recover := Some(Attached))]
    {
      if alloc in journal.state.sandboxes {
        journal.Take(t, Act.Recover(RecoverKnown));
      } else {
        journal.Take(t, Act.Recover(RecoverNew));
      }
    }

    /** One more reference on the allocation's entry, which is added with the recorded ID if it is not
        there; containerd is not touched. */
    method Recover(ghost t: string, alloc: string, id: Cid)
      requires Valid() && journal.state.lock.Free? && Recovering(t, alloc, id)
      requires alloc in sandboxes ==> sandboxes[alloc].refCount < MAX_REFS
      modifies this, sandboxes.Values, journal
      ensures Valid() && journal.state.lock.Free? && journal.state.markers == old(journal.state.markers)
      ensures journal.state.tasks == old(journal.state.tasks)[t := old(journal.Entry(t)).(recover := Some(Attached))]
      ensures Entries() == if alloc in old(sandboxes) then AddRefs(old(Entries()), alloc, 1)
                           else old(Entries())[alloc := Entry(id, 1)]
    {
      if alloc in sandboxes {
        var sb := AddRef(alloc, 1);
      } else {
        var sb := AddSandbox(alloc, id);
      }
      NoteRecovered(t, alloc, id);
    }
  }
}
