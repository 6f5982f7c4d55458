/** What the driver relies on of containerd, as functions on the IDs it stores. */
module Runtime {
  import opened Names

  /** Containers, sandbox metadata records, and the containers whose task is running. */
  datatype Store = Store(containers: set<Cid>, metadata: set<Cid>, running: set<Cid>)

  const EMPTY := Store({}, {}, {})

  /** Is the task of this container reported as running? An unknown container is not. */
  predicate Up(st: Store, c: Cid) {
    c in st.containers && c in st.running
  }

  /** SIGKILL and task deletion. A sandbox takes every task inside its VM with it. */
  function Halt(st: Store, c: Cid): Store {
    st.(running := set d | d in st.running && !(if c.SandboxOf? then d.alloc == c.alloc else d == c))
  }

  function AddContainer(st: Store, c: Cid): Store {
    st.(containers := st.containers + {c})
  }

  function DeleteContainer(st: Store, c: Cid): Store {
    st.(containers := st.containers - {c})
  }

  function AddMetadata(st: Store, c: Cid): Store {
    st.(metadata := st.metadata + {c})
  }

  function DeleteMetadata(st: Store, c: Cid): Store {
    st.(metadata := st.metadata - {c})
  }

  /** Starting needs the container, and for a task also a VM to run in. */
  predicate CanBoot(st: Store, c: Cid) {
    && c in st.containers
    && c !in st.running
    && (c.TaskOf? ==> SandboxOf(c.alloc) in st.running)
  }

  function Boot(st: Store, c: Cid): Store {
    st.(running := st.running + {c})
  }

  /** Does containerd hold anything under the sandbox ID of this allocation? */
  predicate HasSandbox(st: Store, alloc: string) {
    var c := SandboxOf(alloc);
    c in st.containers || c in st.metadata || c in st.running
  }

  /** Container and metadata both present. */
  predicate SandboxIntact(st: Store, alloc: string) {
    SandboxOf(alloc) in st.containers && SandboxOf(alloc) in st.metadata
  }

  // ----- What two stores have in common -----

  predicate SameUnder(st: Store, st': Store, c: Cid) {
    && (c in st.containers <==> c in st'.containers)
    && (c in st.metadata <==> c in st'.metadata)
    && (c in st.running <==> c in st'.running)
  }

  /** The same resources under the sandbox ID of the allocation. */
  predicate SameSandbox(st: Store, st': Store, alloc: string) {
    SameUnder(st, st', SandboxOf(alloc))
  }

  /** Nothing of other allocations and no other task's container differs. */
  ghost predicate OwnOnly(st: Store, st': Store, own: Cid) {
    && (forall c: Cid :: c.alloc != own.alloc ==> SameUnder(st, st', c))
    && (forall c: Cid :: c.TaskOf? && c != own ==> (c in st.containers <==> c in st'.containers))
  }

  lemma OwnOnlyThen(st: Store, st1: Store, st2: Store, own: Cid)
    requires OwnOnly(st, st1, own) && OwnOnly(st1, st2, own)
    ensures OwnOnly(st, st2, own)
  {
    forall c: Cid | c.alloc != own.alloc
      ensures SameUnder(st, st2, c)
    {
      assert SameUnder(st, st1, c) && SameUnder(st1, st2, c);
    }
  }

  /** What becomes of a sandbox that is torn down. */
  function TornDown(st: Store, alloc: string): Store {
    DeleteMetadata(DeleteContainer(Halt(st, SandboxOf(alloc)), SandboxOf(alloc)), SandboxOf(alloc))
  }

  lemma TornDownOwnOnly(st: Store, own: Cid)
    ensures OwnOnly(st, TornDown(st, own.alloc), own) && !HasSandbox(TornDown(st, own.alloc), own.alloc)
  {
  }

  lemma HaltOwnOnly(st: Store, c: Cid, own: Cid)
    requires c.alloc == own.alloc
    ensures OwnOnly(st, Halt(st, c), own)
    ensures c.TaskOf? ==> forall a :: SameSandbox(st, Halt(st, c), a)
  {
  }

  lemma TaskDeletedOwnOnly(st: Store, own: Cid)
    requires own.TaskOf?
    ensures var st' := DeleteContainer(Halt(st, own), own);
            OwnOnly(st, st', own) && forall a :: SameSandbox(st, st', a)
  {
  }
}
