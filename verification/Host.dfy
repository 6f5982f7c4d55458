/** What the driver is answered from outside: by containerd, the file system and the process table. */
module Host {
  import opened Names
  import opened Tasks

  /** Calls that can be refused. Deletions are not among them: their errors are ignored. */
  datatype Call =
    | DecodeConfig
    | PullPauseImage
    | CreateContainer(id: Cid)
    | CreateMetadata(id: Cid)
    | StartTask(id: Cid)
    | PrepareTask
    | EncodeState
    | OpenLogs
    | Attach(id: Cid)
    | WriteMarker(alloc: string)
    | ReapProcesses(alloc: string)
    | Kill(id: Cid)
    | AwaitDone(id: Cid)

  /** `Exited` is the end of RunTask or MonitorTask: the reported exit, and whether the task has
      stopped or only the connection to it was lost. */
  datatype Answer =
    | Reply(call: Call, granted: bool)
    | Read(container: Cid, reading: Reading)
    | Exited(container: Cid, exit: Exit, stopped: bool)

  /** Every answer so far, in order. */
  class Record {
    ghost var said: seq<Answer>

    constructor ()
      ensures said == []
    {
      said := [];
    }

    ghost method Note(a: Answer)
      modifies this
      ensures said == old(said) + [a]
    {
      said := said + [a];
    }

    /** Make a call, which can be refused unless it is `certain`. */
    method Ask(c: Call, certain: bool) returns (granted: bool)
      modifies this
      ensures said == old(said) + [Reply(c, granted)]
      ensures certain ==> granted
    {
      granted := *;
      granted := granted || certain;
      Note(Reply(c, granted));
    }
  }

  function Granted(plan: seq<Call>): (r: seq<Answer>)
    ensures |r| == |plan|
  {
    seq(|plan|, i requires 0 <= i < |plan| => Reply(plan[i], true))
  }

  /** The answers when the calls of `plan` are made in order until one is refused and `k` of them
      are granted. */
  function Answers(plan: seq<Call>, k: nat): seq<Answer>
    requires k <= |plan|
  {
    Granted(plan[..k]) + if k < |plan| then [Reply(plan[k], false)] else []
  }

  /** From the answers `said` to `said'` the calls of `plan` have been made in order until one was refused,
      and `k` of them granted; `ok` says that none was refused. */
  predicate Followed(said: seq<Answer>, said': seq<Answer>, plan: seq<Call>, k: nat, ok: bool) {
    k <= |plan| && ok == (k == |plan|) && said' == said + Answers(plan, k)
  }

  lemma AnswersFirst(c: Call, plan: seq<Call>, k: nat)
    requires k <= |plan|
    ensures Answers([c] + plan, k + 1) == [Reply(c, true)] + Answers(plan, k)
    ensures Answers([c] + plan, 0) == [Reply(c, false)]
  {
    assert ([c] + plan)[..k + 1] == [c] + plan[..k];
  }

  /** The first `m` calls of a plan first, and the others unless one of them is refused. */

  lemma AnswersInTwo(plan: seq<Call>, m: nat, k: nat)
    requires m <= |plan| && k <= |plan|
    ensures Answers(plan, k)
            == if k < m then Answers(plan[..m], k) else Answers(plan[..m], m) + Answers(plan[m..], k - m)
  {
    if k < m {
      assert plan[..m][..k] == plan[..k];
    } else {
      assert plan[..k] == plan[..m] + plan[m..][..k - m];
    }
  }

  predicate Grants(a: Answer) {
    a.Reply? && a.granted
  }

  /** Every answer grants its call exactly when the plan is carried out to its end; otherwise it is
      the last answer, and no other, that does not. */
  lemma AnswersGrant(plan: seq<Call>, k: nat)
    requires k <= |plan|
    ensures (forall a :: a in Answers(plan, k) ==> Grants(a)) <==> k == |plan|
    ensures forall i :: 0 <= i < |Answers(plan, k)| ==>
              Answers(plan, k)[i].Reply? && Answers(plan, k)[i].call == plan[i] &&
              (Answers(plan, k)[i].granted <==> i < k)
  {
    if k < |plan| {
      assert Answers(plan, k)[k] == Reply(plan[k], false);
      assert Answers(plan, k)[k] in Answers(plan, k);
    }
  }
}
