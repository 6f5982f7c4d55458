/** Containerd IDs and state-directory paths. */
module Names {
  import opened Text

  /** The pause container that anchors the VM of an allocation. */
  function SandboxID(alloc: string): string {
    "kata-" + alloc + "-sandbox"
  }

  function ContainerID(alloc: string, name: string): string {
    "kata-" + alloc + "-" + name
  }

  /** A containerd ID before it is printed: which sandbox or which task it stands for. */
  datatype Cid = SandboxOf(alloc: string) | TaskOf(alloc: string, name: string)

  function Render(c: Cid): string {
    match c
    case SandboxOf(alloc) => SandboxID(alloc)
    case TaskOf(alloc, name) => ContainerID(alloc, name)
  }

  // ----- Paths below the driver's state directory, as lists of components -----

  type Path = seq<string>

  predicate PlainComponent(x: string) {
    x != "" && x != "." && x != ".." && '/' !in x
  }

  predicate PlainPath(path: Path) {
    forall k :: 0 <= k < |path| ==> PlainComponent(path[k])
  }

  /** Task names the driver can be given without one of its names colliding with its own. */
  predicate ValidName(name: string) {
    PlainComponent(name) && name != "sandbox" && name != "sandbox-dead"
  }

  /** Lexical cleaning of a rooted path, as filepath.Clean does it. */
  function Clean(path: Path): Path {
    if path == [] then []
    else
      var rest, last := Clean(path[..|path| - 1]), path[|path| - 1];
      if last == "" || last == "." then rest
      else if last == ".." then if rest == [] then [] else rest[..|rest| - 1]
      else rest + [last]
  }

  /** filepath.Join of a directory and two elements, either of which may contain separators. */
  function JoinPath(dir: Path, x: string, y: string): Path {
    Clean(dir + Split(x, '/') + Split(y, '/'))
  }

  function TaskConfigDir(stateDir: Path, alloc: string, name: string): Path {
    JoinPath(stateDir, alloc, name)
  }

  function SandboxDeadPath(stateDir: Path, alloc: string): Path {
    JoinPath(stateDir, alloc, "sandbox-dead")
  }

  /** Removing a directory tree removes exactly the paths it is a prefix of. */
  predicate RemovedWith(dir: Path, path: Path) {
    dir <= path
  }

  lemma {:induction false} CleanPlain(path: Path)
    requires PlainPath(path)
    ensures Clean(path) == path
  {
    if path != [] {
      CleanPlain(path[..|path| - 1]);
    }
  }

  /** Plain components are joined as they are. */
  lemma JoinPlain(dir: Path, x: string, y: string)
    requires PlainPath(dir) && PlainComponent(x) && PlainComponent(y)
    ensures JoinPath(dir, x, y) == dir + [x, y]
  {
    SplitFree(x, '/');
    SplitFree(y, '/');
    assert dir + [x] + [y] == dir + [x, y];
    CleanPlain(dir + [x, y]);
  }

  /** Between plain allocation IDs and task names, removing a task's configuration directory clears
      a dead-sandbox marker in one case only. */
  lemma ConfigDirClearsMarker(stateDir: Path, a: string, n: string, b: string)
    requires PlainPath(stateDir) && PlainComponent(a) && PlainComponent(n) && PlainComponent(b)
    ensures RemovedWith(TaskConfigDir(stateDir, a, n), SandboxDeadPath(stateDir, b)) <==> a == b && n == "sandbox-dead"
  {
    MarkerNamePlain();
    JoinPlain(stateDir, a, n);
    JoinPlain(stateDir, b, "sandbox-dead");
    var d, p := stateDir + [a, n], stateDir + [b, "sandbox-dead"];
    var k := |stateDir|;
    assert d[k] == a && d[k + 1] == n && p[k] == b && p[k + 1] == "sandbox-dead";
  }

  lemma MarkerNamePlain()
    ensures PlainComponent("sandbox-dead")
  {
    var m := "sandbox-dead";
    assert |m| == 12;
  }

  /** Other names clear markers: with a separator in its ID an allocation lives in the directory of
      another's task, and a task called by a dot or two names its allocation's directory or the
      whole state directory. */
  lemma OtherNamesClearMarkers(alloc: string, name: string)
    requires PlainComponent(alloc) && PlainComponent(name)
    ensures RemovedWith(TaskConfigDir([], alloc, name), SandboxDeadPath([], alloc + ['/'] + name))
    ensures RemovedWith(TaskConfigDir([], alloc, "."), SandboxDeadPath([], alloc))
    ensures RemovedWith(TaskConfigDir([], alloc, ".."), SandboxDeadPath([], alloc))
  {
    MarkerNamePlain();
    NestedAllocation(alloc, name, "sandbox-dead");
    JoinPlain([], alloc, "sandbox-dead");
    DotNames(alloc);
  }

  lemma NestedAllocation(x: string, y: string, z: string)
    requires PlainComponent(x) && PlainComponent(y) && PlainComponent(z)
    ensures JoinPath([], x, y) <= JoinPath([], x + ['/'] + y, z)
  {
    JoinPlain([], x, y);
    SplitFirst(x, y, '/');
    SplitFree(y, '/');
    SplitFree(z, '/');
    var p := [x, y, z];
    assert [] + ([x] + [y]) + [z] == p;
    CleanPlain(p);
    assert p[..2] == [x, y];
  }

  lemma DotNames(x: string)
    requires PlainComponent(x)
    ensures JoinPath([], x, ".") == [x] && JoinPath([], x, "..") == []
  {
    SplitFree(x, '/');
    CleanPlain([x]);
    forall z | z in [".", ".."]
      ensures JoinPath([], x, z) == if z == "." then [x] else []
    {
      SplitFree(z, '/');
      assert [] + [x] + [z] == [x, z];
      assert [x, z][..1] == [x];
    }
  }

  // ----- Distinctness of the printed IDs -----

  /** When two containers collide: never for allocation IDs of one length, and otherwise
      only if the shorter allocation's task name spells out the rest of the longer ID. */
  lemma ContainerIDCollision(a: string, n: string, b: string, m: string)
    requires |a| <= |b|
    ensures |a| == |b| ==> (ContainerID(a, n) == ContainerID(b, m) <==> a == b && n == m)
    ensures |a| < |b| ==> (ContainerID(a, n) == ContainerID(b, m)
                           <==> a + "-" <= b && n == b[|a| + 1..] + "-" + m)
  {
    var x, y := ContainerID(a, n), ContainerID(b, m);
    assert x[5..][..|a|] == a && x[5 + |a|] == '-' && x[6 + |a|..] == n;
    assert y[5..][..|b|] == b && y[5 + |b|] == '-' && y[6 + |b|..] == m;
    if |a| < |b| {
      assert y[5..] == b + "-" + m;
      assert x[5..] == a + "-" + n;
      if x == y {
        assert b[..|a|] == y[5..][..|a|];
        assert b[|a|] == y[5..][|a|] == '-';
        assert b[..|a| + 1] == a + "-";
        assert y[5..][|a| + 1..] == b[|a| + 1..] + "-" + m;
      }
      if a + "-" <= b && n == b[|a| + 1..] + "-" + m {
        assert b == a + "-" + b[|a| + 1..];
        assert x == y;
      }
    }
  }

  /** Any two allocations have different sandbox IDs. */
  lemma SandboxIDInjective(a: string, b: string)
    ensures SandboxID(a) == SandboxID(b) <==> a == b
  {
    var x, y := SandboxID(a), SandboxID(b);
    assert |x| == |a| + 13 && |y| == |b| + 13;
    assert x[5..5 + |a|] == a;
    assert y[5..5 + |b|] == b;
  }

  predicate ValidCid(c: Cid) {
    c.TaskOf? ==> ValidName(c.name)
  }

  /** For allocation IDs of one length, printing is injective on sandboxes and tasks together. */
  lemma RenderInjective(c: Cid, d: Cid)
    requires |c.alloc| == |d.alloc| && ValidCid(c) && ValidCid(d)
    ensures Render(c) == Render(d) <==> c == d
  {
    var n := if c.TaskOf? then c.name else "sandbox";
    var m := if d.TaskOf? then d.name else "sandbox";
    assert "-sandbox" == "-" + "sandbox";
    assert Render(c) == ContainerID(c.alloc, n) by {
      assert "kata-" + c.alloc + "-sandbox" == "kata-" + c.alloc + "-" + "sandbox";
    }
    assert Render(d) == ContainerID(d.alloc, m) by {
      assert "kata-" + d.alloc + "-sandbox" == "kata-" + d.alloc + "-" + "sandbox";
    }
    ContainerIDCollision(c.alloc, n, d.alloc, m);
  }

  /** Without equal lengths two different tasks can share one container ID. */
  lemma UnequalLengthsCollide()
    ensures ValidName("b-c") && ValidName("c") && ContainerID("a", "b-c") == ContainerID("a-b", "c")
  {
    ContainerIDCollision("a", "b-c", "a-b", "c");
    assert "a" + "-" <= "a-b";
    assert "a-b"[|"a"| + 1..] + "-" + "c" == "b-c";
  }
}
