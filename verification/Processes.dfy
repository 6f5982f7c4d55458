/** Which processes belong to a sandbox. */
module Processes {
  import opened Names
  import opened Text

  const NUL := '\0'

  /** A command line as the kernel shows it: every argument ended by a NUL. */
  function CommandLine(args: seq<string>): string {
    if args == [] then "" else args[0] + [NUL] + CommandLine(args[1..])
  }

  function TrimNul(s: string): string {
    if s != "" && s[|s| - 1] == NUL then s[..|s| - 1] else s
  }

  function Arguments(commandLine: string): seq<string> {
    Split(TrimNul(commandLine), NUL)
  }

  lemma {:induction false} CommandLineJoins(args: seq<string>)
    requires args != []
    ensures CommandLine(args) == Join(args, NUL) + [NUL]
  {
    if |args| == 1 {
      assert CommandLine(args[1..]) == "";
    } else {
      CommandLineJoins(args[1..]);
      assert args[0] + [NUL] + (Join(args[1..], NUL) + [NUL]) == args[0] + [NUL] + Join(args[1..], NUL) + [NUL];
    }
  }

  /** Splitting a command line recovers the arguments, empty ones included. */
  lemma ArgumentsRecovered(args: seq<string>)
    requires args != [] && FreeOf(args, NUL)
    ensures Arguments(CommandLine(args)) == args
  {
    CommandLineJoins(args);
    assert TrimNul(CommandLine(args)) == Join(args, NUL);
    SplitJoin(args, NUL);
  }

  /** The byte search over a whole command line finds a NUL-free text exactly when one single
      argument contains it. */
  lemma {:induction false} FoundInOneArgument(args: seq<string>, sub: string)
    requires sub != "" && NUL !in sub
    ensures Contains(CommandLine(args), sub) <==> exists k :: 0 <= k < |args| && Contains(args[k], sub)
  {
    if args == [] {
      assert CommandLine(args) == "";
    } else {
      FoundInOneArgument(args[1..], sub);
      ContainsAroundSeparator(args[0], CommandLine(args[1..]), NUL, sub);
      if exists k :: 0 <= k < |args| && Contains(args[k], sub) {
        var k :| 0 <= k < |args| && Contains(args[k], sub);
        assert k > 0 ==> args[1..][k - 1] == args[k];
      }
    }
  }

  // ----- Options -----

  predicate HasValue(args: seq<string>, option: string, value: string) {
    exists k :: 0 <= k && k + 1 < |args| && args[k] == option && args[k + 1] == value
  }

  method HasArgumentValue(args: seq<string>, option: string, value: string) returns (found: bool)
    ensures found <==> HasValue(args, option, value)
  {
    var index := 0;
    while index + 1 < |args|
      invariant 0 <= index && (index < |args| || |args| == 0)
      invariant forall k :: 0 <= k < index && k + 1 < |args| ==> !(args[k] == option && args[k + 1] == value)
    {
      if args[index] == option && args[index + 1] == value {
        return true;
      }
      index := index + 1;
    }
    return false;
  }

  const QEMU := "qemu-system-x86_64"
  const VIRTIOFSD := "virtiofsd"
  const SHIM := "containerd-shim-kata-v2"

  predicate Matches(executable: string, commandLine: string, id: string) {
    if Contains(executable, QEMU) then HasValue(Arguments(commandLine), "-name", "sandbox-" + id)
    else if executable == VIRTIOFSD then Contains(commandLine, "/" + id + "/")
    else executable == SHIM && HasValue(Arguments(commandLine), "-id", id)
  }

  method SandboxProcessMatches(executable: string, commandLine: string, id: string) returns (matches: bool)
    ensures matches <==> Matches(executable, commandLine, id)
  {
    var args := Arguments(commandLine);
    if Contains(executable, QEMU) {
      matches := HasArgumentValue(args, "-name", "sandbox-" + id);
    } else if executable == VIRTIOFSD {
      matches := Contains(commandLine, "/" + id + "/");
    } else if executable == SHIM {
      matches := HasArgumentValue(args, "-id", id);
    } else {
      matches := false;
    }
  }

  predicate OnceAmong(args: seq<string>, option: string) {
    forall j, k :: 0 <= j < |args| && 0 <= k < |args| && args[j] == option && args[k] == option ==> j == k
  }

  /** A QEMU or shim process whose command line carries its naming option once belongs to the
      sandbox of at most one allocation. */
  lemma OneAllocation(executable: string, commandLine: string, a: string, b: string)
    requires Contains(executable, QEMU) || executable != VIRTIOFSD
    requires OnceAmong(Arguments(commandLine), if Contains(executable, QEMU) then "-name" else "-id")
    requires Matches(executable, commandLine, SandboxID(a)) && Matches(executable, commandLine, SandboxID(b))
    ensures a == b
  {
    SandboxIDInjective(a, b);
    if Contains(executable, QEMU) {
      assert "sandbox-" + SandboxID(a) == "sandbox-" + SandboxID(b);
      assert ("sandbox-" + SandboxID(a))[8..] == SandboxID(a);
      assert ("sandbox-" + SandboxID(b))[8..] == SandboxID(b);
    }
  }

  lemma TooShort(s: string, sub: string)
    requires |s| < |sub|
    ensures !Contains(s, sub)
  {
  }

  /** A virtiofsd process matches exactly when one of its arguments has the sandbox ID as a whole
      inner path component. */
  lemma VirtiofsdMatch(args: seq<string>, id: string)
    requires NUL !in id
    ensures Matches(VIRTIOFSD, CommandLine(args), id)
            <==> exists k :: 0 <= k < |args| && Contains(args[k], "/" + id + "/")
  {
    TooShort(VIRTIOFSD, QEMU);
    FoundInOneArgument(args, "/" + id + "/");
  }

  /** Which processes with a readable command line belong to the sandbox, by executable: a QEMU with an
      argument -name directly followed by "sandbox-" and the ID, a shim with -id directly followed by the
      ID, a virtiofsd with the ID between two slashes in one argument, and no other. */
  lemma MatchesByArguments(executable: string, args: seq<string>, id: string)
    requires args != [] && FreeOf(args, NUL) && NUL !in id
    ensures Matches(executable, CommandLine(args), id) <==>
            if Contains(executable, "qemu-system-x86_64") then
              exists k :: 0 <= k < |args| - 1 && args[k] == "-name" && args[k + 1] == "sandbox-" + id
            else if executable == "containerd-shim-kata-v2" then
              exists k :: 0 <= k < |args| - 1 && args[k] == "-id" && args[k + 1] == id
            else executable == "virtiofsd" && exists k :: 0 <= k < |args| && Contains(args[k], "/" + id + "/")
  {
    ArgumentsRecovered(args);
    if executable == VIRTIOFSD {
      VirtiofsdMatch(args, id);
    }
  }

  // ----- The process table -----

  /** A directory entry of the process table: its name as a number, its executable's base name and
      its command line, each if it can be read. */
  datatype ProcessEntry = ProcessEntry(pid: OptionalInt, executable: OptionalText, commandLine: OptionalText)

  datatype OptionalInt = NotANumber | Number(value: int)

  datatype OptionalText = Unreadable | Readable(text: string)

  predicate Selected(e: ProcessEntry, id: string) {
    && e.pid.Number? && e.executable.Readable? && e.commandLine.Readable?
    && Matches(e.executable.text, e.commandLine.text, id)
  }

  function Select(entries: seq<ProcessEntry>, id: string): seq<int> {
    if entries == [] then []
    else (if Selected(entries[0], id) then [entries[0].pid.value] else []) + Select(entries[1..], id)
  }

  lemma {:induction false} SelectAppend(entries: seq<ProcessEntry>, e: ProcessEntry, id: string)
    ensures Select(entries + [e], id) == Select(entries, id) + if Selected(e, id) then [e.pid.value] else []
  {
    if entries == [] {
      assert [e][1..] == [];
    } else {
      SelectAppend(entries[1..], e, id);
      assert (entries + [e])[1..] == entries[1..] + [e];
    }
  }

  /** Exactly the processes of selected entries are listed. */
  lemma {:induction false} SelectExactly(entries: seq<ProcessEntry>, id: string, pid: int)
    ensures pid in Select(entries, id)
            <==> exists k :: 0 <= k < |entries| && Selected(entries[k], id) && entries[k].pid.value == pid
  {
    if entries != [] {
      SelectExactly(entries[1..], id, pid);
      if exists k :: 0 <= k < |entries| && Selected(entries[k], id) && entries[k].pid.value == pid {
        var k :| 0 <= k < |entries| && Selected(entries[k], id) && entries[k].pid.value == pid;
        assert k > 0 ==> entries[1..][k - 1] == entries[k];
      }
    }
  }

  method SandboxProcessIDs(entries: seq<ProcessEntry>, id: string) returns (pids: seq<int>)
    ensures pids == Select(entries, id)
  {
    pids := [];
    for index := 0 to |entries|
      invariant pids == Select(entries[..index], id)
    {
      var e := entries[index];
      if e.pid.Number? && e.executable.Readable? && e.commandLine.Readable? {
        var matches := SandboxProcessMatches(e.executable.text, e.commandLine.text, id);
        if matches {
          pids := pids + [e.pid.value];
        }
      }
      SelectAppend(entries[..index], e, id);
      assert entries[..index] + [e] == entries[..index + 1];
    }
    assert entries[..|entries|] == entries;
  }
}
