/** Filtering the host's resolver configuration for use inside a virtual machine. */
module Resolv {
  import opened Text
  import opened Tasks

  /** White space as Go's unicode.IsSpace has it. */
  predicate IsSpace(c: char) {
    var n := c as int;
    9 <= n <= 13 || n == 32 || n == 0x85 || n == 0xA0 || n == 0x1680 || 0x2000 <= n <= 0x200A
    || n == 0x2028 || n == 0x2029 || n == 0x202F || n == 0x205F || n == 0x3000
  }

  predicate NoSpace(s: string) {
    forall i :: 0 <= i < |s| ==> !IsSpace(s[i])
  }

  function TrimLeft(s: string): string {
    if s != "" && IsSpace(s[0]) then TrimLeft(s[1..]) else s
  }

  function TrimRight(s: string): string {
    if s != "" && IsSpace(s[|s| - 1]) then TrimRight(s[..|s| - 1]) else s
  }

  function TrimSpace(s: string): string {
    TrimRight(TrimLeft(s))
  }

  function WordLength(s: string): (n: nat)
    ensures n <= |s|
  {
    if s == "" || IsSpace(s[0]) then 0 else 1 + WordLength(s[1..])
  }

  /** The words of a line. */
  function Fields(s: string): seq<string>
    decreases |s|
  {
    var t := TrimLeft(s);
    if t == "" then [] else
      LeftShorter(s);
      var n := WordLength(t);
      [t[..n]] + Fields(t[n..])
  }

  lemma {:induction false} LeftShorter(s: string)
    ensures |TrimLeft(s)| <= |s|
    ensures TrimLeft(s) != "" ==> !IsSpace(TrimLeft(s)[0])
  {
    if s != "" && IsSpace(s[0]) {
      LeftShorter(s[1..]);
    }
  }

  predicate IsLoopback(addr: string) {
    HasPrefix(addr, "127.") || addr == "::1"
  }

  const NAMESERVER := "nameserver"

  predicate RealNameserver(line: string) {
    HasPrefix(line, NAMESERVER) && |Fields(line)| >= 2 && !IsLoopback(Fields(line)[1])
  }

  /** What is kept of a trimmed line. */
  predicate Kept(line: string) {
    if HasPrefix(line, NAMESERVER) then RealNameserver(line) else line != "" && !HasPrefix(line, "#")
  }

  function Filter(parts: seq<string>): seq<string> {
    FilterTo(parts, |parts|)
  }

  function FilterTo(parts: seq<string>, n: nat): seq<string>
    requires n <= |parts|
  {
    if n == 0 then []
    else
      var line := TrimSpace(parts[n - 1]);
      FilterTo(parts, n - 1) + if Kept(line) then [line] else []
  }

  predicate HasReal(lines: seq<string>) {
    exists k :: 0 <= k < |lines| && RealNameserver(lines[k])
  }

  method FilterResolvConf(data: string) returns (lines: seq<string>, hasReal: bool)
    ensures lines == Filter(Split(data, '\n'))
    ensures hasReal <==> HasReal(lines)
  {
    lines, hasReal := [], false;
    var parts := Split(data, '\n');
    for i := 0 to |parts|
      invariant lines == FilterTo(parts, i)
      invariant hasReal <==> HasReal(lines)
    {
      var line := TrimSpace(parts[i]);
      ghost var before := lines;
      if HasPrefix(line, NAMESERVER) {
        var fields := Fields(line);
        if |fields| >= 2 && !IsLoopback(fields[1]) {
          lines := lines + [line];
          assert RealNameserver(lines[|before|]);
          hasReal := true;
        }
      } else if line != "" && !HasPrefix(line, "#") {
        lines := lines + [line];
        assert HasReal(before) ==> HasReal(lines) by {
          if HasReal(before) {
            var k :| 0 <= k < |before| && RealNameserver(before[k]);
            assert lines[k] == before[k];
          }
        }
      }
    }
  }

  // ----- Filtering again -----

  predicate Trimmed(s: string) {
    s == "" || (!IsSpace(s[0]) && !IsSpace(s[|s| - 1]))
  }

  lemma {:induction false} TrimRightTrims(s: string)
    requires s == "" || !IsSpace(s[0])
    ensures Trimmed(TrimRight(s)) && TrimRight(s) <= s
  {
    if s != "" && IsSpace(s[|s| - 1]) {
      TrimRightTrims(s[..|s| - 1]);
    }
  }

  lemma {:induction false} LeftIsSuffix(s: string)
    ensures |TrimLeft(s)| <= |s| && TrimLeft(s) == s[|s| - |TrimLeft(s)|..]
  {
    if s != "" && IsSpace(s[0]) {
      LeftIsSuffix(s[1..]);
    }
  }

  lemma TrimTrims(s: string, c: char)
    ensures Trimmed(TrimSpace(s)) && TrimSpace(TrimSpace(s)) == TrimSpace(s)
    ensures c !in s ==> c !in TrimSpace(s)
  {
    LeftShorter(s);
    LeftIsSuffix(s);
    TrimRightTrims(TrimLeft(s));
  }

  /** A line the filter lets through as it is. */
  predicate Stable(line: string) {
    Kept(line) && TrimSpace(line) == line && '\n' !in line
  }

  lemma {:induction false} FilteredIsStable(parts: seq<string>, n: nat)
    requires n <= |parts| && FreeOf(parts, '\n')
    ensures forall k :: 0 <= k < |FilterTo(parts, n)| ==> Stable(FilterTo(parts, n)[k])
  {
    if n > 0 {
      FilteredIsStable(parts, n - 1);
      TrimTrims(parts[n - 1], '\n');
    }
  }

  lemma {:induction false} StableIsKept(lines: seq<string>, rest: seq<string>, n: nat)
    requires n <= |lines| && forall k :: 0 <= k < |lines| ==> Stable(lines[k])
    ensures FilterTo(lines + rest, n) == lines[..n]
  {
    if n > 0 {
      StableIsKept(lines, rest, n - 1);
      assert lines[..n] == lines[..n - 1] + [lines[n - 1]];
    }
  }

  lemma StableFixed(lines: seq<string>)
    requires forall k :: 0 <= k < |lines| ==> Stable(lines[k])
    ensures Filter(lines) == lines && Filter(lines + [""]) == lines
  {
    StableIsKept(lines, [], |lines|);
    assert lines + [] == lines;
    StableIsKept(lines, [""], |lines|);
    assert TrimSpace("") == "";
    assert lines[..|lines|] == lines;
  }

  lemma {:induction false} JoinNewline(lines: seq<string>)
    requires lines != []
    ensures Join(lines + [""], '\n') == Join(lines, '\n') + ['\n']
  {
    if |lines| == 1 {
      assert (lines + [""])[1..] == [""];
    } else {
      JoinNewline(lines[1..]);
      assert (lines + [""])[1..] == lines[1..] + [""];
    }
  }

  /** Filtering what filtering printed, with or without a last newline, returns the same lines, and so
      the same flag. */
  lemma FilterFixpoint(data: string)
    ensures var lines := Filter(Split(data, '\n'));
            && Filter(Split(Join(lines, '\n'), '\n')) == lines
            && Filter(Split(Join(lines, '\n') + ['\n'], '\n')) == lines
  {
    var parts := Split(data, '\n');
    var lines := Filter(parts);
    SplitParts(data, '\n');
    FilteredIsStable(parts, |parts|);
    StableFixed(lines);
    if lines == [] {
      assert TrimSpace("") == "";
      assert Split("", '\n') == [""];
      assert Split(['\n'], '\n') == ["", ""] by {
        assert ['\n'][1..] == "";
      }
      assert Filter([""]) == [];
      assert FilterTo(["", ""], 1) == FilterTo(["", ""], 2) == [];
      assert "" + ['\n'] == ['\n'];
    } else {
      SplitJoin(lines, '\n');
      JoinNewline(lines);
      SplitJoin(lines + [""], '\n');
    }
  }

  /** Nothing but stable lines comes out, so no loopback nameserver does. */
  lemma NoLoopback(data: string, k: nat)
    requires k < |Filter(Split(data, '\n'))|
    ensures var line := Filter(Split(data, '\n'))[k];
            Stable(line) && (HasPrefix(line, NAMESERVER) ==> |Fields(line)| >= 2 && !IsLoopback(Fields(line)[1]))
  {
    SplitParts(data, '\n');
    FilteredIsStable(Split(data, '\n'), |Split(data, '\n')|);
  }

  // ----- What becomes of each line -----

  lemma {:induction false} FilterConcat(a: seq<string>, b: seq<string>, n: nat)
    requires n <= |b|
    ensures FilterTo(a + b, |a| + n) == Filter(a) + FilterTo(b, n)
  {
    if n > 0 {
      FilterConcat(a, b, n - 1);
    } else {
      FilterFirst(a, b, |a|);
    }
  }

  lemma {:induction false} FilterFirst(a: seq<string>, b: seq<string>, n: nat)
    requires n <= |a|
    ensures FilterTo(a + b, n) == FilterTo(a, n)
  {
    if n > 0 {
      FilterFirst(a, b, n - 1);
    }
  }

  /** What the filter makes of a line `t` without its outer space. */
  function Outcome(t: string): seq<string> {
    if t == "" || t[0] == '#' then []
    else if "nameserver" <= t && (|Fields(t)| < 2 || "127." <= Fields(t)[1] || Fields(t)[1] == "::1") then []
    else [t]
  }

  /** Each line is dropped or kept by itself, in its place between what is kept of the lines before and
      after it: empty lines, comments and nameserver lines without an address or with a loopback address
      are dropped, and every other line, such as search and options, survives. */
  lemma EachLine(parts: seq<string>, i: nat)
    requires i < |parts|
    ensures Filter(parts) == Filter(parts[..i]) + Outcome(TrimSpace(parts[i])) + Filter(parts[i + 1..])
  {
    var line := [parts[i]];
    FilterConcat(parts[..i], line, 1);
    assert FilterTo(line, 1) == FilterTo(line, 0) + Outcome(TrimSpace(parts[i]));
    FilterConcat(parts[..i] + line, parts[i + 1..], |parts| - i - 1);
    assert parts[..i] + line + parts[i + 1..] == parts;
  }

  // ----- Nameserver lines -----

  lemma {:induction false} WholeWord(w: string, rest: string)
    requires NoSpace(w) && (rest == "" || IsSpace(rest[0]))
    ensures WordLength(w + rest) == |w|
  {
    if w == "" {
      assert w + rest == rest;
    } else {
      assert (w + rest)[1..] == w[1..] + rest;
      WholeWord(w[1..], rest);
    }
  }

  lemma {:induction false} NameserverFields(addr: string)
    requires addr != "" && NoSpace(addr)
    ensures Fields(NAMESERVER + " " + addr) == [NAMESERVER, addr]
  {
    var line := NAMESERVER + " " + addr;
    assert TrimLeft(line) == line;
    WholeWord(NAMESERVER, " " + addr);
    assert NAMESERVER + (" " + addr) == line;
    assert line[|NAMESERVER|..] == " " + addr;
    assert (" " + addr)[1..] == addr;
    assert TrimLeft(" " + addr) == TrimLeft(addr) == addr;
    WholeWord(addr, "");
    assert addr + "" == addr;
    assert Fields(" " + addr) == [addr] + Fields("");
  }

  /** The line for a server keeps a file usable exactly when the server is not a loopback address. */
  lemma NameserverLine(addr: string)
    requires addr != "" && NoSpace(addr)
    ensures RealNameserver(NAMESERVER + " " + addr) <==> !IsLoopback(addr)
  {
    NameserverFields(addr);
  }

  const FALLBACK := [NAMESERVER + " " + "8.8.8.8", NAMESERVER + " " + "1.1.1.1"]

  lemma FallbackIsReal()
    ensures HasReal(FALLBACK)
  {
    var addr := "8.8.8.8";
    NameserverLine(addr);
    assert !IsLoopback(addr) by {
      assert addr[0] == '8' && "127."[0] == '1' && "::1"[0] == ':';
    }
    var line := NAMESERVER + " " + addr;
    assert RealNameserver(line);
    assert FALLBACK[0] == line;
  }

  /** Whether a file can be read and has a nameserver to offer. */
  predicate Usable(file: Option<string>) {
    file.Some? && HasReal(Filter(Split(file.value, '\n')))
  }

  /** The lines of the first usable file, or the fallback. */
  function Chosen(files: seq<Option<string>>): seq<string> {
    if files == [] then FALLBACK
    else if Usable(files[0]) then Filter(Split(files[0].value, '\n'))
    else Chosen(files[1..])
  }

  lemma {:induction false} ChosenIsReal(files: seq<Option<string>>)
    ensures HasReal(Chosen(files))
  {
    if files == [] {
      FallbackIsReal();
    } else if !Usable(files[0]) {
      ChosenIsReal(files[1..]);
    }
  }

  /** Whatever the files hold, and whichever can be read, the result has a nameserver that is not a
      loopback address. */
  method HostResolvConf(files: seq<Option<string>>) returns (lines: seq<string>)
    ensures lines == Chosen(files) && HasReal(lines)
  {
    ChosenIsReal(files);
    for i := 0 to |files|
      invariant Chosen(files) == Chosen(files[i..])
    {
      assert files[i..][1..] == files[i + 1..];
      if files[i].Some? {
        var kept, hasReal := FilterResolvConf(files[i].value);
        if hasReal {
          return kept;
        }
      }
    }
    return FALLBACK;
  }

  predicate AnyUsable(files: seq<Option<string>>) {
    files != [] && (Usable(files[0]) || AnyUsable(files[1..]))
  }

  lemma {:induction false} ChosenIsFiltered(files: seq<Option<string>>)
    requires AnyUsable(files)
    ensures Filter(Split(Join(Chosen(files), '\n') + ['\n'], '\n')) == Chosen(files)
  {
    if Usable(files[0]) {
      FilterFixpoint(files[0].value);
    } else {
      ChosenIsFiltered(files[1..]);
    }
  }

  /** A file written from a chosen configuration is itself chosen before all others, and gives the
      same lines. */
  lemma {:induction false} ChosenFixpoint(files: seq<Option<string>>, others: seq<Option<string>>)
    requires AnyUsable(files)
    ensures Chosen([Some(Join(Chosen(files), '\n') + ['\n'])] + others) == Chosen(files)
  {
    ChosenIsFiltered(files);
    ChosenIsReal(files);
  }
}
