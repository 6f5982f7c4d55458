/** Splitting, joining and searching strings. */
module Text {

  function Split(s: string, sep: char): (parts: seq<string>)
    ensures parts != []
  {
    if s == "" then [""]
    else
      var rest := Split(s[1..], sep);
      if s[0] == sep then [""] + rest else [[s[0]] + rest[0]] + rest[1..]
  }

  function Join(parts: seq<string>, sep: char): string {
    if parts == [] then ""
    else if |parts| == 1 then parts[0]
    else parts[0] + [sep] + Join(parts[1..], sep)
  }

  predicate FreeOf(parts: seq<string>, c: char) {
    forall k :: 0 <= k < |parts| ==> c !in parts[k]
  }

  lemma {:induction false} SplitFree(s: string, sep: char)
    requires sep !in s
    ensures Split(s, sep) == [s]
  {
    if s != "" {
      SplitFree(s[1..], sep);
      assert [s[0]] + s[1..] == s;
    }
  }

  lemma {:induction false} SplitFirst(p: string, rest: string, sep: char)
    requires sep !in p
    ensures Split(p + [sep] + rest, sep) == [p] + Split(rest, sep)
  {
    var s := p + [sep] + rest;
    if p == "" {
      assert s[1..] == rest;
    } else {
      assert s[1..] == p[1..] + [sep] + rest;
      SplitFirst(p[1..], rest, sep);
      assert [p[0]] + p[1..] == p;
    }
  }

  lemma {:induction false} SplitJoin(parts: seq<string>, sep: char)
    requires parts != [] && FreeOf(parts, sep)
    ensures Split(Join(parts, sep), sep) == parts
  {
    if |parts| == 1 {
      SplitFree(parts[0], sep);
    } else {
      SplitJoin(parts[1..], sep);
      SplitFirst(parts[0], Join(parts[1..], sep), sep);
      assert [parts[0]] + parts[1..] == parts;
    }
  }

  lemma {:induction false} SplitParts(s: string, sep: char)
    ensures FreeOf(Split(s, sep), sep)
  {
    if s != "" {
      SplitParts(s[1..], sep);
    }
  }

  // ----- Substrings -----

  predicate OccursAt(s: string, sub: string, i: int) {
    0 <= i && i + |sub| <= |s| && s[i..i + |sub|] == sub
  }

  predicate Contains(s: string, sub: string) {
    exists i :: 0 <= i <= |s| && OccursAt(s, sub, i)
  }

  predicate HasPrefix(s: string, p: string) {
    p <= s
  }

  /** A non-empty substring without the separator lies on one side of it. */
  lemma ContainsAroundSeparator(p: string, rest: string, sep: char, sub: string)
    requires sep !in sub && sub != ""
    ensures Contains(p + [sep] + rest, sub) <==> Contains(p, sub) || Contains(rest, sub)
  {
    var s := p + [sep] + rest;
    if Contains(p, sub) {
      var i :| 0 <= i <= |p| && OccursAt(p, sub, i);
      assert s[i..i + |sub|] == p[i..i + |sub|];
      assert OccursAt(s, sub, i);
    }
    if Contains(rest, sub) {
      var i :| 0 <= i <= |rest| && OccursAt(rest, sub, i);
      var j := |p| + 1 + i;
      assert s[j..j + |sub|] == rest[i..i + |sub|];
      assert OccursAt(s, sub, j);
    }
    if Contains(s, sub) {
      var i :| 0 <= i <= |s| && OccursAt(s, sub, i);
      OneSide(p, rest, sep, sub, i);
    }
  }

  lemma CoveredOccurs(s: string, sub: string, i: nat)
    requires OccursAt(s, sub, i)
    ensures forall k :: i <= k < i + |sub| ==> s[k] in sub
  {
    assert forall k :: i <= k < i + |sub| ==> s[k] == sub[k - i];
  }

  lemma OneSide(p: string, rest: string, sep: char, sub: string, i: nat)
    requires sep !in sub && sub != "" && OccursAt(p + [sep] + rest, sub, i)
    ensures Contains(p, sub) || Contains(rest, sub)
  {
    var s := p + [sep] + rest;
    CoveredOccurs(s, sub, i);
    assert s[|p|] == sep;
    if i > |p| {
      var j := i - |p| - 1;
      assert rest[j..j + |sub|] == s[i..i + |sub|];
      assert OccursAt(rest, sub, j);
    } else {
      assert p[i..i + |sub|] == s[i..i + |sub|];
      assert OccursAt(p, sub, i);
    }
  }
}
