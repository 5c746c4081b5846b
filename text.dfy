/**
 * String helpers shared by the model: Python's `str.endswith`, `str.upper`,
 * the substring test `a in b`, `str.replace`, and the splitting of a Windows
 * path string into its components.
 */
module Text {

  /** `prefix` is an initial segment of `s`. */
  predicate IsPrefix<T(==)>(prefix: seq<T>, s: seq<T>)
  {
    |prefix| <= |s| && s[..|prefix|] == prefix
  }

  /** Python's `s.endswith(suffix)`. */
  predicate EndsWith(s: string, suffix: string)
  {
    |suffix| <= |s| && s[|s| - |suffix|..] == suffix
  }

  /** `pat` occurs in `s` starting at index `i`. */
  predicate OccursAt(s: string, pat: string, i: nat)
  {
    i + |pat| <= |s| && s[i..i + |pat|] == pat
  }

  /** Python's substring test `sub in s`. */
  predicate Contains(s: string, sub: string)
  {
    exists i :: 0 <= i <= |s| && OccursAt(s, sub, i)
  }

  /** No character of `s` is in `cs`. */
  predicate NoneOf(s: string, cs: set<char>)
  {
    forall i :: 0 <= i < |s| ==> s[i] !in cs
  }

  /** The upper-case form of an ASCII letter; every other character is kept. */
  function UpperChar(c: char): (u: char)
    ensures 'a' <= c <= 'z' ==> 'A' <= u <= 'Z'
    ensures !('a' <= c <= 'z') ==> u == c
  {
    if 'a' <= c <= 'z' then (c as int - 32) as char else c
  }

  /** `s.upper()` restricted to ASCII letters. */
  function Upper(s: string): (u: string)
    ensures |u| == |s|
    ensures forall i :: 0 <= i < |s| ==> u[i] == UpperChar(s[i])
  {
    if s == [] then [] else [UpperChar(s[0])] + Upper(s[1..])
  }

  // ---------------------------------------------------------------------------
  // str.replace, and the split/join view that characterises it
  // ---------------------------------------------------------------------------

  /** Python's `rep` inserted before every character of `s` and at its end:
      what `s.replace('', rep)` returns. */
  function Interleave(s: string, rep: string): (r: string)
    ensures |r| == |s| + (|s| + 1) * |rep|
  {
    if s == [] then rep else rep + [s[0]] + Interleave(s[1..], rep)
  }

  /** Python's `s.replace(pat, rep)`: leftmost, non-overlapping occurrences of
      `pat` are replaced, scanning from the left. */
  function ReplaceAll(s: string, pat: string, rep: string): string
    decreases |s|
  {
    if |pat| == 0 then Interleave(s, rep)
    else if |s| < |pat| then s
    else if s[..|pat|] == pat then rep + ReplaceAll(s[|pat|..], pat, rep)
    else [s[0]] + ReplaceAll(s[1..], pat, rep)
  }

  /** The pieces of `s` between leftmost non-overlapping occurrences of `pat`
      (Python's `s.split(pat)`). */
  function Split(s: string, pat: string): (parts: seq<string>)
    requires |pat| > 0
    ensures |parts| >= 1
    decreases |s|
  {
    if |s| < |pat| then [s]
    else if s[..|pat|] == pat then [[]] + Split(s[|pat|..], pat)
    else
      var rest := Split(s[1..], pat);
      [[s[0]] + rest[0]] + rest[1..]
  }

  /** Python's `sep.join(parts)`. */
  function Join(parts: seq<string>, sep: string): string
  {
    if parts == [] then []
    else if |parts| == 1 then parts[0]
    else parts[0] + sep + Join(parts[1..], sep)
  }

  lemma JoinConsFirst(p: string, c: char, rest: seq<string>, sep: string)
    requires |rest| >= 1
    ensures Join([[c] + p] + rest[1..], sep) == [c] + Join([p] + rest[1..], sep)
  {
    var a := [[c] + p] + rest[1..];
    var b := [p] + rest[1..];
    if |rest| == 1 {
      assert a == [[c] + p] && b == [p];
    } else {
      assert a[1..] == rest[1..] && b[1..] == rest[1..];
    }
  }

  lemma JoinCons(p: string, rest: seq<string>, sep: string)
    requires |rest| >= 1
    ensures Join([p] + rest, sep) == p + sep + Join(rest, sep)
  {
    assert ([p] + rest)[1..] == rest;
  }

  /** Joining the pieces with the pattern gives the string back. */
  lemma {:induction false} JoinSplit(s: string, pat: string)
    requires |pat| > 0
    ensures Join(Split(s, pat), pat) == s
    decreases |s|
  {
    if |s| < |pat| {
    } else if s[..|pat|] == pat {
      var rest := Split(s[|pat|..], pat);
      assert Split(s, pat) == [[]] + rest;
      JoinSplit(s[|pat|..], pat);
      JoinCons([], rest, pat);
      assert s == pat + s[|pat|..];
    } else {
      var rest := Split(s[1..], pat);
      assert Split(s, pat) == [[s[0]] + rest[0]] + rest[1..];
      JoinSplit(s[1..], pat);
      JoinConsFirst(rest[0], s[0], rest, pat);
      assert [rest[0]] + rest[1..] == rest;
      assert s == [s[0]] + s[1..];
    }
  }

  /** `replace` is splitting at the pattern and joining with the replacement:
      the text between occurrences is kept and each occurrence becomes `rep`. */
  lemma {:induction false} ReplaceIsJoinSplit(s: string, pat: string, rep: string)
    requires |pat| > 0
    ensures ReplaceAll(s, pat, rep) == Join(Split(s, pat), rep)
    decreases |s|
  {
    if |s| < |pat| {
    } else if s[..|pat|] == pat {
      var rest := Split(s[|pat|..], pat);
      assert Split(s, pat) == [[]] + rest;
      ReplaceIsJoinSplit(s[|pat|..], pat, rep);
      JoinCons([], rest, rep);
    } else {
      var rest := Split(s[1..], pat);
      assert Split(s, pat) == [[s[0]] + rest[0]] + rest[1..];
      ReplaceIsJoinSplit(s[1..], pat, rep);
      JoinConsFirst(rest[0], s[0], rest, rep);
      assert [rest[0]] + rest[1..] == rest;
    }
  }

  /** A string in which the pattern does not occur is left as it is. */
  lemma {:induction false} ReplaceAbsent(s: string, pat: string, rep: string)
    requires |pat| > 0 && !Contains(s, pat)
    ensures ReplaceAll(s, pat, rep) == s
    decreases |s|
  {
    if |s| < |pat| {
    } else {
      assert !OccursAt(s, pat, 0);
      assert s[..|pat|] != pat;
      forall i: nat ensures !OccursAt(s[1..], pat, i) {
        if OccursAt(s[1..], pat, i) {
          assert s[1..][i..i + |pat|] == s[i + 1..i + 1 + |pat|];
          assert OccursAt(s, pat, i + 1);
        }
      }
      ReplaceAbsent(s[1..], pat, rep);
      assert s == [s[0]] + s[1..];
    }
  }

  /** Replacing a pattern by itself changes nothing. */
  lemma ReplaceBySelf(s: string, pat: string)
    requires |pat| > 0
    ensures ReplaceAll(s, pat, pat) == s
  {
    ReplaceIsJoinSplit(s, pat, pat);
    JoinSplit(s, pat);
  }

  // ---------------------------------------------------------------------------
  // Windows path strings
  // ---------------------------------------------------------------------------

  /** Both separators the Windows file APIs accept. */
  predicate IsSep(c: char)
  {
    c == '\\' || c == '/'
  }

  /** The component being read, as a list of at most one component. */
  function Flush(cur: string): seq<string>
  {
    if cur == [] then [] else [cur]
  }

  /** Reads `s` after the characters `cur` of the current component. */
  function ComponentsAfter(s: string, cur: string): seq<string>
    decreases |s|
  {
    if s == [] then Flush(cur)
    else if IsSep(s[0]) then Flush(cur) + ComponentsAfter(s[1..], [])
    else ComponentsAfter(s[1..], cur + [s[0]])
  }

  /** The non-empty components of a path string, in order: repeated
      separators count as one. Case, `.` and `..` are kept as written. */
  function Components(s: string): seq<string>
  {
    ComponentsAfter(s, [])
  }

  lemma {:induction false} ComponentsAfterJoin(a: string, b: string, cur: string)
    ensures ComponentsAfter(a + "\\" + b, cur) == ComponentsAfter(a, cur) + ComponentsAfter(b, [])
    decreases |a|
  {
    var s := a + "\\" + b;
    if a == [] {
      assert s == "\\" + b && s[1..] == b;
    } else if IsSep(a[0]) {
      assert s[0] == a[0] && s[1..] == a[1..] + "\\" + b;
      ComponentsAfterJoin(a[1..], b, []);
    } else {
      assert s[0] == a[0] && s[1..] == a[1..] + "\\" + b;
      ComponentsAfterJoin(a[1..], b, cur + [a[0]]);
    }
  }

  /** Joining two path strings with a backslash concatenates their components:
      `Components(a + "\\" + b) == Components(a) + Components(b)`. */
  lemma ComponentsJoin(a: string, b: string)
    ensures Components(a + "\\" + b) == Components(a) + Components(b)
  {
    ComponentsAfterJoin(a, b, []);
  }

  /** A single path component: non-empty and free of separators. */
  predicate IsName(s: string)
  {
    s != [] && forall i :: 0 <= i < |s| ==> !IsSep(s[i])
  }

  lemma {:induction false} ComponentsAfterName(s: string, cur: string)
    requires forall i :: 0 <= i < |s| ==> !IsSep(s[i])
    requires cur + s != []
    ensures ComponentsAfter(s, cur) == [cur + s]
    decreases |s|
  {
    if s == [] {
      assert cur + s == cur;
    } else {
      ComponentsAfterName(s[1..], cur + [s[0]]);
      assert cur + [s[0]] + s[1..] == cur + s;
    }
  }

  /** A name on its own is one component. */
  lemma ComponentsName(s: string)
    requires IsName(s)
    ensures Components(s) == [s]
  {
    ComponentsAfterName(s, []);
    assert [] + s == s;
  }

  /** The text `\r1\r2...` that appends the components `rel` to a path. */
  function Suffix(rel: seq<string>): string
  {
    if rel == [] then [] else "\\" + rel[0] + Suffix(rel[1..])
  }

  /** Appending `Suffix(rel)` to a path string appends `rel` to its components. */
  lemma {:induction false} ComponentsSuffix(x: string, rel: seq<string>)
    requires forall i :: 0 <= i < |rel| ==> IsName(rel[i])
    ensures Components(x + Suffix(rel)) == Components(x) + rel
    decreases |rel|
  {
    if rel == [] {
      assert x + [] == x;
    } else {
      var y := x + "\\" + rel[0];
      assert x + Suffix(rel) == y + Suffix(rel[1..]);
      ComponentsSuffix(y, rel[1..]);
      ComponentsJoin(x, rel[0]);
      ComponentsName(rel[0]);
      assert Components(x) + [rel[0]] + rel[1..] == Components(x) + rel;
    }
  }
}
