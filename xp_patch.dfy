/**
 * `xp_compat` (sys/meson.py:139-157): the Visual Studio platform toolset
 * named in `REGEN.vcxproj` is translated to its Windows XP variant (the
 * name with `_xp` appended) in every `.vcxproj` below the build directory,
 * unless it already is an XP toolset.
 *
 * The toolset is what the pattern `<PlatformToolset>(.*)</PlatformToolset>`
 * captures; the regular expression engine is a parameter `toolset` that
 * may find nothing. The project files are the files of the modelled
 * filesystem.
 */
module XpPatch {
  import opened Results
  import opened Text
  import opened FileSystem

  const XpSuffix: string := "_xp"

  /** What `xp_compat` does with the toolset it read. */
  datatype Decision = AlreadyXp | Translate(from: string, to: string)

  /** The decision as the source makes it: only a toolset already ending in
      `_xp` is skipped (sys/meson.py:145-150). */
  function DecideAsWritten(version: string): (d: Decision)
    ensures d == AlreadyXp <==> EndsWith(version, XpSuffix)
    ensures d.Translate? ==> d == Translate(version, version + XpSuffix)
  {
    if EndsWith(version, XpSuffix) then AlreadyXp else Translate(version, version + XpSuffix)
  }

  /** The corrected decision: an empty toolset is skipped as well, since it
      names nothing to translate. The script does not do this; see
      `EmptyToolsetGarbles` and `EmptyToolsetSkipped`. */
  function Decide(version: string): (d: Decision)
    ensures d.Translate? <==> version != "" && !EndsWith(version, XpSuffix)
    ensures d.Translate? ==> d == Translate(version, version + XpSuffix) && |d.from| > 0
  {
    if version == "" || EndsWith(version, XpSuffix) then AlreadyXp
    else Translate(version, version + XpSuffix)
  }

  /** The text of one project file after `c.replace(version, newversion)`. */
  function Rewrite(c: string, d: Decision): string
  {
    match d
    case AlreadyXp => c
    case Translate(from, to) => ReplaceAll(c, from, to)
  }

  /** The exceptions `xp_compat` can raise. */
  datatype XpError =
    | RegenMissing(regen: Path)   // REGEN.vcxproj cannot be opened
    | NoToolset                   // the pattern finds no toolset
    | ProjectMissing(file: Path)  // a project file cannot be opened

  /** The loop over the project files: each is read, rewritten and written
      back in turn; the first file that cannot be opened ends the loop, with
      the files before it already rewritten. */
  function RewriteEach(files: map<Path, string>, projects: seq<Path>, d: Decision)
    : (r: (map<Path, string>, Option<Path>))
    ensures r.0.Keys == files.Keys
    decreases |projects|
  {
    if projects == [] then (files, None)
    else if projects[0] !in files then (files, Some(projects[0]))
    else
      var p := projects[0];
      RewriteEach(files[p := Rewrite(files[p], d)], projects[1..], d)
  }

  /** The patch on a filesystem with a given decision rule: `regen` is
      `REGEN.vcxproj` in the build directory and `projects` what the
      recursive glob for `*.vcxproj` yields. */
  function PatchWith(fs: Fs, regen: Path, projects: seq<Path>, toolset: string -> Option<string>,
                     decide: string -> Decision): (Fs, Option<XpError>)
  {
    if regen !in fs.files then (fs, Some(RegenMissing(regen)))
    else
      match toolset(fs.files[regen])
      case None => (fs, Some(NoToolset))
      case Some(v) =>
        var d := decide(v);
        if d == AlreadyXp then (fs, None)
        else
          var (files, missing) := RewriteEach(fs.files, projects, d);
          (Fs(fs.dirs, files), if missing.None? then None else Some(ProjectMissing(missing.value)))
  }

  /** The outcome of `xp_compat` as the script computes it. */
  function XpResult(fs: Fs, regen: Path, projects: seq<Path>, toolset: string -> Option<string>)
    : (Fs, Option<XpError>)
  {
    PatchWith(fs, regen, projects, toolset, DecideAsWritten)
  }

  /** The outcome with the corrected decision. */
  function XpResultIntended(fs: Fs, regen: Path, projects: seq<Path>, toolset: string -> Option<string>)
    : (Fs, Option<XpError>)
  {
    PatchWith(fs, regen, projects, toolset, Decide)
  }

  // ---------------------------------------------------------------------------
  // What the loop does to each file
  // ---------------------------------------------------------------------------

  /** Each path at most once, as a glob yields them. */
  predicate Distinct(ps: seq<Path>)
  {
    forall i, j :: 0 <= i < j < |ps| ==> ps[i] != ps[j]
  }

  /** When every project file can be opened, each of them is rewritten once
      and every other file keeps its text. */
  lemma {:induction false} RewriteEachEffect(files: map<Path, string>, projects: seq<Path>, d: Decision)
    requires Distinct(projects) && forall i :: 0 <= i < |projects| ==> projects[i] in files
    ensures RewriteEach(files, projects, d).1.None?
    ensures forall p :: p in files ==>
      RewriteEach(files, projects, d).0[p] == if p in projects then Rewrite(files[p], d) else files[p]
    decreases |projects|
  {
    if projects != [] {
      var p := projects[0];
      var files' := files[p := Rewrite(files[p], d)];
      var rest := projects[1..];
      assert Distinct(rest) by {
        forall i, j | 0 <= i < j < |rest| ensures rest[i] != rest[j] {
          assert rest[i] == projects[i + 1] && rest[j] == projects[j + 1];
        }
      }
      assert forall i :: 0 <= i < |rest| ==> rest[i] in files' by {
        forall i | 0 <= i < |rest| ensures rest[i] in files' {
          assert rest[i] == projects[i + 1];
        }
      }
      assert p !in rest by {
        forall i | 0 <= i < |rest| ensures rest[i] != p {
          assert rest[i] == projects[i + 1];
        }
      }
      RewriteEachEffect(files', rest, d);
      forall q | q in files ensures q in projects <==> q == p || q in rest {
        assert projects == [p] + rest;
      }
    }
  }

  /** The first project file that cannot be opened is the one reported. */
  lemma {:induction false} RewriteEachStops(files: map<Path, string>, projects: seq<Path>, d: Decision, k: nat)
    requires k < |projects| && projects[k] !in files
    requires forall i :: 0 <= i < k ==> projects[i] in files
    ensures RewriteEach(files, projects, d).1 == Some(projects[k])
    decreases k
  {
    if k > 0 {
      var p := projects[0];
      var files' := files[p := Rewrite(files[p], d)];
      assert projects[1..][k - 1] == projects[k];
      RewriteEachStops(files', projects[1..], d, k - 1);
    }
  }

  // ---------------------------------------------------------------------------
  // The text rewrite
  // ---------------------------------------------------------------------------

  /** The translation keeps the text between occurrences of the old toolset
      and puts the new one at each occurrence (an empty toolset occurs
      between every two characters); a file without the old toolset is left
      as it is. */
  lemma TranslateShape(c: string, version: string)
    requires DecideAsWritten(version).Translate?
    ensures version != "" ==> Rewrite(c, DecideAsWritten(version)) == Join(Split(c, version), version + XpSuffix)
    ensures version == "" ==> Rewrite(c, DecideAsWritten(version)) == Interleave(c, XpSuffix)
    ensures !Contains(c, version) ==> Rewrite(c, DecideAsWritten(version)) == c
  {
    if version == "" {
      assert OccursAt(c, version, 0);
    } else {
      ReplaceIsJoinSplit(c, version, version + XpSuffix);
      if !Contains(c, version) {
        ReplaceAbsent(c, version, version + XpSuffix);
      }
    }
  }

  /** Replacing a pattern by something longer never shortens the text, and
      lengthens it when the pattern occurs. */
  lemma {:induction false} ReplaceGrows(s: string, pat: string, rep: string)
    requires |pat| > 0 && |rep| > |pat|
    ensures |ReplaceAll(s, pat, rep)| >= |s|
    ensures Contains(s, pat) ==> |ReplaceAll(s, pat, rep)| > |s|
    decreases |s|
  {
    if |s| < |pat| {
    } else if s[..|pat|] == pat {
      ReplaceGrows(s[|pat|..], pat, rep);
    } else {
      ReplaceGrows(s[1..], pat, rep);
      if Contains(s, pat) {
        var i :| 0 <= i <= |s| && OccursAt(s, pat, i);
        assert i != 0;
        assert s[1..][i - 1..i - 1 + |pat|] == s[i..i + |pat|];
        assert OccursAt(s[1..], pat, i - 1);
      }
    }
  }

  /** An occurrence past the first character is an occurrence in the tail. */
  lemma OccursInTail(s: string, pat: string, i: nat)
    requires OccursAt(s, pat, i) && i > 0
    ensures OccursAt(s[1..], pat, i - 1)
  {
    assert s[1..][i - 1..i - 1 + |pat|] == s[i..i + |pat|];
  }

  /** An occurrence in a text is one more character in when a character is
      put in front. */
  lemma OccursAfterHead(x: char, t: string, pat: string, j: nat)
    requires OccursAt(t, pat, j)
    ensures OccursAt([x] + t, pat, j + 1)
  {
    assert ([x] + t)[j + 1..j + 1 + |pat|] == t[j..j + |pat|];
  }

  /** A replacement that begins with the pattern leaves the pattern in the
      text wherever it was found. */
  lemma {:induction false} ReplaceKeepsPattern(s: string, pat: string, rep: string)
    requires |pat| > 0 && IsPrefix(pat, rep) && Contains(s, pat)
    ensures Contains(ReplaceAll(s, pat, rep), pat)
    decreases |s|
  {
    var i :| 0 <= i <= |s| && OccursAt(s, pat, i);
    assert |pat| <= |s|;
    if s[..|pat|] == pat {
      var r := rep + ReplaceAll(s[|pat|..], pat, rep);
      assert ReplaceAll(s, pat, rep) == r;
      assert r[..|pat|] == rep[..|pat|];
      assert OccursAt(r, pat, 0);
    } else {
      var r' := ReplaceAll(s[1..], pat, rep);
      assert ReplaceAll(s, pat, rep) == [s[0]] + r';
      OccursInTail(s, pat, i);
      ReplaceKeepsPattern(s[1..], pat, rep);
      var j :| 0 <= j <= |r'| && OccursAt(r', pat, j);
      OccursAfterHead(s[0], r', pat, j);
    }
  }

  /** The early exit is what makes the patch safe to run twice: without it, a
      file that names the toolset would be changed again by a second
      translation, since `v_xp` still contains `v`. */
  lemma TranslateTwiceChanges(c: string, version: string)
    requires DecideAsWritten(version).Translate? && Contains(c, version)
    ensures var once := Rewrite(c, DecideAsWritten(version));
      once != c && Rewrite(once, DecideAsWritten(version)) != once
  {
    var d := DecideAsWritten(version);
    var once := Rewrite(c, d);
    if version == "" {
      assert once == Interleave(c, XpSuffix);
      assert Rewrite(once, d) == Interleave(once, XpSuffix);
    } else {
      ReplaceGrows(c, version, version + XpSuffix);
      assert IsPrefix(version, version + XpSuffix);
      ReplaceKeepsPattern(c, version, version + XpSuffix);
      ReplaceGrows(once, version, version + XpSuffix);
    }
  }

  /** An XP toolset leaves every file as it is. */
  lemma AlreadyXpKeepsFiles(fs: Fs, regen: Path, projects: seq<Path>, toolset: string -> Option<string>)
    requires regen in fs.files && toolset(fs.files[regen]).Some?
    requires EndsWith(toolset(fs.files[regen]).value, XpSuffix)
    ensures XpResult(fs, regen, projects, toolset) == (fs, None)
  {
  }

  /** A run that translated the toolset rewrote REGEN.vcxproj itself (it is
      one of the project files), so when the pattern then reads the new
      toolset, a second run takes the early exit and changes nothing. */
  lemma SecondRunSkips(fs: Fs, regen: Path, projects: seq<Path>, toolset: string -> Option<string>)
    requires Distinct(projects) && regen in projects
    requires forall i :: 0 <= i < |projects| ==> projects[i] in fs.files
    requires regen in fs.files && toolset(fs.files[regen]).Some?
    requires var v := toolset(fs.files[regen]).value;
      toolset(ReplaceAll(fs.files[regen], v, v + XpSuffix)) == Some(v + XpSuffix)
    ensures var fs' := XpResult(fs, regen, projects, toolset).0;
      XpResult(fs, regen, projects, toolset).1.None? &&
      XpResult(fs', regen, projects, toolset) == (fs', None)
  {
    var v := toolset(fs.files[regen]).value;
    var d := DecideAsWritten(v);
    if d.Translate? {
      RewriteEachEffect(fs.files, projects, d);
      var fs' := XpResult(fs, regen, projects, toolset).0;
      assert fs'.files[regen] == ReplaceAll(fs.files[regen], v, v + XpSuffix);
      assert EndsWith(v + XpSuffix, XpSuffix);
    }
  }

  // ---------------------------------------------------------------------------
  // An empty toolset
  // ---------------------------------------------------------------------------

  /** As written, an empty toolset (`<PlatformToolset></PlatformToolset>`) is
      translated to `_xp`, and `c.replace('', '_xp')` puts `_xp` before every
      character and at the end of every project file: "ab" becomes
      "_xpa_xpb_xp". */
  lemma EmptyToolsetGarbles(fs: Fs, regen: Path, projects: seq<Path>, toolset: string -> Option<string>)
    requires regen in fs.files && toolset(fs.files[regen]) == Some("")
    requires Distinct(projects) && forall i :: 0 <= i < |projects| ==> projects[i] in fs.files
    ensures XpResult(fs, regen, projects, toolset).1.None?
    ensures XpResult(fs, regen, projects, toolset).0.dirs == fs.dirs
    ensures XpResult(fs, regen, projects, toolset).0.files.Keys == fs.files.Keys
    ensures forall p :: p in fs.files ==>
      XpResult(fs, regen, projects, toolset).0.files[p] ==
        if p in projects then Interleave(fs.files[p], XpSuffix) else fs.files[p]
    ensures forall p :: p in projects ==> p in fs.files && XpResult(fs, regen, projects, toolset).0.files[p] != fs.files[p]
    ensures Rewrite("ab", DecideAsWritten("")) == "_xpa_xpb_xp"
  {
    var d := DecideAsWritten("");
    assert d == Translate("", XpSuffix) by {
      assert !EndsWith("", XpSuffix);
    }
    var rewritten := RewriteEach(fs.files, projects, d);
    assert XpResult(fs, regen, projects, toolset) ==
      (Fs(fs.dirs, rewritten.0), if rewritten.1.None? then None else Some(ProjectMissing(rewritten.1.value)));
    RewriteEachEffect(fs.files, projects, d);
    forall p | p in projects ensures p in fs.files && Interleave(fs.files[p], XpSuffix) != fs.files[p] {
      var i :| 0 <= i < |projects| && projects[i] == p;
    }
    InterleaveExample();
  }

  /** `"ab".replace("", "_xp")`. */
  lemma InterleaveExample()
    ensures Interleave("ab", XpSuffix) == "_xpa_xpb_xp"
  {
    assert Interleave("ab", XpSuffix) == "_xp" + "a" + Interleave("b", XpSuffix);
    assert Interleave("b", XpSuffix) == "_xp" + "b" + Interleave("", XpSuffix);
  }

  /** The corrected decision skips an empty toolset and otherwise agrees with
      the script's: with it every project file keeps its text when the
      toolset is empty, and every other input patches as the script does. */
  lemma EmptyToolsetSkipped(fs: Fs, regen: Path, projects: seq<Path>, toolset: string -> Option<string>)
    ensures Decide("") == AlreadyXp
    ensures forall v :: v != "" ==> Decide(v) == DecideAsWritten(v)
    ensures regen in fs.files && toolset(fs.files[regen]) == Some("") ==>
      XpResultIntended(fs, regen, projects, toolset) == (fs, None)
    ensures !(regen in fs.files && toolset(fs.files[regen]) == Some("")) ==>
      XpResultIntended(fs, regen, projects, toolset) == XpResult(fs, regen, projects, toolset)
  {
  }
}
