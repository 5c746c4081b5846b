/**
 * The plan of the Windows distribution (`win_dist` followed by
 * `win_dist_libr2`, sys/meson.py:160-216) and the theorem that its order is
 * right: with the default R2_PATH table and an install directory nothing
 * exists at or below yet, no `makedirs` or `copytree` meets an existing
 * path and no copy or write meets a missing directory. What else can fail
 * (a missing source, a file in the way of a directory) is outside the
 * script's control.
 *
 * The plan is checked step by step and pair by pair on its literal values;
 * the checks are evaluated by index, which keeps them cheap to evaluate.
 */
module DistPlan {
  import opened Results
  import opened Text
  import opened PathFormat
  import opened FileSystem
  import opened Distribution
  import opened DistOrder

  /** The whole distribution: `win_dist` followed by `win_dist_libr2`. */
  function Ops(shared: bool, webui: bool): (ops: seq<Op>)
    ensures |ops| == |WinDistOps(shared)| + |WinDistLibr2Ops(webui)|
  {
    WinDistOps(shared) + WinDistLibr2Ops(webui)
  }

  /** The area of step `k`. */
  function PlanAt(k: nat): Area
  {
    match k
    case 0 => Area([], true, false, {}, -1)
    case 1 => Area(["bin"], true, false, {}, -1)
    case 2 => Area(["bin"], false, true, {}, 1)
    case 3 => Area(["bin", "r2.bat"], false, false, {}, 1)
    case 4 => Area(["bin"], false, true, {}, 1)
    case 5 => Area(["lib"], true, false, {}, -1)
    case 6 => Area(["lib"], false, true, {}, 5)
    case 7 => Area(["share", "www"], true, true, {}, -1)
    case 8 => Area(["share", "magic"], true, true, {}, -1)
    case 9 => Area(["share", "syscall"], true, false, {}, -1)
    case 10 => Area(["share", "syscall"], false, true, {}, 9)
    case 11 => Area(["share", "fcnsign"], true, false, {}, -1)
    case 12 => Area(["share", "fcnsign"], false, true, {}, 11)
    case 13 => Area(["share", "opcodes"], true, false, {}, -1)
    case 14 => Area(["share", "opcodes"], false, true, {}, 13)
    case 15 => Area(["include", "sdb"], true, false, {}, -1)
    case 16 => Area(["include", "r_util"], true, false, {}, -1)
    case 17 => Area(["include", "r_crypto"], true, false, {}, -1)
    case 18 => Area(["include"], false, true, {}, 15)
    case 19 => Area(["include"], false, true, {}, 15)
    case 20 => Area(["include"], false, true, {}, 15)
    case 21 => Area(["include", "sdb"], false, true, {}, 15)
    case 22 => Area(["include", "r_util"], false, true, {}, 16)
    case 23 => Area(["include", "r_crypto"], false, true, {}, 17)
    case 24 => Area(["share", "doc"], true, false, {}, -1)
    case 25 => Area(["share", "doc"], false, true, {}, 24)
    case 26 => Area(["share", "format"], true, true, {"Makefile", "meson.build", "dll"}, -1)
    case 27 => Area(["share", "format", "dll"], true, false, {}, -1)
    case 28 => Area(["share", "format", "dll"], false, true, {}, 27)
    case 29 => Area(["share", "cons"], true, true, {"Makefile", "meson.build"}, -1)
    case 30 => Area(["share", "flag"], true, false, {}, -1)
    case 31 => Area(["share", "flag"], false, true, {}, 30)
    case 32 => Area(["share", "hud"], true, false, {}, -1)
    case 33 => Area(["share", "hud", "main"], false, true, {}, 32)
    case _ => Area([], false, false, {}, -1)
  }

  const PlanSize := 34

  /** The plan as a sequence. */
  const Plan: seq<Area> := seq(PlanSize, k requires 0 <= k < PlanSize => PlanAt(k))

  // ---------------------------------------------------------------------------
  // The checks, by index
  // ---------------------------------------------------------------------------

  /** `StepFits` for step `k`, read from `PlanAt`. */
  predicate FitsAt(ops: seq<Op>, k: nat)
    requires k < |ops|
  {
    && Matches(ops[k], PlanAt(k))
    && ((ops[k].CopyOp? || ops[k].WriteLauncher?) ==>
          && 0 <= PlanAt(k).holder < k
          && MakesDir(PlanAt(PlanAt(k).holder))
          && ParentWithin(PlanAt(k).rel, PlanAt(PlanAt(k).holder).rel))
  }

  /** Steps `lo .. hi-1` fit their areas. */
  predicate FitsRange(ops: seq<Op>, lo: nat, hi: nat)
    requires hi <= |ops|
  {
    forall k :: lo <= k < hi ==> FitsAt(ops, k)
  }

  /** The path step `i` creates is apart from the area of step `j`. */
  predicate ApartAt(i: nat, j: nat)
  {
    SepRel(PlanAt(i).rel, PlanAt(j).rel, PlanAt(j).exclude, PlanAt(j).deep)
  }

  /** The path step `i` creates is apart from the areas of all earlier steps. */
  predicate RowApart(i: nat)
  {
    forall j :: 0 <= j < i ==> ApartAt(i, j)
  }

  // Each check below is settled by evaluating it at every index in its range.

  lemma FitsSteps0To2(shared: bool, webui: bool)
    ensures |Ops(shared, webui)| == PlanSize && FitsRange(Ops(shared, webui), 0, 3)
  {
    var ops := Ops(shared, webui);
    forall k | 0 <= k < 3 ensures FitsAt(ops, k) {
      if k == 0 { } else if k == 1 { } else { }
    }
  }

  lemma FitsSteps3To5(shared: bool, webui: bool)
    ensures |Ops(shared, webui)| == PlanSize && FitsRange(Ops(shared, webui), 3, 6)
  {
    var ops := Ops(shared, webui);
    forall k | 3 <= k < 6 ensures FitsAt(ops, k) {
      if k == 3 { } else if k == 4 { } else { }
    }
  }

  lemma FitsSteps6To8(shared: bool, webui: bool)
    ensures |Ops(shared, webui)| == PlanSize && FitsRange(Ops(shared, webui), 6, 9)
  {
    var ops := Ops(shared, webui);
    forall k | 6 <= k < 9 ensures FitsAt(ops, k) {
      if k == 6 { } else if k == 7 { } else { }
    }
  }

  lemma FitsSteps9To11(shared: bool, webui: bool)
    ensures |Ops(shared, webui)| == PlanSize && FitsRange(Ops(shared, webui), 9, 12)
  {
    var ops := Ops(shared, webui);
    forall k | 9 <= k < 12 ensures FitsAt(ops, k) {
      if k == 9 { } else if k == 10 { } else { }
    }
  }

  lemma FitsSteps12To14(shared: bool, webui: bool)
    ensures |Ops(shared, webui)| == PlanSize && FitsRange(Ops(shared, webui), 12, 15)
  {
    var ops := Ops(shared, webui);
    forall k | 12 <= k < 15 ensures FitsAt(ops, k) {
      if k == 12 { } else if k == 13 { } else { }
    }
  }

  lemma FitsSteps15To17(shared: bool, webui: bool)
    ensures |Ops(shared, webui)| == PlanSize && FitsRange(Ops(shared, webui), 15, 18)
  {
    var ops := Ops(shared, webui);
    forall k | 15 <= k < 18 ensures FitsAt(ops, k) {
      if k == 15 { } else if k == 16 { } else { }
    }
  }

  lemma FitsSteps18To20(shared: bool, webui: bool)
    ensures |Ops(shared, webui)| == PlanSize && FitsRange(Ops(shared, webui), 18, 21)
  {
    var ops := Ops(shared, webui);
    forall k | 18 <= k < 21 ensures FitsAt(ops, k) {
      if k == 18 { } else if k == 19 { } else { }
    }
  }

  lemma FitsSteps21To23(shared: bool, webui: bool)
    ensures |Ops(shared, webui)| == PlanSize && FitsRange(Ops(shared, webui), 21, 24)
  {
    var ops := Ops(shared, webui);
    forall k | 21 <= k < 24 ensures FitsAt(ops, k) {
      if k == 21 { } else if k == 22 { } else { }
    }
  }

  lemma FitsSteps24To26(shared: bool, webui: bool)
    ensures |Ops(shared, webui)| == PlanSize && FitsRange(Ops(shared, webui), 24, 27)
  {
    var ops := Ops(shared, webui);
    forall k | 24 <= k < 27 ensures FitsAt(ops, k) {
      if k == 24 { } else if k == 25 { } else { }
    }
  }

  lemma FitsSteps27To29(shared: bool, webui: bool)
    ensures |Ops(shared, webui)| == PlanSize && FitsRange(Ops(shared, webui), 27, 30)
  {
    var ops := Ops(shared, webui);
    forall k | 27 <= k < 30 ensures FitsAt(ops, k) {
      if k == 27 { } else if k == 28 { } else { }
    }
  }

  lemma FitsSteps30To31(shared: bool, webui: bool)
    ensures |Ops(shared, webui)| == PlanSize && FitsRange(Ops(shared, webui), 30, 32)
  {
    var ops := Ops(shared, webui);
    forall k | 30 <= k < 32 ensures FitsAt(ops, k) {
      if k == 30 { } else { }
    }
  }

  lemma FitsSteps32To33(shared: bool, webui: bool)
    ensures |Ops(shared, webui)| == PlanSize && FitsRange(Ops(shared, webui), 32, 34)
  {
    var ops := Ops(shared, webui);
    forall k | 32 <= k < 34 ensures FitsAt(ops, k) {
      if k == 32 { } else { }
    }
  }

  lemma Row1Apart()
    ensures RowApart(1)
  {
    forall j | 0 <= j < 1 ensures ApartAt(1, j) {
      { }
    }
  }

  lemma Row5Apart()
    ensures RowApart(5)
  {
    forall j | 0 <= j < 5 ensures ApartAt(5, j) {
      if j == 0 { } else if j == 1 { } else if j == 2 { } else if j == 3 { } else { }
    }
  }

  lemma Row7Apart()
    ensures RowApart(7)
  {
    forall j | 0 <= j < 7 ensures ApartAt(7, j) {
      if j == 0 { } else if j == 1 { } else if j == 2 { } else if j == 3 { } else if j == 4 { } else if j == 5 { } else { }
    }
  }

  lemma Row8Apart()
    ensures RowApart(8)
  {
    forall j | 0 <= j < 8 ensures ApartAt(8, j) {
      if j == 0 { } else if j == 1 { } else if j == 2 { } else if j == 3 { } else if j == 4 { } else if j == 5 { } else if j == 6 { } else { }
    }
  }

  lemma Row9Apart()
    ensures RowApart(9)
  {
    forall j | 0 <= j < 9 ensures ApartAt(9, j) {
      if j == 0 { } else if j == 1 { } else if j == 2 { } else if j == 3 { } else if j == 4 { } else if j == 5 { } else if j == 6 { } else if j == 7 { } else { }
    }
  }

  lemma Row11Apart()
    ensures RowApart(11)
  {
    forall j | 0 <= j < 11 ensures ApartAt(11, j) {
      if j == 0 { } else if j == 1 { } else if j == 2 { } else if j == 3 { } else if j == 4 { } else if j == 5 { } else if j == 6 { } else if j == 7 { } else if j == 8 { } else if j == 9 { } else { }
    }
  }

  lemma Row13Apart()
    ensures RowApart(13)
  {
    forall j | 0 <= j < 13 ensures ApartAt(13, j) {
      if j == 0 { } else if j == 1 { } else if j == 2 { } else if j == 3 { } else if j == 4 { } else if j == 5 { } else if j == 6 { } else if j == 7 { } else if j == 8 { } else if j == 9 { } else if j == 10 { } else if j == 11 { } else { }
    }
  }

  lemma Row15Apart()
    ensures RowApart(15)
  {
    forall j | 0 <= j < 15 ensures ApartAt(15, j) {
      if j == 0 { } else if j == 1 { } else if j == 2 { } else if j == 3 { } else if j == 4 { } else if j == 5 { } else if j == 6 { } else if j == 7 { } else if j == 8 { } else if j == 9 { } else if j == 10 { } else if j == 11 { } else if j == 12 { } else if j == 13 { } else { }
    }
  }

  lemma Row16Apart()
    ensures RowApart(16)
  {
    forall j | 0 <= j < 16 ensures ApartAt(16, j) {
      if j == 0 { } else if j == 1 { } else if j == 2 { } else if j == 3 { } else if j == 4 { } else if j == 5 { } else if j == 6 { } else if j == 7 { } else if j == 8 { } else if j == 9 { } else if j == 10 { } else if j == 11 { } else if j == 12 { } else if j == 13 { } else if j == 14 { } else { }
    }
  }

  lemma Row17Apart()
    ensures RowApart(17)
  {
    forall j | 0 <= j < 17 ensures ApartAt(17, j) {
      if j == 0 { } else if j == 1 { } else if j == 2 { } else if j == 3 { } else if j == 4 { } else if j == 5 { } else if j == 6 { } else if j == 7 { } else if j == 8 { } else if j == 9 { } else if j == 10 { } else if j == 11 { } else if j == 12 { } else if j == 13 { } else if j == 14 { } else if j == 15 { } else { }
    }
  }

  lemma Row24Apart()
    ensures RowApart(24)
  {
    forall j | 0 <= j < 24 ensures ApartAt(24, j) {
      if j == 0 { } else if j == 1 { } else if j == 2 { } else if j == 3 { } else if j == 4 { } else if j == 5 { } else if j == 6 { } else if j == 7 { } else if j == 8 { } else if j == 9 { } else if j == 10 { } else if j == 11 { } else if j == 12 { } else if j == 13 { } else if j == 14 { } else if j == 15 { } else if j == 16 { } else if j == 17 { } else if j == 18 { } else if j == 19 { } else if j == 20 { } else if j == 21 { } else if j == 22 { } else { }
    }
  }

  lemma Row26Apart()
    ensures RowApart(26)
  {
    forall j | 0 <= j < 26 ensures ApartAt(26, j) {
      if j == 0 { } else if j == 1 { } else if j == 2 { } else if j == 3 { } else if j == 4 { } else if j == 5 { } else if j == 6 { } else if j == 7 { } else if j == 8 { } else if j == 9 { } else if j == 10 { } else if j == 11 { } else if j == 12 { } else if j == 13 { } else if j == 14 { } else if j == 15 { } else if j == 16 { } else if j == 17 { } else if j == 18 { } else if j == 19 { } else if j == 20 { } else if j == 21 { } else if j == 22 { } else if j == 23 { } else if j == 24 { } else { }
    }
  }

  lemma Row27Apart()
    ensures RowApart(27)
  {
    forall j | 0 <= j < 27 ensures ApartAt(27, j) {
      if j == 0 { } else if j == 1 { } else if j == 2 { } else if j == 3 { } else if j == 4 { } else if j == 5 { } else if j == 6 { } else if j == 7 { } else if j == 8 { } else if j == 9 { } else if j == 10 { } else if j == 11 { } else if j == 12 { } else if j == 13 { } else if j == 14 { } else if j == 15 { } else if j == 16 { } else if j == 17 { } else if j == 18 { } else if j == 19 { } else if j == 20 { } else if j == 21 { } else if j == 22 { } else if j == 23 { } else if j == 24 { } else if j == 25 { } else { }
    }
  }

  lemma Row29Apart()
    ensures RowApart(29)
  {
    forall j | 0 <= j < 29 ensures ApartAt(29, j) {
      if j == 0 { } else if j == 1 { } else if j == 2 { } else if j == 3 { } else if j == 4 { } else if j == 5 { } else if j == 6 { } else if j == 7 { } else if j == 8 { } else if j == 9 { } else if j == 10 { } else if j == 11 { } else if j == 12 { } else if j == 13 { } else if j == 14 { } else if j == 15 { } else if j == 16 { } else if j == 17 { } else if j == 18 { } else if j == 19 { } else if j == 20 { } else if j == 21 { } else if j == 22 { } else if j == 23 { } else if j == 24 { } else if j == 25 { } else if j == 26 { } else if j == 27 { } else { }
    }
  }

  lemma Row30Apart()
    ensures RowApart(30)
  {
    forall j | 0 <= j < 30 ensures ApartAt(30, j) {
      if j == 0 { } else if j == 1 { } else if j == 2 { } else if j == 3 { } else if j == 4 { } else if j == 5 { } else if j == 6 { } else if j == 7 { } else if j == 8 { } else if j == 9 { } else if j == 10 { } else if j == 11 { } else if j == 12 { } else if j == 13 { } else if j == 14 { } else if j == 15 { } else if j == 16 { } else if j == 17 { } else if j == 18 { } else if j == 19 { } else if j == 20 { } else if j == 21 { } else if j == 22 { } else if j == 23 { } else if j == 24 { } else if j == 25 { } else if j == 26 { } else if j == 27 { } else if j == 28 { } else { }
    }
  }

  lemma Row32Apart()
    ensures RowApart(32)
  {
    forall j | 0 <= j < 32 ensures ApartAt(32, j) {
      if j == 0 { } else if j == 1 { } else if j == 2 { } else if j == 3 { } else if j == 4 { } else if j == 5 { } else if j == 6 { } else if j == 7 { } else if j == 8 { } else if j == 9 { } else if j == 10 { } else if j == 11 { } else if j == 12 { } else if j == 13 { } else if j == 14 { } else if j == 15 { } else if j == 16 { } else if j == 17 { } else if j == 18 { } else if j == 19 { } else if j == 20 { } else if j == 21 { } else if j == 22 { } else if j == 23 { } else if j == 24 { } else if j == 25 { } else if j == 26 { } else if j == 27 { } else if j == 28 { } else if j == 29 { } else if j == 30 { } else { }
    }
  }

  /** Every step of the distribution fits its area in the plan, whichever
      library kind and whether or not the web UI is installed. */
  lemma PlanFits(shared: bool, webui: bool)
    ensures Fits(Ops(shared, webui), Plan)
  {
    var ops := Ops(shared, webui);
    FitsSteps0To2(shared, webui);
    FitsSteps3To5(shared, webui);
    FitsSteps6To8(shared, webui);
    FitsSteps9To11(shared, webui);
    FitsSteps12To14(shared, webui);
    FitsSteps15To17(shared, webui);
    FitsSteps18To20(shared, webui);
    FitsSteps21To23(shared, webui);
    FitsSteps24To26(shared, webui);
    FitsSteps27To29(shared, webui);
    FitsSteps30To31(shared, webui);
    FitsSteps32To33(shared, webui);
    forall k | 0 <= k < |ops| ensures StepFits(ops, Plan, k) {
      assert FitsAt(ops, k);
      assert Plan[k] == PlanAt(k);
      if 0 <= PlanAt(k).holder < k {
        assert Plan[PlanAt(k).holder] == PlanAt(PlanAt(k).holder);
      }
    }
  }

  /** Every path the plan creates is apart from the areas of the steps
      before it. */
  lemma PlanApart()
    ensures Apart(Plan)
  {
    forall i | 0 <= i < PlanSize ensures PlanAt(i).makes ==> RowApart(i) {
      if i == 0 { }
      else if i == 1 { Row1Apart(); }
      else if i == 2 { }
      else if i == 3 { }
      else if i == 4 { }
      else if i == 5 { Row5Apart(); }
      else if i == 6 { }
      else if i == 7 { Row7Apart(); }
      else if i == 8 { Row8Apart(); }
      else if i == 9 { Row9Apart(); }
      else if i == 10 { }
      else if i == 11 { Row11Apart(); }
      else if i == 12 { }
      else if i == 13 { Row13Apart(); }
      else if i == 14 { }
      else if i == 15 { Row15Apart(); }
      else if i == 16 { Row16Apart(); }
      else if i == 17 { Row17Apart(); }
      else if i == 18 { }
      else if i == 19 { }
      else if i == 20 { }
      else if i == 21 { }
      else if i == 22 { }
      else if i == 23 { }
      else if i == 24 { Row24Apart(); }
      else if i == 25 { }
      else if i == 26 { Row26Apart(); }
      else if i == 27 { Row27Apart(); }
      else if i == 28 { }
      else if i == 29 { Row29Apart(); }
      else if i == 30 { Row30Apart(); }
      else if i == 31 { }
      else if i == 32 { Row32Apart(); }
      else { }
    }
    forall i, j | 0 <= j < i < |Plan| && Plan[i].makes
      ensures SepRel(Plan[i].rel, Plan[j].rel, Plan[j].exclude, Plan[j].deep)
    {
      assert Plan[i] == PlanAt(i) && Plan[j] == PlanAt(j);
      assert ApartAt(i, j);
    }
  }

  // ---------------------------------------------------------------------------
  // The theorem
  // ---------------------------------------------------------------------------

  /** Whatever lies below a fresh path is fresh too. */
  lemma FreshBelow(fs: Fs, d: Path, r: Path)
    requires Fresh(fs, d)
    ensures Fresh(fs, d + r)
  {
    forall q ensures IsPrefix(d + r, q) ==> IsPrefix(d, q) {
      if IsPrefix(d + r, q) {
        assert q[..|d|] == (d + r)[..|d + r|][..|d|];
      }
    }
  }

  /** `win_dist` followed by `win_dist_libr2` with the default R2_PATH table,
      into an install directory nothing exists at or below: no `makedirs` or
      `copytree` meets an existing path, no copy or write meets a missing
      directory, nothing is removed, everything new is the install directory,
      one of its ancestors or below it, and every directory the script makes
      is there at the end. */
  lemma WinDistSafe(fs: Fs, env: Registry, glob: Glob, install: string, shared: bool, webui: bool)
    requires Valid(fs) && DistEnv(env, install) && Fresh(fs, Components(install))
    ensures NoDestFault(RunFrom(fs, env, glob, install, Ops(shared, webui), 0))
    ensures var r := RunFrom(fs, env, glob, install, Ops(shared, webui), 0);
      r.Ok? ==> (&& Valid(r.value) && Grows(fs, r.value)
                 && Within(fs, r.value, Components(install), {}, true)
                 && forall k :: 0 <= k < |Ops(shared, webui)| && Ops(shared, webui)[k].MakeDirsOp? ==>
                      Components(install) + Layout(Ops(shared, webui)[k].dst) in r.value.dirs)
  {
    var d := Components(install);
    var ops := Ops(shared, webui);
    PlanFits(shared, webui);
    PlanApart();
    forall i | 0 <= i < |Plan| && Plan[i].makes ensures Fresh(fs, d + Plan[i].rel) {
      FreshBelow(fs, d, Plan[i].rel);
    }
    assert Inv(fs, d, Plan, 0);
    WithinSame(fs, d, {}, true);
    RunSafe(fs, fs, env, glob, install, ops, Plan, 0);
    var r := RunFrom(fs, env, glob, install, ops, 0);
    if r.Ok? {
      forall k | 0 <= k < |ops| && ops[k].MakeDirsOp? ensures d + Layout(ops[k].dst) in r.value.dirs {
        assert StepFits(ops, Plan, k);
      }
    }
  }
}
