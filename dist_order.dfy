/**
 * An ordering argument for a list of distribution steps. Each step is given
 * an area below the install directory: the path it creates or writes,
 * whether it creates that path, whether what it adds may lie below it, and,
 * for a copy or the launcher, the earlier `makedirs` step that made its
 * directory. When every step fits its area and every created path is apart
 * from the areas of all earlier steps, running the steps from a fresh
 * install directory never meets an existing path where it creates one, nor
 * a missing directory where it copies or writes.
 */
module DistOrder {
  import opened Results
  import opened Text
  import opened PathFormat
  import opened FileSystem
  import opened Distribution

  /** The area of a step, relative to the install directory: the path `rel`
      it creates or writes, whether it creates it (`makes`), whether what it
      adds may lie below `rel` apart from names in `exclude` (`deep`), and
      for a step that needs a directory, the index of the `makedirs` step
      that made it (`holder`, -1 for none). */
  datatype Area = Area(rel: Path, makes: bool, deep: bool, exclude: set<string>, holder: int)

  /** A step fits its area. A switched-off step never stands where a
      `makedirs` is planned. */
  predicate Matches(op: Op, a: Area)
  {
    match op
    case MakeDirsOp(dst) => a.rel == Layout(dst) && a.makes && !a.deep && a.exclude == {}
    case CopyTreeOp(_, dst, exclude) => a.rel == Layout(dst) && a.makes && a.deep && a.exclude == exclude
    case CopyOp(_, dst) => a.rel == Layout(dst) && a.rel != [] && !a.makes && a.deep && a.exclude == {}
    case WriteLauncher => a.rel == ["bin", "r2.bat"] && !a.makes && !a.deep && a.exclude == {}
    case Skip => a.deep || !a.makes
  }

  /** A `makedirs` area. */
  predicate MakesDir(a: Area)
  {
    a.makes && !a.deep
  }

  /** The directory of a path with components `r` lies inside the path `h`. */
  predicate ParentWithin(r: Path, h: Path)
  {
    |r| >= 1 && |r| - 1 <= |h| && forall j :: 0 <= j < |r| - 1 ==> r[j] == h[j]
  }

  /** Step `k` fits its area and, when it copies or writes, names an earlier
      `makedirs` step that holds its directory. */
  predicate StepFits(ops: seq<Op>, plan: seq<Area>, k: nat)
    requires k < |ops| && k < |plan|
  {
    && Matches(ops[k], plan[k])
    && ((ops[k].CopyOp? || ops[k].WriteLauncher?) ==>
          && 0 <= plan[k].holder < k
          && MakesDir(plan[plan[k].holder])
          && ParentWithin(plan[k].rel, plan[plan[k].holder].rel))
  }

  predicate Fits(ops: seq<Op>, plan: seq<Area>)
  {
    |ops| == |plan| && forall k :: 0 <= k < |ops| ==> StepFits(ops, plan, k)
  }

  /** The paths `r` and `a` part at one of their first three components. */
  predicate Differ(r: Path, a: Path)
  {
    && r != [] && a != []
    && (r[0] != a[0] || (|r| > 1 && |a| > 1 && (r[1] != a[1] || (|r| > 2 && |a| > 2 && r[2] != a[2]))))
  }

  /** `r` is neither at nor above `a`, and, when `deep`, not below `a` except
      under an excluded name. */
  predicate SepRel(r: Path, a: Path, exclude: set<string>, deep: bool)
  {
    && (|r| > |a| || Differ(r, a))
    && (!deep || |a| > |r| || Differ(r, a) || (|r| > |a| && r[|a|] in exclude))
  }

  /** Every path a step creates is apart from the areas of all earlier steps. */
  predicate Apart(plan: seq<Area>)
  {
    forall i, j :: 0 <= j < i < |plan| && plan[i].makes ==>
      SepRel(plan[i].rel, plan[j].rel, plan[j].exclude, plan[j].deep)
  }

  /** Before step `k`: the tree is well formed, every path a later step
      creates is still fresh, and every earlier `makedirs` left its directory. */
  predicate Inv(fs: Fs, d: Path, plan: seq<Area>, k: nat)
  {
    && Valid(fs)
    && (forall i :: k <= i < |plan| && plan[i].makes ==> Fresh(fs, d + plan[i].rel))
    && (forall j :: 0 <= j < k && j < |plan| && MakesDir(plan[j]) ==> d + plan[j].rel in fs.dirs)
  }

  // ---------------------------------------------------------------------------
  // Lemmas
  // ---------------------------------------------------------------------------

  /** Apart as relative paths means apart below any install directory. */
  lemma SepLift(d: Path, r: Path, a: Path, exclude: set<string>, deep: bool)
    requires SepRel(r, a, exclude, deep)
    ensures Separated(d + r, d + a, exclude, deep)
  {
    var p, q := d + r, d + a;
    if Differ(r, a) {
      var j :| 0 <= j < |r| && j < |a| && r[j] != a[j];
      assert p[|d| + j] == r[j] && q[|d| + j] == a[j];
      if |p| <= |q| {
        assert q[..|p|][|d| + j] == q[|d| + j];
      }
      if |q| <= |p| {
        assert p[..|q|][|d| + j] == p[|d| + j];
      }
    } else if deep && |r| > |a| {
      assert p[|q|] == r[|a|];
    }
  }

  /** A copy or write whose planned directory was made has its directory. */
  lemma HolderParent(fs: Fs, d: Path, r: Path, h: Path)
    requires Valid(fs) && d + h in fs.dirs && ParentWithin(r, h)
    ensures d + r != [] && ParentIsDir(fs, d + r)
  {
    var p := d + r;
    if |p| > 1 {
      var parent := p[..|p| - 1];
      assert parent == d + r[..|r| - 1];
      if |r| - 1 == |h| {
        assert parent == d + h;
      } else {
        assert parent == (d + h)[..|parent|];
      }
    }
  }

  /** What a step adds in reach of its area is in reach of the install
      directory: below it, or one of its ancestors. */
  lemma WithinWiden(fs: Fs, fs': Fs, d: Path, r: Path, exclude: set<string>, deep: bool)
    requires Within(fs, fs', d + r, exclude, deep)
    ensures Within(fs, fs', d, {}, true)
  {
    forall q | Reach(q, d + r, exclude, deep) ensures Reach(q, d, {}, true) {
      if IsPrefix(q, d + r) {
        if |q| <= |d| {
          assert q == d[..|q|];
        } else {
          assert q[..|d|] == (d + r)[..|d|];
        }
      } else {
        assert q[..|d|] == (d + r)[..|d|];
      }
    }
  }

  /** The paths later steps create stay fresh across a step confined to `a`. */
  lemma KeepFresh(fs: Fs, fs': Fs, d: Path, plan: seq<Area>, k: nat)
    requires k < |plan| && Apart(plan) && Inv(fs, d, plan, k)
    requires Within(fs, fs', d + plan[k].rel, plan[k].exclude, plan[k].deep)
    ensures forall i :: k < i < |plan| && plan[i].makes ==> Fresh(fs', d + plan[i].rel)
  {
    forall i | k < i < |plan| && plan[i].makes
      ensures Fresh(fs', d + plan[i].rel)
    {
      SepLift(d, plan[i].rel, plan[k].rel, plan[k].exclude, plan[k].deep);
      FreshKept(fs, fs', d + plan[i].rel, d + plan[k].rel, plan[k].exclude, plan[k].deep);
    }
  }

  /** A step confined to its area, which made its directory if it is a
      `makedirs`, passes the invariant on. */
  lemma Settle(fs: Fs, fs': Fs, d: Path, plan: seq<Area>, k: nat)
    requires k < |plan| && Apart(plan) && Inv(fs, d, plan, k)
    requires Confined(fs, fs', d + plan[k].rel, plan[k].exclude, plan[k].deep)
    requires MakesDir(plan[k]) ==> d + plan[k].rel in fs'.dirs
    ensures Inv(fs', d, plan, k + 1) && Grows(fs, fs') && Within(fs, fs', d, {}, true)
  {
    KeepFresh(fs, fs', d, plan, k);
    WithinWiden(fs, fs', d, plan[k].rel, plan[k].exclude, plan[k].deep);
  }

  /** One step keeps the invariant and meets neither an existing path where it
      creates one nor a missing directory. */
  lemma Advance(fs: Fs, env: Registry, glob: Glob, install: string, ops: seq<Op>, plan: seq<Area>, k: nat)
    requires DistEnv(env, install) && Fits(ops, plan) && Apart(plan) && k < |ops|
    requires Inv(fs, Components(install), plan, k)
    ensures NoDestFault(Apply(fs, env, glob, install, ops[k]))
    ensures var r := Apply(fs, env, glob, install, ops[k]);
      r.Ok? ==> (Inv(r.value, Components(install), plan, k + 1) && Grows(fs, r.value)
                 && Within(fs, r.value, Components(install), {}, true))
  {
    var d := Components(install);
    var a := plan[k];
    assert StepFits(ops, plan, k);
    var r := Apply(fs, env, glob, install, ops[k]);
    match ops[k]
    case MakeDirsOp(dst) =>
      MakeDirsStep(fs, env, glob, install, dst);
      if r.Ok? {
        Settle(fs, r.value, d, plan, k);
      }
    case CopyTreeOp(src, dst, exclude) =>
      CopyTreeStep(fs, env, glob, install, src, dst, exclude);
      if r.Ok? {
        Settle(fs, r.value, d, plan, k);
      }
    case CopyOp(src, dst) =>
      HolderParent(fs, d, a.rel, plan[a.holder].rel);
      CopyStep(fs, env, glob, install, src, dst);
      if r.Ok? {
        Settle(fs, r.value, d, plan, k);
      }
    case WriteLauncher =>
      HolderParent(fs, d, a.rel, plan[a.holder].rel);
      LauncherStep(fs, env, glob, install);
      if r.Ok? {
        Settle(fs, r.value, d, plan, k);
      }
    case Skip =>
      WithinSame(fs, d + a.rel, a.exclude, a.deep);
      Settle(fs, fs, d, plan, k);
  }

  /** The steps from `k` on, started in a state satisfying the invariant. */
  lemma {:induction false} RunSafe(fs0: Fs, fs: Fs, env: Registry, glob: Glob, install: string, ops: seq<Op>, plan: seq<Area>, k: nat)
    requires DistEnv(env, install) && Fits(ops, plan) && Apart(plan) && k <= |ops|
    requires Inv(fs, Components(install), plan, k)
    requires Grows(fs0, fs) && Within(fs0, fs, Components(install), {}, true)
    ensures NoDestFault(RunFrom(fs, env, glob, install, ops, k))
    ensures var r := RunFrom(fs, env, glob, install, ops, k);
      r.Ok? ==> (Inv(r.value, Components(install), plan, |ops|) && Grows(fs0, r.value)
                 && Within(fs0, r.value, Components(install), {}, true))
    decreases |ops| - k
  {
    if k < |ops| {
      Advance(fs, env, glob, install, ops, plan, k);
      var r := Apply(fs, env, glob, install, ops[k]);
      if r.Ok? {
        WithinTrans(fs0, fs, r.value, Components(install), {}, true);
        RunSafe(fs0, r.value, env, glob, install, ops, plan, k + 1);
      }
    }
  }
}
