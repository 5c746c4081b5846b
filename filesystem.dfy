/**
 * An abstract filesystem for the Windows distribution steps: a set of
 * directories and a map from file paths to contents, both keyed by path
 * components. The operations are the library calls the script makes:
 * `os.makedirs`, `shutil.copy2`, `shutil.copytree` with `ignore_patterns`,
 * `shutil.move` of a file, and writing a text file.
 */
module FileSystem {
  import opened Results
  import opened Text

  type Path = seq<string>

  datatype Fs = Fs(dirs: set<Path>, files: map<Path, string>)

  /** The OSError subclasses the operations raise. */
  datatype FsError =
    | AlreadyExists(path: Path)
    | NotFound(path: Path)
    | MissingParent(path: Path)  // FileNotFoundError: the directory to write into is missing
    | NotADirectory(path: Path)
    | IsADirectory(path: Path)
    | SameFile(path: Path)

  predicate Exists(fs: Fs, p: Path)
  {
    p in fs.dirs || p in fs.files
  }

  /** A well-formed tree: every ancestor of an entry is a directory and no
      path is both a directory and a file. */
  predicate Valid(fs: Fs)
  {
    && [] !in fs.dirs
    && [] !in fs.files
    && (forall p :: p in fs.dirs ==> p !in fs.files)
    && (forall p, i :: p in fs.dirs && 0 < i < |p| ==> p[..i] in fs.dirs)
    && (forall p, i :: p in fs.files && 0 < i < |p| ==> p[..i] in fs.dirs)
  }

  /** Nothing exists at `p` or below it. */
  predicate Fresh(fs: Fs, p: Path)
  {
    && (forall q :: q in fs.dirs ==> !IsPrefix(p, q))
    && (forall q :: q in fs.files ==> !IsPrefix(p, q))
  }

  /** `p` and its ancestors. */
  function Ancestry(p: Path): (a: set<Path>)
    ensures forall q :: q in a ==> IsPrefix(q, p) && q != []
  {
    set i | 1 <= i <= |p| :: p[..i]
  }

  /** The directory a new entry at `p` goes into exists; the parent of a
      one-component path is a drive or the working directory. */
  predicate ParentIsDir(fs: Fs, p: Path)
    requires p != []
  {
    |p| == 1 || p[..|p| - 1] in fs.dirs
  }

  function Last(p: Path): string
    requires p != []
  {
    p[|p| - 1]
  }

  /** No component of `r` is one of the ignored names. */
  predicate Kept(r: Path, exclude: set<string>)
  {
    forall i :: 0 <= i < |r| ==> r[i] !in exclude
  }

  // ---------------------------------------------------------------------------
  // Operations
  // ---------------------------------------------------------------------------

  /** `os.makedirs(p)`: creates `p` and its missing ancestors, and fails when
      `p` exists already. */
  function MakeDirs(fs: Fs, p: Path): Result<Fs, FsError>
  {
    if p == [] then Err(NotFound(p))
    else if Exists(fs, p) then Err(AlreadyExists(p))
    else if exists i :: 0 < i < |p| && p[..i] in fs.files then Err(NotADirectory(p))
    else Ok(Fs(fs.dirs + Ancestry(p), fs.files))
  }

  /** `shutil.copy2(src, dst)`: a file copied into the directory `dst`, or
      to the path `dst` when that is not a directory. */
  function CopyFile(fs: Fs, src: Path, dst: Path): Result<Fs, FsError>
  {
    if src == [] || src !in fs.files then
      if src in fs.dirs then Err(IsADirectory(src)) else Err(NotFound(src))
    else
      var target := if dst in fs.dirs then dst + [Last(src)] else dst;
      if target == [] then Err(NotFound(target))
      else if target == src then Err(SameFile(target))
      else if target in fs.dirs then Err(IsADirectory(target))
      else if !ParentIsDir(fs, target) then Err(MissingParent(target))
      else Ok(Fs(fs.dirs, fs.files[target := fs.files[src]]))
  }

  /** `shutil.move(src, dst)` of a file. */
  function MoveFile(fs: Fs, src: Path, dst: Path): Result<Fs, FsError>
  {
    if src == [] || src !in fs.files then
      if src in fs.dirs then Err(IsADirectory(src)) else Err(NotFound(src))
    else
      var target := if dst in fs.dirs then dst + [Last(src)] else dst;
      if dst in fs.dirs && Exists(fs, target) then Err(AlreadyExists(target))
      else if target == [] then Err(NotFound(target))
      else if target in fs.dirs then Err(IsADirectory(target))
      else if !ParentIsDir(fs, target) then Err(MissingParent(target))
      else Ok(Fs(fs.dirs, (fs.files - {src})[target := fs.files[src]]))
  }

  /** `open(p, 'w').write(content)`. */
  function WriteFile(fs: Fs, p: Path, content: string): Result<Fs, FsError>
  {
    if p == [] then Err(NotFound(p))
    else if p in fs.dirs then Err(IsADirectory(p))
    else if !ParentIsDir(fs, p) then Err(MissingParent(p))
    else Ok(Fs(fs.dirs, fs.files[p := content]))
  }

  /** `q` lies in the tree at `src` and nothing on the way is ignored. */
  predicate Copied(q: Path, src: Path, exclude: set<string>)
  {
    IsPrefix(src, q) && Kept(q[|src|..], exclude)
  }

  /** The directories of the tree at `src`, placed at `dst`. */
  function TreeDirs(fs: Fs, src: Path, dst: Path, exclude: set<string>): set<Path>
  {
    set q | q in fs.dirs && Copied(q, src, exclude) :: dst + q[|src|..]
  }

  lemma RelocateInjective(src: Path, dst: Path)
    ensures forall q1, q2 :: IsPrefix(src, q1) && IsPrefix(src, q2) && dst + q1[|src|..] == dst + q2[|src|..] ==> q1 == q2
  {
    forall q1, q2 | IsPrefix(src, q1) && IsPrefix(src, q2) && dst + q1[|src|..] == dst + q2[|src|..]
      ensures q1 == q2
    {
      assert q1[|src|..] == (dst + q1[|src|..])[|dst|..];
      assert q2[|src|..] == (dst + q2[|src|..])[|dst|..];
      assert q1 == q1[..|src|] + q1[|src|..];
      assert q2 == q2[..|src|] + q2[|src|..];
    }
  }

  /** The files of the tree at `src`, placed at `dst` with their contents. */
  function TreeFiles(fs: Fs, src: Path, dst: Path, exclude: set<string>): map<Path, string>
  {
    RelocateInjective(src, dst);
    map q | q in fs.files && Copied(q, src, exclude) :: dst + q[|src|..] := fs.files[q]
  }

  /** `shutil.copytree(src, dst, ignore=ignore_patterns(*exclude))`: the
      destination is created as by `os.makedirs`, then every entry of the
      source tree whose path holds no ignored name is copied. */
  function CopyTree(fs: Fs, src: Path, dst: Path, exclude: set<string>): Result<Fs, FsError>
  {
    if src !in fs.dirs then
      if src in fs.files then Err(NotADirectory(src)) else Err(NotFound(src))
    else
      match MakeDirs(fs, dst)
      case Err(e) => Err(e)
      case Ok(made) =>
        Ok(Fs(made.dirs + TreeDirs(fs, src, dst, exclude), made.files + TreeFiles(fs, src, dst, exclude)))
  }

  // ---------------------------------------------------------------------------
  // Every operation keeps the tree well formed
  // ---------------------------------------------------------------------------

  lemma MakeDirsValid(fs: Fs, p: Path)
    requires Valid(fs) && MakeDirs(fs, p).Ok?
    ensures Valid(MakeDirs(fs, p).value)
  {
    var fs' := MakeDirs(fs, p).value;
    forall q | q in Ancestry(p) ensures q !in fs.files {
      var i :| 1 <= i <= |p| && q == p[..i];
      if i == |p| {
        assert q == p;
      }
    }
    forall q, i | q in fs'.dirs && 0 < i < |q| ensures q[..i] in fs'.dirs {
      if q in Ancestry(p) {
        var j :| 1 <= j <= |p| && q == p[..j];
        assert q[..i] == p[..i];
      }
    }
  }

  /** A new file whose parent directory exists keeps the tree well formed. */
  lemma AddFileValid(fs: Fs, p: Path, content: string)
    requires Valid(fs) && p != [] && p !in fs.dirs && ParentIsDir(fs, p)
    ensures Valid(Fs(fs.dirs, fs.files[p := content]))
  {
    forall i | 0 < i < |p| ensures p[..i] in fs.dirs {
      if i < |p| - 1 {
        assert p[..i] == p[..|p| - 1][..i];
      }
    }
  }

  lemma CopyFileValid(fs: Fs, src: Path, dst: Path)
    requires Valid(fs) && CopyFile(fs, src, dst).Ok?
    ensures Valid(CopyFile(fs, src, dst).value)
  {
    var target := if dst in fs.dirs then dst + [Last(src)] else dst;
    AddFileValid(fs, target, fs.files[src]);
  }

  lemma WriteFileValid(fs: Fs, p: Path, content: string)
    requires Valid(fs) && WriteFile(fs, p, content).Ok?
    ensures Valid(WriteFile(fs, p, content).value)
  {
    AddFileValid(fs, p, content);
  }

  lemma MoveFileValid(fs: Fs, src: Path, dst: Path)
    requires Valid(fs) && MoveFile(fs, src, dst).Ok?
    ensures Valid(MoveFile(fs, src, dst).value)
  {
    var target := if dst in fs.dirs then dst + [Last(src)] else dst;
    var removed := Fs(fs.dirs, fs.files - {src});
    assert Valid(removed);
    AddFileValid(removed, target, fs.files[src]);
  }

  /** In a well-formed tree, a path that does not exist has nothing below it. */
  lemma MissingIsFresh(fs: Fs, p: Path)
    requires Valid(fs) && p != [] && !Exists(fs, p)
    ensures Fresh(fs, p)
  {
    forall q | q in fs.dirs || q in fs.files ensures !IsPrefix(p, q) {
      if |p| < |q| {
        assert q[..|p|] in fs.dirs;
      } else {
        assert q[..|q|] == q;
      }
    }
  }

  lemma RelocatePrefix(src: Path, dst: Path, q: Path, i: nat)
    requires IsPrefix(src, q) && |dst| < i <= |dst| + |q| - |src|
    ensures (dst + q[|src|..])[..i] == dst + q[..|src| + i - |dst|][|src|..]
  {
  }

  /** Every ancestor of an entry copied by `copytree` is a directory afterwards. */
  lemma TreeAncestors(fs: Fs, src: Path, dst: Path, exclude: set<string>, q: Path, i: int)
    requires Valid(fs) && src in fs.dirs && MakeDirs(fs, dst).Ok?
    requires (q in fs.dirs || q in fs.files) && Copied(q, src, exclude)
    requires 0 < i < |dst| + |q| - |src|
    ensures (dst + q[|src|..])[..i] in CopyTree(fs, src, dst, exclude).value.dirs
  {
    var t := dst + q[|src|..];
    var fs' := CopyTree(fs, src, dst, exclude).value;
    if i <= |dst| {
      assert t[..i] == dst[..i];
      assert dst[..i] in Ancestry(dst);
    } else {
      var j := |src| + i - |dst|;
      assert src != [];
      assert q[..j] in fs.dirs;
      assert q[..j][..|src|] == src;
      assert q[..j][|src|..] == q[|src|..][..i - |dst|];
      assert Copied(q[..j], src, exclude);
      RelocatePrefix(src, dst, q, i);
      assert t[..i] in TreeDirs(fs, src, dst, exclude);
    }
  }

  /** The copy of the tree is new: nothing existed at or below `dst`. */
  lemma TreeIsNew(fs: Fs, src: Path, dst: Path, exclude: set<string>, q: Path)
    requires Valid(fs) && src in fs.dirs && MakeDirs(fs, dst).Ok?
    requires (q in fs.dirs || q in fs.files) && IsPrefix(src, q)
    ensures !Exists(fs, dst + q[|src|..])
    ensures dst + q[|src|..] !in Ancestry(dst) || q == src
  {
    MissingIsFresh(fs, dst);
    assert IsPrefix(dst, dst + q[|src|..]);
    if dst + q[|src|..] in Ancestry(dst) {
      assert |q[|src|..]| == 0;
      assert q == q[..|src|];
    }
  }

  lemma CopyTreeValid(fs: Fs, src: Path, dst: Path, exclude: set<string>)
    requires Valid(fs) && CopyTree(fs, src, dst, exclude).Ok?
    ensures Valid(CopyTree(fs, src, dst, exclude).value)
  {
    var made := MakeDirs(fs, dst).value;
    MakeDirsValid(fs, dst);
    var fs' := CopyTree(fs, src, dst, exclude).value;
    var tds := TreeDirs(fs, src, dst, exclude);
    var tfs := TreeFiles(fs, src, dst, exclude);
    RelocateInjective(src, dst);
    forall t | t in tfs ensures t !in made.dirs && t !in tds && t != [] {
      var q :| q in fs.files && Copied(q, src, exclude) && t == dst + q[|src|..];
      TreeIsNew(fs, src, dst, exclude, q);
    }
    forall t | t in tds ensures t !in made.files && t != [] {
      var q :| q in fs.dirs && Copied(q, src, exclude) && t == dst + q[|src|..];
      TreeIsNew(fs, src, dst, exclude, q);
    }
    forall t, i | t in fs'.dirs && 0 < i < |t| ensures t[..i] in fs'.dirs {
      if t in tds {
        var q :| q in fs.dirs && Copied(q, src, exclude) && t == dst + q[|src|..];
        TreeAncestors(fs, src, dst, exclude, q, i);
      } else {
        assert t in made.dirs;
      }
    }
    forall t, i | t in fs'.files && 0 < i < |t| ensures t[..i] in fs'.dirs {
      if t in tfs {
        var q :| q in fs.files && Copied(q, src, exclude) && t == dst + q[|src|..];
        TreeAncestors(fs, src, dst, exclude, q, i);
      } else {
        assert t in made.files;
      }
    }
  }

  // ---------------------------------------------------------------------------
  // Where each operation adds entries
  // ---------------------------------------------------------------------------

  /** An operation aimed at `a` may add `a` and its ancestors and, when it is
      `deep`, entries below `a` whose path below `a` holds no ignored name. */
  predicate Reach(q: Path, a: Path, exclude: set<string>, deep: bool)
  {
    IsPrefix(q, a) || (deep && IsPrefix(a, q) && Kept(q[|a|..], exclude))
  }

  /** Every entry of `fs'` that `fs` lacks is in reach of `a`. */
  predicate Within(fs: Fs, fs': Fs, a: Path, exclude: set<string>, deep: bool)
  {
    && (forall q :: q in fs'.dirs && q !in fs.dirs ==> Reach(q, a, exclude, deep))
    && (forall q :: q in fs'.files && q !in fs.files ==> Reach(q, a, exclude, deep))
  }

  /** No entry in reach of `a` is at or below `p`. */
  predicate Separated(p: Path, a: Path, exclude: set<string>, deep: bool)
  {
    && !IsPrefix(p, a)
    && (deep ==> !IsPrefix(a, p) || (|p| > |a| && p[|a|] in exclude))
  }

  lemma ReachSeparated(q: Path, p: Path, a: Path, exclude: set<string>, deep: bool)
    requires Reach(q, a, exclude, deep) && Separated(p, a, exclude, deep)
    ensures !IsPrefix(p, q)
  {
    if IsPrefix(q, a) && |p| <= |q| {
      assert a[..|p|] == q[..|p|];
    } else if IsPrefix(a, q) && |p| <= |a| {
      assert a[..|p|] == q[..|p|];
    } else if IsPrefix(a, q) && |a| < |p| <= |q| {
      assert q[|a|..][0] == q[|a|];
    }
  }

  /** An operation confined to `a` leaves a path separated from `a` fresh. */
  lemma FreshKept(fs: Fs, fs': Fs, p: Path, a: Path, exclude: set<string>, deep: bool)
    requires Fresh(fs, p) && Within(fs, fs', a, exclude, deep) && Separated(p, a, exclude, deep)
    ensures Fresh(fs', p)
  {
    forall q | q in fs'.dirs || q in fs'.files ensures !IsPrefix(p, q) {
      if (q in fs'.dirs && q !in fs.dirs) || (q in fs'.files && q !in fs.files) {
        ReachSeparated(q, p, a, exclude, deep);
      }
    }
  }

  lemma WithinSame(fs: Fs, a: Path, exclude: set<string>, deep: bool)
    ensures Within(fs, fs, a, exclude, deep)
  {
  }

  lemma WithinTrans(fs1: Fs, fs2: Fs, fs3: Fs, a: Path, exclude: set<string>, deep: bool)
    requires Within(fs1, fs2, a, exclude, deep) && Within(fs2, fs3, a, exclude, deep)
    requires fs1.dirs <= fs2.dirs && fs1.files.Keys <= fs2.files.Keys
    ensures Within(fs1, fs3, a, exclude, deep)
  {
  }

  lemma MakeDirsWithin(fs: Fs, p: Path)
    requires MakeDirs(fs, p).Ok?
    ensures Within(fs, MakeDirs(fs, p).value, p, {}, false)
    ensures fs.dirs <= MakeDirs(fs, p).value.dirs && fs.files == MakeDirs(fs, p).value.files
  {
  }

  lemma KeptBelow(dst: Path, name: string)
    ensures Reach(dst + [name], dst, {}, true)
  {
    assert (dst + [name])[..|dst|] == dst;
  }

  lemma CopyFileWithin(fs: Fs, src: Path, dst: Path)
    requires CopyFile(fs, src, dst).Ok?
    ensures Within(fs, CopyFile(fs, src, dst).value, dst, {}, true)
    ensures fs.dirs == CopyFile(fs, src, dst).value.dirs
    ensures fs.files.Keys <= CopyFile(fs, src, dst).value.files.Keys
  {
    if dst in fs.dirs {
      KeptBelow(dst, Last(src));
    }
  }

  lemma MoveFileWithin(fs: Fs, src: Path, dst: Path)
    requires MoveFile(fs, src, dst).Ok?
    ensures Within(fs, MoveFile(fs, src, dst).value, dst, {}, true)
    ensures fs.dirs == MoveFile(fs, src, dst).value.dirs
  {
    if dst in fs.dirs {
      KeptBelow(dst, Last(src));
    }
  }

  lemma WriteFileWithin(fs: Fs, p: Path, content: string)
    requires WriteFile(fs, p, content).Ok?
    ensures Within(fs, WriteFile(fs, p, content).value, p, {}, false)
    ensures fs.dirs == WriteFile(fs, p, content).value.dirs
    ensures fs.files.Keys <= WriteFile(fs, p, content).value.files.Keys
  {
  }

  lemma RelocatedReach(src: Path, dst: Path, q: Path, exclude: set<string>)
    requires Copied(q, src, exclude)
    ensures Reach(dst + q[|src|..], dst, exclude, true)
  {
    assert (dst + q[|src|..])[|dst|..] == q[|src|..];
    assert (dst + q[|src|..])[..|dst|] == dst;
  }

  lemma CopyTreeWithin(fs: Fs, src: Path, dst: Path, exclude: set<string>)
    requires CopyTree(fs, src, dst, exclude).Ok?
    ensures Within(fs, CopyTree(fs, src, dst, exclude).value, dst, exclude, true)
    ensures fs.dirs <= CopyTree(fs, src, dst, exclude).value.dirs
    ensures fs.files.Keys <= CopyTree(fs, src, dst, exclude).value.files.Keys
  {
    var fs' := CopyTree(fs, src, dst, exclude).value;
    forall q | q in fs'.dirs && q !in fs.dirs ensures Reach(q, dst, exclude, true) {
      if q !in Ancestry(dst) {
        var q0 :| q0 in fs.dirs && Copied(q0, src, exclude) && q == dst + q0[|src|..];
        RelocatedReach(src, dst, q0, exclude);
      }
    }
    forall q | q in fs'.files && q !in fs.files ensures Reach(q, dst, exclude, true) {
      var q0 :| q0 in fs.files && Copied(q0, src, exclude) && q == dst + q0[|src|..];
      RelocatedReach(src, dst, q0, exclude);
    }
  }

  /** `os.makedirs` onto a missing path creates it, keeps the tree well formed
      and adds nothing outside it; it can fail only on a file in the way. */
  lemma MakeDirsSafe(fs: Fs, p: Path)
    requires Valid(fs) && !Exists(fs, p)
    ensures MakeDirs(fs, p).Err? ==> !MakeDirs(fs, p).error.AlreadyExists? && !MakeDirs(fs, p).error.MissingParent?
    ensures MakeDirs(fs, p).Ok? ==>
      && Valid(MakeDirs(fs, p).value) && p in MakeDirs(fs, p).value.dirs
      && fs.dirs <= MakeDirs(fs, p).value.dirs && fs.files == MakeDirs(fs, p).value.files
      && Within(fs, MakeDirs(fs, p).value, p, {}, false)
  {
    if MakeDirs(fs, p).Ok? {
      assert p[..|p|] == p;
      MakeDirsValid(fs, p);
      MakeDirsWithin(fs, p);
    }
  }

  /** `shutil.copytree` onto a missing path creates it and adds nothing outside
      the copied tree; it can fail only on a missing source or a file in the way. */
  lemma CopyTreeSafe(fs: Fs, src: Path, dst: Path, exclude: set<string>)
    requires Valid(fs) && !Exists(fs, dst)
    ensures CopyTree(fs, src, dst, exclude).Err? ==>
      !CopyTree(fs, src, dst, exclude).error.AlreadyExists? && !CopyTree(fs, src, dst, exclude).error.MissingParent?
    ensures CopyTree(fs, src, dst, exclude).Ok? ==>
      && Valid(CopyTree(fs, src, dst, exclude).value) && dst in CopyTree(fs, src, dst, exclude).value.dirs
      && fs.dirs <= CopyTree(fs, src, dst, exclude).value.dirs
      && fs.files.Keys <= CopyTree(fs, src, dst, exclude).value.files.Keys
      && Within(fs, CopyTree(fs, src, dst, exclude).value, dst, exclude, true)
  {
    if src in fs.dirs {
      MakeDirsSafe(fs, dst);
      if CopyTree(fs, src, dst, exclude).Ok? {
        CopyTreeValid(fs, src, dst, exclude);
        CopyTreeWithin(fs, src, dst, exclude);
      }
    }
  }
}
