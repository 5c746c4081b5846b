/**
 * The Windows distribution (`win_dist` and `win_dist_libr2`,
 * sys/meson.py:160-216) as an ordered list of filesystem operations, each
 * with its path templates, run against the abstract filesystem.
 *
 * Every destination of the distribution is `{DIST}` or `{DIST}\{KEY}` for an
 * R2_PATH key, followed by fixed directory names; `Dest` records that shape
 * and `DestTemplate` spells it as the template the script passes. Sources are
 * templates too; they are formatted once and then expanded by `glob`, which
 * the model takes as a parameter.
 */
module Distribution {
  import opened Results
  import opened Text
  import opened PathFormat
  import opened PathTables
  import opened PathKeys
  import opened FileSystem

  /** A single directory name: no separator and no placeholder. */
  type Name = s: string | IsName(s) && NoBraces(s) witness "bin"

  /** `{DIST}` or `{DIST}\{KEY}`, followed by the names in `tail`. */
  datatype Dest = Dest(key: Option<PathKey>, tail: seq<Name>)

  /** The template text of a destination, e.g. `{DIST}\{R2_SDB}\syscall`. */
  function DestTemplate(d: Dest): string
  {
    "{DIST}" + (match d.key case None => "" case Some(k) => "\\{" + KeyName(k) + "}") + Suffix(d.tail)
  }

  /** The source patterns the distribution copies from. */
  datatype Source =
    | Executables | Dlls | ImportLibs | StaticLibs | WebUi | MagicDefault
    | SyscallSdb | AnalSdb | AsmSdb | Headers | VersionHeader | UserconfHeader
    | SdbHeaders | UtilHeaders | CryptoHeaders | FortuneFiles | BinFormats
    | DllFormats | ThemeFiles | FlagFiles | HudFile

  /** The template text of a source pattern. */
  function Pattern(s: Source): string
  {
    match s
    case Executables => "{BUILDDIR}\\binr\\*\\*.exe"
    case Dlls => "{BUILDDIR}\\libr\\*\\*.dll"
    case ImportLibs => "{BUILDDIR}\\libr\\*\\*.lib"
    case StaticLibs => "{BUILDDIR}\\libr\\*\\*.a"
    case WebUi => "{ROOT}\\shlr\\www"
    case MagicDefault => "{ROOT}\\libr\\magic\\d\\default"
    case SyscallSdb => "{BUILDDIR}\\libr\\syscall\\d\\*.sdb"
    case AnalSdb => "{BUILDDIR}\\libr\\anal\\d\\*.sdb"
    case AsmSdb => "{BUILDDIR}\\libr\\asm\\d\\*.sdb"
    case Headers => "{ROOT}\\libr\\include\\*.h"
    case VersionHeader => "{BUILDDIR}\\r_version.h"
    case UserconfHeader => "{BUILDDIR}\\r_userconf.h"
    case SdbHeaders => "{ROOT}\\libr\\include\\sdb\\*.h"
    case UtilHeaders => "{ROOT}\\libr\\include\\r_util\\*.h"
    case CryptoHeaders => "{ROOT}\\libr\\include\\r_crypto\\*.h"
    case FortuneFiles => "{ROOT}\\doc\\fortunes.*"
    case BinFormats => "{ROOT}\\libr\\bin\\d"
    case DllFormats => "{BUILDDIR}\\libr\\bin\\d\\*.sdb"
    case ThemeFiles => "{ROOT}\\libr\\cons\\d"
    case FlagFiles => "{BUILDDIR}\\libr\\flag\\d\\*.r2"
    case HudFile => "{ROOT}\\doc\\hud"
  }

  /** One call of the distribution script. */
  datatype Op =
    | MakeDirsOp(dst: Dest)                                     // makedirs(dst)
    | CopyOp(src: Source, dst: Dest)                            // copy(src, dst)
    | CopyTreeOp(src: Source, dst: Dest, exclude: set<string>)  // copytree(src, dst, exclude)
    | WriteLauncher                                             // the r2.bat launcher
    | Skip                                                      // a step its flag switched off

  /** The exceptions a step raises: a template `str.format` rejects, or an
      OSError of the filesystem operation. */
  datatype DistError = BadTemplate(why: FormatError) | Os(fault: FsError)

  /** `glob.iglob(pattern, recursive=...)` in a given filesystem state. */
  type Glob = (Fs, string, bool) -> seq<Path>

  /** The launcher `r2.bat` runs radare2 from its own directory. */
  const LauncherText: string := "@\"%~dp0\\radare2\" %*\n"

  /** A source template, formatted once. */
  function SourceText(tpl: string, env: Registry): Result<string, DistError>
  {
    match Format(tpl, env)
    case Err(e) => Err(BadTemplate(e))
    case Ok(s) => Ok(s)
  }

  /** A destination template, formatted twice and split into components. */
  function Target(tpl: string, env: Registry): Result<Path, DistError>
  {
    match Resolve(tpl, env)
    case Err(e) => Err(BadTemplate(e))
    case Ok(s) => Ok(Components(s))
  }

  function Lift(r: Result<Fs, FsError>): Result<Fs, DistError>
  {
    match r
    case Err(e) => Err(Os(e))
    case Ok(fs) => Ok(fs)
  }

  /** `shutil.copy2(file, dst)` for every file in turn; the first failure
      ends the loop. */
  function CopyEach(fs: Fs, files: seq<Path>, dst: Path): Result<Fs, FsError>
    decreases |files|
  {
    if files == [] then Ok(fs)
    else
      match CopyFile(fs, files[0], dst)
      case Err(e) => Err(e)
      case Ok(fs') => CopyEach(fs', files[1..], dst)
  }

  /** `shutil.move(file, dst)` for every file in turn. */
  function MoveEach(fs: Fs, files: seq<Path>, dst: Path): Result<Fs, FsError>
    decreases |files|
  {
    if files == [] then Ok(fs)
    else
      match MoveFile(fs, files[0], dst)
      case Err(e) => Err(e)
      case Ok(fs') => MoveEach(fs', files[1..], dst)
  }

  /** The helper `makedirs(path)`: the template formatted twice, then
      `os.makedirs`. */
  function Makedirs(fs: Fs, env: Registry, path: string): Result<Fs, DistError>
  {
    match Target(path, env)
    case Err(e) => Err(e)
    case Ok(p) => Lift(MakeDirs(fs, p))
  }

  /** The helper `copy(src, dst)`: the source is formatted once, before the
      destination, and globbed recursively exactly when it holds `**`. */
  function Copy(fs: Fs, env: Registry, glob: Glob, src: string, dst: string): Result<Fs, DistError>
  {
    match SourceText(src, env)
    case Err(e) => Err(e)
    case Ok(s) =>
      match Target(dst, env)
      case Err(e) => Err(e)
      case Ok(p) => Lift(CopyEach(fs, glob(fs, s, Contains(s, "**")), p))
  }

  /** The helper `copytree(src, dst, exclude)`; the source names a directory
      and is not globbed. */
  function Copytree(fs: Fs, env: Registry, src: string, dst: string, exclude: set<string>): Result<Fs, DistError>
  {
    match SourceText(src, env)
    case Err(e) => Err(e)
    case Ok(s) =>
      match Target(dst, env)
      case Err(e) => Err(e)
      case Ok(p) => Lift(CopyTree(fs, Components(s), p, exclude))
  }

  /** The helper `move(src, dst)`: the source is globbed, never recursively. */
  function Move(fs: Fs, env: Registry, glob: Glob, src: string, dst: string): Result<Fs, DistError>
  {
    match SourceText(src, env)
    case Err(e) => Err(e)
    case Ok(s) =>
      match Target(dst, env)
      case Err(e) => Err(e)
      case Ok(p) => Lift(MoveEach(fs, glob(fs, s, false), p))
  }

  /** The path of the launcher: the install directory string with
      `\bin\r2.bat` appended, not formatted. */
  function LauncherPath(install: string): Path
  {
    Components(install + "\\bin\\r2.bat")
  }

  /** One step of the distribution. */
  function Apply(fs: Fs, env: Registry, glob: Glob, install: string, op: Op): Result<Fs, DistError>
  {
    match op
    case MakeDirsOp(dst) => Makedirs(fs, env, DestTemplate(dst))
    case CopyOp(src, dst) => Copy(fs, env, glob, Pattern(src), DestTemplate(dst))
    case CopyTreeOp(src, dst, exclude) => Copytree(fs, env, Pattern(src), DestTemplate(dst), exclude)
    case WriteLauncher => Lift(WriteFile(fs, LauncherPath(install), LauncherText))
    case Skip => Ok(fs)
  }

  /** The steps from index `k` on, stopping at the first exception. */
  function RunFrom(fs: Fs, env: Registry, glob: Glob, install: string, ops: seq<Op>, k: nat): Result<Fs, DistError>
    requires k <= |ops|
    decreases |ops| - k
  {
    if k == |ops| then Ok(fs)
    else
      match Apply(fs, env, glob, install, ops[k])
      case Err(e) => Err(e)
      case Ok(fs') => RunFrom(fs', env, glob, install, ops, k + 1)
  }

  /** Running the rest of a list after a prefix is running the rest of
      the suffix. */
  lemma {:induction false} RunFromShift(fs: Fs, env: Registry, glob: Glob, install: string,
                                        xs: seq<Op>, ys: seq<Op>, j: nat)
    requires j <= |ys|
    ensures RunFrom(fs, env, glob, install, xs + ys, |xs| + j) == RunFrom(fs, env, glob, install, ys, j)
    decreases |ys| - j
  {
    if j < |ys| {
      assert (xs + ys)[|xs| + j] == ys[j];
      match Apply(fs, env, glob, install, ys[j])
      case Err(_) =>
      case Ok(fs') => RunFromShift(fs', env, glob, install, xs, ys, j + 1);
    }
  }

  /** Running two lists one after the other is running the first and, if it
      succeeds, the second from where the first left the filesystem. */
  lemma {:induction false} RunFromAppend(fs: Fs, env: Registry, glob: Glob, install: string,
                                         xs: seq<Op>, ys: seq<Op>, k: nat)
    requires k <= |xs|
    ensures RunFrom(fs, env, glob, install, xs + ys, k) ==
      match RunFrom(fs, env, glob, install, xs, k)
      case Err(e) => Err(e)
      case Ok(fs') => RunFrom(fs', env, glob, install, ys, 0)
    decreases |xs| - k
  {
    if k == |xs| {
      RunFromShift(fs, env, glob, install, xs, ys, 0);
    } else {
      assert (xs + ys)[k] == xs[k];
      match Apply(fs, env, glob, install, xs[k])
      case Err(_) =>
      case Ok(fs') => RunFromAppend(fs', env, glob, install, xs, ys, k + 1);
    }
  }

  // ---------------------------------------------------------------------------
  // The manifest
  // ---------------------------------------------------------------------------

  /** The steps of `win_dist` before it calls `win_dist_libr2`
      (sys/meson.py:166-180). */
  function WinDistOps(shared: bool): seq<Op>
  {
    [ MakeDirsOp(Dest(None, [])),
      MakeDirsOp(Dest(None, ["bin"])),
      CopyOp(Executables, Dest(None, ["bin"])),
      WriteLauncher,
      CopyOp(Dlls, Dest(None, ["bin"])),
      MakeDirsOp(Dest(Some(LibDir), [])),
      CopyOp(if shared then ImportLibs else StaticLibs,
             Dest(Some(LibDir), []))
    ]
  }

  /** The steps of `win_dist_libr2` (sys/meson.py:187-216). */
  function WinDistLibr2Ops(webui: bool): seq<Op>
  {
    [ if webui then CopyTreeOp(WebUi, Dest(Some(WwwRoot), []), {}) else Skip,
      CopyTreeOp(MagicDefault, Dest(Some(Sdb), ["magic"]), {}),
      MakeDirsOp(Dest(Some(Sdb), ["syscall"])),
      CopyOp(SyscallSdb, Dest(Some(Sdb), ["syscall"])),
      MakeDirsOp(Dest(Some(Sdb), ["fcnsign"])),
      CopyOp(AnalSdb, Dest(Some(Sdb), ["fcnsign"])),
      MakeDirsOp(Dest(Some(Sdb), ["opcodes"])),
      CopyOp(AsmSdb, Dest(Some(Sdb), ["opcodes"])),
      MakeDirsOp(Dest(Some(IncDir), ["sdb"])),
      MakeDirsOp(Dest(Some(IncDir), ["r_util"])),
      MakeDirsOp(Dest(Some(IncDir), ["r_crypto"])),
      CopyOp(Headers, Dest(Some(IncDir), [])),
      CopyOp(VersionHeader, Dest(Some(IncDir), [])),
      CopyOp(UserconfHeader, Dest(Some(IncDir), [])),
      CopyOp(SdbHeaders, Dest(Some(IncDir), ["sdb"])),
      CopyOp(UtilHeaders, Dest(Some(IncDir), ["r_util"])),
      CopyOp(CryptoHeaders, Dest(Some(IncDir), ["r_crypto"])),
      MakeDirsOp(Dest(Some(Fortunes), [])),
      CopyOp(FortuneFiles, Dest(Some(Fortunes), [])),
      CopyTreeOp(BinFormats, Dest(Some(Sdb), ["format"]), {"Makefile", "meson.build", "dll"}),
      MakeDirsOp(Dest(Some(Sdb), ["format", "dll"])),
      CopyOp(DllFormats, Dest(Some(Sdb), ["format", "dll"])),
      CopyTreeOp(ThemeFiles, Dest(Some(Themes), []), {"Makefile", "meson.build"}),
      MakeDirsOp(Dest(Some(Flags), [])),
      CopyOp(FlagFiles, Dest(Some(Flags), [])),
      MakeDirsOp(Dest(Some(Hud), [])),
      CopyOp(HudFile, Dest(Some(Hud), ["main"]))
    ]
  }

  // ---------------------------------------------------------------------------
  // Where each destination lands with the default R2_PATH table
  // ---------------------------------------------------------------------------

  /** PATH_FMT as `win_dist` sees it: the default R2_PATH entries and DIST. */
  predicate DistEnv(env: Registry, install: string)
  {
    && DefaultPaths(env)
    && "DIST" in env && env["DIST"] == install && NoBraces(install)
  }

  /** The components a destination names below the install directory. */
  function Layout(d: Dest): Path
  {
    (match d.key case None => [] case Some(k) => DefaultRel(k)) + d.tail
  }

  lemma {:induction false} SuffixNoBraces(rel: seq<string>)
    requires forall i :: 0 <= i < |rel| ==> NoBraces(rel[i])
    ensures NoBraces(Suffix(rel))
    decreases |rel|
  {
    if rel != [] {
      SuffixNoBraces(rel[1..]);
      NoBracesConcat("\\", rel[0]);
      NoBracesConcat("\\" + rel[0], Suffix(rel[1..]));
    }
  }

  lemma DistIsPlain()
    ensures PlainName("DIST")
  {
    assert "DIST"[0] == 'D';
  }

  /** Plain directory names: what a destination's tail is made of. */
  predicate Names(rel: seq<string>)
  {
    forall i :: 0 <= i < |rel| ==> IsName(rel[i]) && NoBraces(rel[i])
  }

  lemma TailFacts(install: string, rel: seq<string>)
    requires Names(rel)
    ensures NoBraces(Suffix(rel))
    ensures Components(install + Suffix(rel)) == Components(install) + rel
  {
    SuffixNoBraces(rel);
    ComponentsSuffix(install, rel);
  }

  /** `{DIST}` followed by a brace-free tail. */
  lemma RootTemplate(env: Registry, install: string, tail: string)
    requires "DIST" in env && env["DIST"] == install && NoBraces(install) && NoBraces(tail)
    ensures Resolve("{DIST}" + tail, env) == Ok(install + tail)
  {
    DistIsPlain();
    assert "{DIST}" + tail == "{" + "DIST" + "}" + tail;
    BaseTemplate("DIST", tail, env);
  }

  /** `{DIST}\{KEY}` followed by a brace-free tail, with KEY settled. */
  lemma KeyedTemplate(env: Registry, install: string, key: string, tail: string)
    requires "DIST" in env && env["DIST"] == install && NoBraces(install) && NoBraces(tail)
    requires SettledName(key, env)
    ensures Resolve("{DIST}\\{" + key + "}" + tail, env)
         == Ok(install + "\\" + Format(env[key], env).value + tail)
  {
    DistIsPlain();
    assert "{DIST}\\{" + key + "}" + tail == "{" + "DIST" + "}\\{" + key + "}" + tail;
    KeyTemplate("DIST", key, tail, env);
  }

  lemma RootDest(env: Registry, install: string, rel: seq<string>)
    requires "DIST" in env && env["DIST"] == install && NoBraces(install) && Names(rel)
    ensures Target("{DIST}" + Suffix(rel), env) == Ok(Components(install) + rel)
  {
    TailFacts(install, rel);
    RootTemplate(env, install, Suffix(rel));
  }

  lemma KeyDest(env: Registry, install: string, key: string, rel: seq<string>, layout: seq<string>)
    requires "DIST" in env && env["DIST"] == install && NoBraces(install) && Names(rel)
    requires SettledName(key, env) && Components(Format(env[key], env).value) == layout
    ensures Target("{DIST}\\{" + key + "}" + Suffix(rel), env) == Ok(Components(install) + layout + rel)
  {
    TailFacts(install, rel);
    KeyedTemplate(env, install, key, Suffix(rel));
    var v := Format(env[key], env).value;
    TailFacts(install + "\\" + v, rel);
    ComponentsJoin(install, v);
  }

  /** A destination whose tail is made of plain names resolves, in two
      passes, to the install directory followed by the key's default layout
      and the tail. */
  lemma DestResolves(env: Registry, install: string, d: Dest)
    requires DistEnv(env, install)
    ensures Target(DestTemplate(d), env) == Ok(Components(install) + Layout(d))
  {
    match d.key
    case None =>
      assert DestTemplate(d) == "{DIST}" + Suffix(d.tail);
      RootDest(env, install, d.tail);
      assert Layout(d) == d.tail;
    case Some(k) =>
      assert DestTemplate(d) == "{DIST}\\{" + KeyName(k) + "}" + Suffix(d.tail);
      KeyLayout(env, k);
      KeyDest(env, install, KeyName(k), d.tail, DefaultRel(k));
      assert Layout(d) == DefaultRel(k) + d.tail;
      assert Components(install) + DefaultRel(k) + d.tail == Components(install) + Layout(d);
  }

  // ---------------------------------------------------------------------------
  // What each kind of step can and cannot do
  // ---------------------------------------------------------------------------

  /** The failures the order of the distribution steps rules out: creating a
      path that exists already, and writing into a directory that does not. */
  predicate DestFault(e: DistError)
  {
    e.Os? && (e.fault.AlreadyExists? || e.fault.MissingParent?)
  }

  predicate NoDestFault(r: Result<Fs, DistError>)
  {
    r.Err? ==> !DestFault(r.error)
  }

  /** Nothing is removed. */
  predicate Grows(fs: Fs, fs': Fs)
  {
    fs.dirs <= fs'.dirs && fs.files.Keys <= fs'.files.Keys
  }

  /** A successful step: the tree stays well formed, nothing is removed and
      every new entry is in reach of `a`. */
  predicate Confined(fs: Fs, fs': Fs, a: Path, exclude: set<string>, deep: bool)
  {
    Valid(fs') && Grows(fs, fs') && Within(fs, fs', a, exclude, deep)
  }

  lemma CopyFileNoFault(fs: Fs, src: Path, p: Path)
    requires p != [] && ParentIsDir(fs, p)
    ensures CopyFile(fs, src, p).Err? ==>
      !CopyFile(fs, src, p).error.AlreadyExists? && !CopyFile(fs, src, p).error.MissingParent?
  {
    if src != [] && src in fs.files && p in fs.dirs {
      assert (p + [Last(src)])[..|p|] == p;
    }
  }

  /** Copying files into an existing directory, or to a path whose directory
      exists, never meets a missing directory. */
  lemma {:induction false} CopyEachSafe(fs: Fs, files: seq<Path>, p: Path)
    requires Valid(fs) && p != [] && ParentIsDir(fs, p)
    ensures CopyEach(fs, files, p).Err? ==>
      !CopyEach(fs, files, p).error.AlreadyExists? && !CopyEach(fs, files, p).error.MissingParent?
    ensures CopyEach(fs, files, p).Ok? ==>
      Confined(fs, CopyEach(fs, files, p).value, p, {}, true) && CopyEach(fs, files, p).value.dirs == fs.dirs
    decreases |files|
  {
    if files != [] {
      CopyFileNoFault(fs, files[0], p);
      var c := CopyFile(fs, files[0], p);
      if c.Ok? {
        CopyFileValid(fs, files[0], p);
        CopyFileWithin(fs, files[0], p);
        CopyEachSafe(c.value, files[1..], p);
        var r := CopyEach(c.value, files[1..], p);
        if r.Ok? {
          WithinTrans(fs, c.value, r.value, p, {}, true);
        }
      }
    } else {
      WithinSame(fs, p, {}, true);
    }
  }

  lemma FreshMissing(fs: Fs, p: Path)
    requires Fresh(fs, p)
    ensures !Exists(fs, p)
  {
    assert IsPrefix(p, p);
  }

  lemma MakeDirsStep(fs: Fs, env: Registry, glob: Glob, install: string, dst: Dest)
    requires DistEnv(env, install) && Valid(fs)
    requires Fresh(fs, Components(install) + Layout(dst))
    ensures NoDestFault(Apply(fs, env, glob, install, MakeDirsOp(dst)))
    ensures var r := Apply(fs, env, glob, install, MakeDirsOp(dst));
      r.Ok? ==> (Confined(fs, r.value, Components(install) + Layout(dst), {}, false)
                 && Components(install) + Layout(dst) in r.value.dirs)
  {
    var p := Components(install) + Layout(dst);
    DestResolves(env, install, dst);
    FreshMissing(fs, p);
    MakeDirsSafe(fs, p);
  }

  lemma CopyTreeStep(fs: Fs, env: Registry, glob: Glob, install: string, src: Source, dst: Dest, exclude: set<string>)
    requires DistEnv(env, install) && Valid(fs)
    requires Fresh(fs, Components(install) + Layout(dst))
    ensures NoDestFault(Apply(fs, env, glob, install, CopyTreeOp(src, dst, exclude)))
    ensures var r := Apply(fs, env, glob, install, CopyTreeOp(src, dst, exclude));
      r.Ok? ==> (Confined(fs, r.value, Components(install) + Layout(dst), exclude, true)
                 && Components(install) + Layout(dst) in r.value.dirs)
  {
    var p := Components(install) + Layout(dst);
    DestResolves(env, install, dst);
    FreshMissing(fs, p);
    if SourceText(Pattern(src), env).Ok? {
      CopyTreeSafe(fs, Components(SourceText(Pattern(src), env).value), p, exclude);
    }
  }

  lemma CopyStep(fs: Fs, env: Registry, glob: Glob, install: string, src: Source, dst: Dest)
    requires DistEnv(env, install) && Valid(fs)
    requires Components(install) + Layout(dst) != []
    requires ParentIsDir(fs, Components(install) + Layout(dst))
    ensures NoDestFault(Apply(fs, env, glob, install, CopyOp(src, dst)))
    ensures var r := Apply(fs, env, glob, install, CopyOp(src, dst));
      r.Ok? ==> Confined(fs, r.value, Components(install) + Layout(dst), {}, true)
  {
    var p := Components(install) + Layout(dst);
    DestResolves(env, install, dst);
    if SourceText(Pattern(src), env).Ok? {
      var s := SourceText(Pattern(src), env).value;
      CopyEachSafe(fs, glob(fs, s, Contains(s, "**")), p);
    }
  }

  lemma LauncherAt(install: string)
    ensures LauncherPath(install) == Components(install) + ["bin", "r2.bat"]
  {
    assert install + "\\bin\\r2.bat" == install + Suffix(["bin", "r2.bat"]);
    assert Names(["bin", "r2.bat"]);
    TailFacts(install, ["bin", "r2.bat"]);
  }

  lemma LauncherStep(fs: Fs, env: Registry, glob: Glob, install: string)
    requires Valid(fs) && ParentIsDir(fs, Components(install) + ["bin", "r2.bat"])
    ensures NoDestFault(Apply(fs, env, glob, install, WriteLauncher))
    ensures var r := Apply(fs, env, glob, install, WriteLauncher);
      r.Ok? ==> Confined(fs, r.value, Components(install) + ["bin", "r2.bat"], {}, false)
  {
    var p := Components(install) + ["bin", "r2.bat"];
    LauncherAt(install);
    assert p[..|p| - 1] == Components(install) + ["bin"];
    if WriteFile(fs, p, LauncherText).Ok? {
      WriteFileValid(fs, p, LauncherText);
      WriteFileWithin(fs, p, LauncherText);
    }
  }
}
