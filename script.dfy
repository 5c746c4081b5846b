/**
 * The script as a whole (sys/meson.py): the module-level tables `PATH_FMT`
 * and `R2_PATH`, the filesystem the script works on and the commands it has
 * handed to `subprocess.call` are the fields of a `Script`, and its
 * functions are the methods that update them.
 *
 * The host (path functions, glob, the tools and the toolset pattern) is a
 * parameter of each method. `sys.exit` and uncaught exceptions end a method
 * early with a description of why, which `Run` turns into its outcome.
 */
module MesonScript {
  import opened Results
  import opened Text
  import opened PathFormat
  import opened PathTables
  import opened FileSystem
  import opened Distribution
  import opened DistPlan
  import opened Options
  import opened Commands
  import opened Guards
  import opened XpPatch
  import opened BuildPlan
  import opened PathKeys

  /** How a run of the script ends. */
  datatype Outcome =
    | Finished
    | Refused(guard: GuardError)        // a guard of `main` exits with status 1
    | BadOption(option: OptionError)    // the option loop exits with status 1
    | BuildStopped(halt: Halt)          // a tool failed, or xp_compat raised
    | InstallFailed(error: DistError)   // win_dist raised

  /** `os.path.exists` on the modelled filesystem. */
  function Present(fs: Fs): string -> bool
  {
    p => Exists(fs, Components(p))
  }

  /** A step of the distribution ended as its model says: on success the
      filesystem is the one the model computes, and an exception is the
      one the model raises. */
  predicate Settled(r: Result<Fs, DistError>, fs: Fs, err: Option<DistError>)
  {
    match r
    case Ok(fs') => err.None? && fs == fs'
    case Err(e) => err == Some(e)
  }

  /** How `main` ends after `install`: finished when the distribution was
      laid out, failed with the exception that stopped it otherwise. */
  predicate Installed(r: Result<Fs, DistError>, fs: Fs, outcome: Outcome)
  {
    match r
    case Ok(fs') => outcome == Finished && fs == fs'
    case Err(e) => outcome == InstallFailed(e)
  }

  /** What the distribution promises, read off a run that ended as the
      model says: with the default layout and a new install directory, no
      destination is at fault and the new entries lie below the install
      directory. */
  lemma DistributionSafe(fs0: Fs, fs: Fs, err: Option<DistError>, env: Registry, glob: Glob, install: string,
                         shared: bool, webui: bool)
    requires Settled(RunFrom(fs0, env, glob, install, Ops(shared, webui), 0), fs, err)
    ensures Valid(fs0) && DistEnv(env, install) && Fresh(fs0, Components(install)) ==>
      && (err.Some? ==> !DestFault(err.value))
      && (err.None? ==> Valid(fs) && Grows(fs0, fs) && Within(fs0, fs, Components(install), {}, true))
  {
    if Valid(fs0) && DistEnv(env, install) && Fresh(fs0, Components(install)) {
      WinDistSafe(fs0, env, glob, install, shared, webui);
    }
  }

  /** With the default R2_PATH table, PATH_FMT as `win_dist` leaves it
      (R2_PATH published, then DIST and BUILDDIR set) is the environment the
      distribution's safety rests on, whatever PATH_FMT held before and
      whatever the build directory is. */
  lemma DefaultTableReady(pathFmt: Registry, install: string, builddir: string)
    requires NoBraces(install)
    ensures DistEnv((pathFmt + R2PathDefaults)["DIST" := install]["BUILDDIR" := builddir], install)
  {
    var env := (pathFmt + R2PathDefaults)["DIST" := install]["BUILDDIR" := builddir];
    assert "DIST" !in R2PathDefaults && "BUILDDIR" !in R2PathDefaults;
    assert Holds(env, R2PathDefaults);
    HoldsDefaults(env);
  }

  class Script {
    /** `PATH_FMT`: the names the path templates may use. */
    var pathFmt: Registry
    /** `R2_PATH`: the layout of the distribution. */
    var r2Path: Registry
    /** The files and directories of the machine. */
    var fs: Fs
    /** Every command handed to `subprocess.call`, in order. */
    var calls: seq<seq<string>>
    /** `ROOT`, the source tree, and `MESON`, the meson launcher. */
    const root: string
    const mesonExe: seq<string>

    /** `set_global_variables` (sys/meson.py:35-61): the root and the
        version become the first entries of PATH_FMT; R2_PATH holds its
        defaults. */
    constructor(root: string, version: string, mesonExe: seq<string>, fs: Fs)
      ensures this.root == root && this.mesonExe == mesonExe
      ensures pathFmt == map["ROOT" := root, "R2_VERSION" := version]
      ensures r2Path == R2PathDefaults && this.fs == fs && calls == []
    {
      this.root := root;
      this.mesonExe := mesonExe;
      this.fs := fs;
      pathFmt := map["ROOT" := root, "R2_VERSION" := version];
      r2Path := R2PathDefaults;
      calls := [];
    }

    // -------------------------------------------------------------------------
    // Tools
    // -------------------------------------------------------------------------

    /** `subprocess.call(command)` and the exit-status test around it. */
    method Call(command: seq<string>, host: Host) returns (ok: bool)
      modifies this
      ensures calls == old(calls) + [command]
      ensures fs == host.tool(command, old(fs)).1
      ensures ok <==> host.tool(command, old(fs)).0 == 0
      ensures pathFmt == old(pathFmt) && r2Path == old(r2Path)
    {
      var status: int, after: Fs := host.tool(command, fs).0, host.tool(command, fs).1;
      calls := calls + [command];
      fs := after;
      ok := status == 0;
    }

    /** `meson(root, build, ...)` (sys/meson.py:66-88): the command it
        builds and whether meson succeeded. */
    method Meson(root: string, build: string, prefix: string, backend: string, release: bool,
                 shared: bool, options: seq<string>, host: Host)
      returns (ok: bool, command: seq<string>)
      modifies this
      ensures command == mesonExe + [root, build] + MesonFlags(prefix, backend, release, shared) + options
      ensures calls == old(calls) + [command]
      ensures fs == host.tool(command, old(fs)).1
      ensures ok <==> host.tool(command, old(fs)).0 == 0
      ensures pathFmt == old(pathFmt) && r2Path == old(r2Path)
    {
      command := MesonCommand(mesonExe, root, build, prefix, backend, release, shared, options);
      ok := Call(command, host);
    }

    /** `ninja(folder)` (sys/meson.py:90-99). */
    method Ninja(folder: string, host: Host) returns (ok: bool, command: seq<string>)
      modifies this
      ensures command == ["ninja", "-C", folder]
      ensures calls == old(calls) + [command]
      ensures fs == host.tool(command, old(fs)).1
      ensures ok <==> host.tool(command, old(fs)).0 == 0
      ensures pathFmt == old(pathFmt) && r2Path == old(r2Path)
    {
      command := NinjaCommand(folder, []);
      ok := Call(command, host);
    }

    /** `msbuild(project, *params)` (sys/meson.py:101-110). */
    method Msbuild(project: string, params: seq<string>, host: Host) returns (ok: bool, command: seq<string>)
      modifies this
      ensures command == ["msbuild", project] + params
      ensures calls == old(calls) + [command]
      ensures fs == host.tool(command, old(fs)).1
      ensures ok <==> host.tool(command, old(fs)).0 == 0
      ensures pathFmt == old(pathFmt) && r2Path == old(r2Path)
    {
      command := MsbuildCommand(project, params);
      assert command == command[..2] + command[2..];
      ok := Call(command, host);
    }

    // -------------------------------------------------------------------------
    // The XP patch
    // -------------------------------------------------------------------------

    /** `xp_compat(builddir)` (sys/meson.py:139-157). */
    method XpCompat(builddir: string, host: Host) returns (err: Option<XpError>)
      modifies this
      ensures (fs, err) == XpStep(old(fs), builddir, host)
      ensures calls == old(calls) && pathFmt == old(pathFmt) && r2Path == old(r2Path)
    {
      var regen := Components(host.join(builddir, "REGEN.vcxproj"));
      if regen !in fs.files {
        return Some(RegenMissing(regen));
      }
      var found := host.toolset(fs.files[regen]);
      if found.None? {
        return Some(NoToolset);
      }
      var version := found.value;
      if EndsWith(version, XpSuffix) {
        return None;
      }
      var projects := host.glob(fs, host.join(host.join(builddir, "**"), "*.vcxproj"), true);
      var missing := RewriteProjects(projects, version, version + XpSuffix);
      err := if missing.None? then None else Some(ProjectMissing(missing.value));
    }

    /** The loop of `xp_compat`: every project file in turn is read, has
        the old toolset replaced and is written back (sys/meson.py:152-157);
        the first file that cannot be opened ends it. */
    method RewriteProjects(projects: seq<Path>, version: string, newversion: string) returns (missing: Option<Path>)
      modifies this
      ensures (fs.files, missing) == RewriteEach(old(fs).files, projects, Translate(version, newversion))
      ensures fs.dirs == old(fs).dirs
      ensures calls == old(calls) && pathFmt == old(pathFmt) && r2Path == old(r2Path)
    {
      ghost var d := Translate(version, newversion);
      var i := 0;
      while i < |projects|
        invariant 0 <= i <= |projects|
        invariant fs.dirs == old(fs).dirs
        invariant calls == old(calls) && pathFmt == old(pathFmt) && r2Path == old(r2Path)
        invariant RewriteEach(old(fs).files, projects, d) == RewriteEach(fs.files, projects[i..], d)
      {
        var f := projects[i];
        assert projects[i..][0] == f && projects[i..][1..] == projects[i + 1..];
        if f !in fs.files {
          return Some(f);
        }
        var c := fs.files[f];
        c := ReplaceAll(c, version, newversion);
        fs := Fs(fs.dirs, fs.files[f := c]);
        i := i + 1;
      }
      return None;
    }

    // -------------------------------------------------------------------------
    // build
    // -------------------------------------------------------------------------

    /** `build(args)` (sys/meson.py:218-238): configure when the build
        directory is missing, then the backend's part. */
    method Build(a: Args, host: Host) returns (halt: Option<Halt>)
      modifies this
      ensures var builddir := host.join(root, a.dir);
        var r := RunSteps(old(fs), BuildSteps(a, mesonExe, root, builddir,
                                              Exists(old(fs), Components(builddir)), host.join), host);
        fs == r.0 && calls == old(calls) + r.1 && halt == r.2
      ensures pathFmt == old(pathFmt) && r2Path == old(r2Path)
    {
      var builddir := host.join(root, a.dir);
      BuildStepsCases(a, mesonExe, root, builddir, Exists(fs, Components(builddir)), host.join);
      if !Exists(fs, Components(builddir)) {
        halt := ConfigureThenBackend(a, builddir, host);
      } else {
        halt := Backend(a, builddir, host);
      }
    }

    /** `build` on a build directory that does not exist yet: meson
        configures it, and a failure ends the build (sys/meson.py:221-229). */
    method ConfigureThenBackend(a: Args, builddir: string, host: Host) returns (halt: Option<Halt>)
      modifies this
      ensures var r := RunSteps(old(fs), [Configure(ConfigureCommand(a, mesonExe, root, builddir))]
                                         + BackendSteps(a, builddir, host.join), host);
        fs == r.0 && calls == old(calls) + r.1 && halt == r.2
      ensures pathFmt == old(pathFmt) && r2Path == old(r2Path)
    {
      var options := MesonDefines(a.options, a.webui, a.local);
      ghost var before := fs;
      var ok, command := Meson(root, builddir, a.prefix, a.backend, a.release, a.shared, options, host);
      assert command == ConfigureCommand(a, mesonExe, root, builddir);
      RunToolThen(before, Configure(command), BackendSteps(a, builddir, host.join), host);
      if !ok {
        return Some(ToolFailed(command));
      }
      ghost var r := RunSteps(fs, BackendSteps(a, builddir, host.join), host);
      assert RunSteps(old(fs), [Configure(command)] + BackendSteps(a, builddir, host.join), host) == After([command], r);
      ghost var calls1 := calls;
      halt := Backend(a, builddir, host);
      assert fs == r.0 && halt == r.2 && calls == calls1 + r.1;
      LogAppend(old(calls), [command], r.1);
    }

    /** The part of `build` after configuring (sys/meson.py:230-238). */
    method Backend(a: Args, builddir: string, host: Host) returns (halt: Option<Halt>)
      modifies this
      ensures var r := RunSteps(old(fs), BackendSteps(a, builddir, host.join), host);
        fs == r.0 && calls == old(calls) + r.1 && halt == r.2
      ensures pathFmt == old(pathFmt) && r2Path == old(r2Path)
    {
      if a.backend != "ninja" {
        var solution: seq<Step> := if !a.project then [BuildSolution(SolutionCommand(builddir, host.join))] else [];
        assert BackendSteps(a, builddir, host.join)
            == (if a.backend != "vs2019" && a.xp then [PatchXp(builddir)] else []) + solution;
        if a.backend != "vs2019" && a.xp {
          ghost var before := fs;
          var e := XpCompat(builddir, host);
          RunPatchThen(before, builddir, solution, host);
          if e.Some? {
            return Some(XpFailed(e.value));
          }
        }
        halt := Solution(a, builddir, host);
      } else {
        ghost var before := fs;
        var ok, command := Ninja(builddir, host);
        RunToolThen(before, Compile(command), [], host);
        assert [Compile(command)] + [] == BackendSteps(a, builddir, host.join);
        if !ok {
          return Some(ToolFailed(command));
        }
        return None;
      }
    }

    /** msbuild on the solution unless only the project is wanted
        (sys/meson.py:235-237). */
    method Solution(a: Args, builddir: string, host: Host) returns (halt: Option<Halt>)
      modifies this
      ensures var r := RunSteps(old(fs), if !a.project then [BuildSolution(SolutionCommand(builddir, host.join))] else [], host);
        fs == r.0 && calls == old(calls) + r.1 && halt == r.2
      ensures pathFmt == old(pathFmt) && r2Path == old(r2Path)
    {
      if !a.project {
        ghost var before := fs;
        var project := host.join(builddir, "radare2.sln");
        var ok, command := Msbuild(project, ["/m"], host);
        RunToolThen(before, BuildSolution(command), [], host);
        assert command == SolutionCommand(builddir, host.join);
        assert [BuildSolution(command)] + [] == [BuildSolution(SolutionCommand(builddir, host.join))];
        if !ok {
          return Some(ToolFailed(command));
        }
      }
      return None;
    }

    // -------------------------------------------------------------------------
    // The options
    // -------------------------------------------------------------------------

    /** The option loop of `main` (sys/meson.py:330-341): R2_PATH after the
        options, or the first bad option. */
    method ApplyOptions(options: seq<string>, host: Host) returns (err: Option<OptionError>)
      modifies this
      ensures (r2Path, err) == Overrides(old(r2Path), options, host.isAbs, host.normpath)
      ensures fs == old(fs) && calls == old(calls) && pathFmt == old(pathFmt)
    {
      var i := 0;
      while i < |options|
        invariant 0 <= i <= |options|
        invariant fs == old(fs) && calls == old(calls) && pathFmt == old(pathFmt)
        invariant Overrides(old(r2Path), options, host.isAbs, host.normpath)
               == Overrides(r2Path, options[i..], host.isAbs, host.normpath)
      {
        var option := options[i];
        assert options[i..][0] == option && options[i..][1..] == options[i + 1..];
        if '=' !in option {
          return Some(InvalidOption(option));
        }
        var parts := SplitOption(option).value;
        var key := Upper(parts.0);
        if key !in r2Path {
          i := i + 1;
          continue;
        }
        if host.isAbs(parts.1) {
          return Some(RelativePathRequired(option));
        }
        r2Path := r2Path[key := host.normpath(parts.1)];
        i := i + 1;
      }
      return None;
    }

    /** `PATH_FMT.update(R2_PATH)` (sys/meson.py:343). */
    method PublishPaths()
      modifies this
      ensures pathFmt == old(pathFmt) + r2Path
      ensures r2Path == old(r2Path) && fs == old(fs) && calls == old(calls)
    {
      pathFmt := pathFmt + r2Path;
    }

    // -------------------------------------------------------------------------
    // The distribution helpers
    // -------------------------------------------------------------------------

    /** The loop of `copy`: `shutil.copy2` on every globbed file in turn
        (sys/meson.py:131-132). */
    method CopyFiles(files: seq<Path>, dst: Path) returns (err: Option<FsError>)
      modifies this
      ensures match CopyEach(old(fs), files, dst)
              case Ok(fs') => err.None? && fs == fs'
              case Err(e) => err == Some(e)
      ensures calls == old(calls) && pathFmt == old(pathFmt) && r2Path == old(r2Path)
    {
      var i := 0;
      while i < |files|
        invariant 0 <= i <= |files|
        invariant calls == old(calls) && pathFmt == old(pathFmt) && r2Path == old(r2Path)
        invariant CopyEach(old(fs), files, dst) == CopyEach(fs, files[i..], dst)
      {
        assert files[i..][0] == files[i] && files[i..][1..] == files[i + 1..];
        var copied := CopyFile(fs, files[i], dst);
        if copied.Err? {
          return Some(copied.error);
        }
        fs := copied.value;
        i := i + 1;
      }
      return None;
    }

    /** `makedirs(path)` (sys/meson.py:134-137). */
    method RunMakedirs(path: string) returns (err: Option<DistError>)
      modifies this
      ensures Settled(Makedirs(old(fs), pathFmt, path), fs, err)
      ensures calls == old(calls) && pathFmt == old(pathFmt) && r2Path == old(r2Path)
    {
      var target := Target(path, pathFmt);
      if target.Err? {
        return Some(target.error);
      }
      var made := MakeDirs(fs, target.value);
      if made.Err? {
        return Some(Os(made.error));
      }
      fs := made.value;
      return None;
    }

    /** `copy(src, dst)` (sys/meson.py:126-132). */
    method RunCopy(src: string, dst: string, host: Host) returns (err: Option<DistError>)
      modifies this
      ensures Settled(Copy(old(fs), pathFmt, host.glob, src, dst), fs, err)
      ensures calls == old(calls) && pathFmt == old(pathFmt) && r2Path == old(r2Path)
    {
      var source := SourceText(src, pathFmt);
      if source.Err? {
        return Some(source.error);
      }
      var target := Target(dst, pathFmt);
      if target.Err? {
        return Some(target.error);
      }
      var s := source.value;
      var files := host.glob(fs, s, Contains(s, "**"));
      var e := CopyFiles(files, target.value);
      err := if e.None? then None else Some(Os(e.value));
    }

    /** `copytree(src, dst, exclude)` (sys/meson.py:112-116). */
    method RunCopytree(src: string, dst: string, exclude: set<string>) returns (err: Option<DistError>)
      modifies this
      ensures Settled(Copytree(old(fs), pathFmt, src, dst, exclude), fs, err)
      ensures calls == old(calls) && pathFmt == old(pathFmt) && r2Path == old(r2Path)
    {
      var source := SourceText(src, pathFmt);
      if source.Err? {
        return Some(source.error);
      }
      var target := Target(dst, pathFmt);
      if target.Err? {
        return Some(target.error);
      }
      var copied := CopyTree(fs, Components(source.value), target.value, exclude);
      if copied.Err? {
        return Some(Os(copied.error));
      }
      fs := copied.value;
      return None;
    }

    /** The `r2.bat` launcher `win_dist` writes (sys/meson.py:169-173). */
    method WriteLauncherFile(install: string) returns (err: Option<DistError>)
      modifies this
      ensures Settled(Lift(WriteFile(old(fs), LauncherPath(install), LauncherText)), fs, err)
      ensures calls == old(calls) && pathFmt == old(pathFmt) && r2Path == old(r2Path)
    {
      var written := WriteFile(fs, LauncherPath(install), LauncherText);
      if written.Err? {
        return Some(Os(written.error));
      }
      fs := written.value;
      return None;
    }

    /** One call of the distribution script. */
    method RunOp(op: Op, install: string, host: Host) returns (err: Option<DistError>)
      modifies this
      ensures Settled(Apply(old(fs), pathFmt, host.glob, install, op), fs, err)
      ensures calls == old(calls) && pathFmt == old(pathFmt) && r2Path == old(r2Path)
    {
      match op
      case MakeDirsOp(dst) =>
        err := RunMakedirs(DestTemplate(dst));
      case CopyOp(src, dst) =>
        err := RunCopy(Pattern(src), DestTemplate(dst), host);
      case CopyTreeOp(src, dst, exclude) =>
        err := RunCopytree(Pattern(src), DestTemplate(dst), exclude);
      case WriteLauncher =>
        err := WriteLauncherFile(install);
      case Skip =>
        err := None;
    }

    /** The calls of the distribution script one after another; the first
        exception ends them. */
    method RunOps(ops: seq<Op>, install: string, host: Host) returns (err: Option<DistError>)
      modifies this
      ensures Settled(RunFrom(old(fs), pathFmt, host.glob, install, ops, 0), fs, err)
      ensures calls == old(calls) && pathFmt == old(pathFmt) && r2Path == old(r2Path)
    {
      var k := 0;
      while k < |ops|
        invariant 0 <= k <= |ops|
        invariant calls == old(calls) && pathFmt == old(pathFmt) && r2Path == old(r2Path)
        invariant RunFrom(old(fs), pathFmt, host.glob, install, ops, 0)
               == RunFrom(fs, pathFmt, host.glob, install, ops, k)
      {
        err := RunOp(ops[k], install, host);
        if err.Some? {
          return;
        }
        k := k + 1;
      }
      return None;
    }

    // -------------------------------------------------------------------------
    // install
    // -------------------------------------------------------------------------

    /** `win_dist_libr2(install_webui, **path_fmt)` (sys/meson.py:183-216):
        the extra names join PATH_FMT, then the library data is copied. */
    method WinDistLibr2(webui: bool, extra: Registry, install: string, host: Host) returns (err: Option<DistError>)
      modifies this
      ensures pathFmt == old(pathFmt) + extra
      ensures Settled(RunFrom(old(fs), pathFmt, host.glob, install, WinDistLibr2Ops(webui), 0), fs, err)
      ensures calls == old(calls) && r2Path == old(r2Path)
    {
      pathFmt := pathFmt + extra;
      err := RunOps(WinDistLibr2Ops(webui), install, host);
    }

    /** `win_dist(args)` (sys/meson.py:160-181): DIST and BUILDDIR join
        PATH_FMT, then the whole distribution is laid out. When PATH_FMT
        holds the default R2_PATH table and the install directory is new,
        no step fails on a destination and everything created lies below
        the install directory. */
    method WinDist(a: Args, host: Host) returns (err: Option<DistError>)
      modifies this
      ensures pathFmt == old(pathFmt)["DIST" := a.install]["BUILDDIR" := host.join(root, a.dir)]
      ensures Settled(RunFrom(old(fs), pathFmt, host.glob, a.install, Ops(a.shared, a.webui), 0), fs, err)
      ensures calls == old(calls) && r2Path == old(r2Path)
      ensures Valid(old(fs)) && DistEnv(pathFmt, a.install) && Fresh(old(fs), Components(a.install)) ==>
        && (err.Some? ==> !DestFault(err.value))
        && (err.None? ==> Valid(fs) && Grows(old(fs), fs) && Within(old(fs), fs, Components(a.install), {}, true))
    {
      var builddir := host.join(root, a.dir);
      pathFmt := pathFmt["DIST" := a.install];
      pathFmt := pathFmt["BUILDDIR" := builddir];
      ghost var env := pathFmt;
      RunFromAppend(fs, env, host.glob, a.install, WinDistOps(a.shared), WinDistLibr2Ops(a.webui), 0);
      ghost var first := RunFrom(fs, env, host.glob, a.install, WinDistOps(a.shared), 0);
      err := RunOps(WinDistOps(a.shared), a.install, host);
      if err.Some? {
        assert first.Err? && first.error == err.value;
        DistributionSafe(old(fs), fs, err, env, host.glob, a.install, a.shared, a.webui);
        return;
      }
      assert first == Ok(fs);
      assert env + map[] == env;
      err := WinDistLibr2(a.webui, map[], a.install, host);
      DistributionSafe(old(fs), fs, err, env, host.glob, a.install, a.shared, a.webui);
    }

    /** `install(args)` (sys/meson.py:240-245): the Windows distribution,
        and nothing on other systems. */
    method Install(a: Args, nt: bool, host: Host) returns (err: Option<DistError>)
      modifies this
      ensures nt ==> pathFmt == old(pathFmt)["DIST" := a.install]["BUILDDIR" := host.join(root, a.dir)]
      ensures nt ==> Settled(RunFrom(old(fs), pathFmt, host.glob, a.install, Ops(a.shared, a.webui), 0), fs, err)
      ensures !nt ==> err.None? && fs == old(fs) && pathFmt == old(pathFmt)
      ensures calls == old(calls) && r2Path == old(r2Path)
    {
      if nt {
        err := WinDist(a, host);
        return;
      }
      return None;
    }

    // -------------------------------------------------------------------------
    // main
    // -------------------------------------------------------------------------

    /** `main` after the arguments are parsed (sys/meson.py:316-354): a
        refused combination or a bad option stops it before anything is
        run; otherwise R2_PATH takes the options, PATH_FMT takes R2_PATH, the
        build issues its planned commands (with the Windows default
        prefix), and `--install` lays out the distribution. */
    method Run(a: Args, nt: bool, host: Host) returns (outcome: Outcome)
      modifies this
      ensures CheckArgs(a, nt, Present(old(fs))).Err? ==>
        && outcome == Refused(CheckArgs(a, nt, Present(old(fs))).error)
        && fs == old(fs) && calls == old(calls) && pathFmt == old(pathFmt) && r2Path == old(r2Path)
      ensures CheckArgs(a, nt, Present(old(fs))).Ok? ==>
        var bad := Overrides(old(r2Path), a.options, host.isAbs, host.normpath).1;
        && r2Path == Overrides(old(r2Path), a.options, host.isAbs, host.normpath).0
        && (bad.Some? ==> outcome == BadOption(bad.value) && fs == old(fs) && calls == old(calls)
                          && pathFmt == old(pathFmt))
      ensures CheckArgs(a, nt, Present(old(fs))).Ok? && Overrides(old(r2Path), a.options, host.isAbs, host.normpath).1.None? ==>
        var builddir := host.join(root, a.dir);
        var b := a.(prefix := EffectivePrefix(a, nt, root, host.join));
        var r := RunSteps(old(fs), BuildSteps(b, mesonExe, root, builddir, Exists(old(fs), Components(builddir)), host.join), host);
        var env := old(pathFmt) + r2Path;
        && calls == old(calls) + r.1
        && (r.2.Some? ==> outcome == BuildStopped(r.2.value) && fs == r.0 && pathFmt == env)
        && (r.2.None? && !(nt && Given(a.install)) ==> outcome == Finished && fs == r.0 && pathFmt == env)
        && (r.2.None? && nt && Given(a.install) ==>
              && pathFmt == env["DIST" := a.install]["BUILDDIR" := builddir]
              && Installed(RunFrom(r.0, pathFmt, host.glob, a.install, Ops(a.shared, a.webui), 0), fs, outcome))
    {
      var guard := CheckArgs(a, nt, Present(fs));
      if guard.Err? {
        return Refused(guard.error);
      }
      var args := a.(prefix := EffectivePrefix(a, nt, root, host.join));
      var bad := ApplyOptions(a.options, host);
      if bad.Some? {
        return BadOption(bad.value);
      }
      PublishPaths();
      var halt := Build(args, host);
      if halt.Some? {
        return BuildStopped(halt.value);
      }
      if Given(a.install) {
        var failed := Install(args, nt, host);
        if failed.Some? {
          return InstallFailed(failed.value);
        }
      }
      return Finished;
    }
  }
}
