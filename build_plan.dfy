/**
 * What `build` runs (sys/meson.py:218-238): meson to configure a build
 * directory that does not exist yet, then either ninja, or the XP patch and
 * msbuild for a Visual Studio backend. Every tool is run by
 * `subprocess.call`, and a non-zero exit status ends the script
 * (sys/meson.py:84-110).
 *
 * The host the script runs on is a value of `Host`: the path functions of
 * `os.path`, the glob, the regular expression that reads the toolset, and
 * the tools themselves, which answer a command with an exit status and the
 * filesystem they leave behind.
 */
module BuildPlan {
  import opened Results
  import opened Text
  import opened FileSystem
  import opened Distribution
  import opened XpPatch
  import opened Commands
  import opened Guards

  /** The services of the machine the script runs on. */
  datatype Host = Host(
    join: (string, string) -> string,           // os.path.join
    isAbs: string -> bool,                      // os.path.isabs
    normpath: string -> string,                 // os.path.normpath
    glob: Glob,                                 // glob.iglob
    tool: (seq<string>, Fs) -> (int, Fs),       // subprocess.call: status and effect
    toolset: string -> Option<string>           // the <PlatformToolset> pattern
  )

  /** One thing `build` does. */
  datatype Step =
    | Configure(command: seq<string>)       // meson
    | Compile(command: seq<string>)         // ninja
    | PatchXp(builddir: string)             // xp_compat
    | BuildSolution(command: seq<string>)   // msbuild

  /** The command line of a tool step; the XP patch runs no tool. */
  predicate RunsTool(s: Step)
  {
    !s.PatchXp?
  }

  /** Why `build` stopped early. */
  datatype Halt = ToolFailed(command: seq<string>) | XpFailed(why: XpError)

  /** The `meson` command `build` issues: the `-D` options come after the
      flags (sys/meson.py:222-229). */
  function ConfigureCommand(a: Args, mesonExe: seq<string>, root: string, builddir: string): seq<string>
  {
    mesonExe + [root, builddir] + MesonFlags(a.prefix, a.backend, a.release, a.shared)
      + MesonDefines(a.options, a.webui, a.local)
  }

  /** `msbuild <builddir>\radare2.sln /m` (sys/meson.py:236-237). */
  function SolutionCommand(builddir: string, join: (string, string) -> string): seq<string>
  {
    ["msbuild", join(builddir, "radare2.sln"), "/m"]
  }

  /** What `build` does after configuring: ninja, or the XP patch and
      msbuild (sys/meson.py:230-238). */
  function BackendSteps(a: Args, builddir: string, join: (string, string) -> string): seq<Step>
  {
    if a.backend != "ninja" then
      (if a.backend != "vs2019" && a.xp then [PatchXp(builddir)] else [])
      + (if !a.project then [BuildSolution(SolutionCommand(builddir, join))] else [])
    else [Compile(["ninja", "-C", builddir])]
  }

  /** The steps of `build`; `configured` is whether the build directory
      already exists. */
  function BuildSteps(a: Args, mesonExe: seq<string>, root: string, builddir: string, configured: bool,
                      join: (string, string) -> string): seq<Step>
  {
    (if configured then [] else [Configure(ConfigureCommand(a, mesonExe, root, builddir))])
    + BackendSteps(a, builddir, join)
  }

  /** `xp_compat(builddir)` on the host: REGEN.vcxproj and the recursive
      glob for `*.vcxproj` in the build directory. */
  function XpStep(fs: Fs, builddir: string, host: Host): (Fs, Option<XpError>)
  {
    var regen := Components(host.join(builddir, "REGEN.vcxproj"));
    var projects := host.glob(fs, host.join(host.join(builddir, "**"), "*.vcxproj"), true);
    XpResult(fs, regen, projects, host.toolset)
  }

  /** Running the steps in order: the filesystem they leave, the commands
      handed to `subprocess.call`, and what stopped the run, if anything. */
  function RunSteps(fs: Fs, steps: seq<Step>, host: Host): (Fs, seq<seq<string>>, Option<Halt>)
    decreases |steps|
  {
    if steps == [] then (fs, [], None)
    else if steps[0].PatchXp? then
      var patched := XpStep(fs, steps[0].builddir, host);
      if patched.1.Some? then (patched.0, [], Some(XpFailed(patched.1.value)))
      else RunSteps(patched.0, steps[1..], host)
    else
      var command := steps[0].command;
      var called := host.tool(command, fs);
      if called.0 != 0 then (called.1, [command], Some(ToolFailed(command)))
      else
        var rest := RunSteps(called.1, steps[1..], host);
        (rest.0, [command] + rest.1, rest.2)
  }

  /** The commands of the tool steps, in order. */
  function ToolCommands(steps: seq<Step>): seq<seq<string>>
  {
    if steps == [] then []
    else (if RunsTool(steps[0]) then [steps[0].command] else []) + ToolCommands(steps[1..])
  }

  // ---------------------------------------------------------------------------
  // Which steps are planned
  // ---------------------------------------------------------------------------

  predicate HasCompile(s: seq<Step>) { exists i :: 0 <= i < |s| && s[i].Compile? }
  predicate HasSolution(s: seq<Step>) { exists i :: 0 <= i < |s| && s[i].BuildSolution? }
  predicate HasPatch(s: seq<Step>) { exists i :: 0 <= i < |s| && s[i].PatchXp? }

  /** After configuring: ninja exactly for the ninja backend, msbuild exactly
      for the others without `--project`, either of them last; the XP patch
      exactly for `--xp` with a backend other than ninja and vs2019, and
      before msbuild; nothing configures. */
  lemma BackendShape(a: Args, builddir: string, join: (string, string) -> string)
    ensures var s := BackendSteps(a, builddir, join);
      && (forall i :: 0 <= i < |s| ==> !s[i].Configure?)
      && (HasCompile(s) <==> a.backend == "ninja")
      && (HasSolution(s) <==> a.backend != "ninja" && !a.project)
      && (HasPatch(s) <==> a.xp && a.backend != "ninja" && a.backend != "vs2019")
      && (forall i :: 0 <= i < |s| && (s[i].Compile? || s[i].BuildSolution?) ==> i == |s| - 1)
      && (forall i :: 0 <= i < |s| && s[i].PatchXp? ==> s[i] == PatchXp(builddir))
      && (forall i :: 0 <= i < |s| && s[i].Compile? ==> s[i].command == ["ninja", "-C", builddir])
  {
    var s := BackendSteps(a, builddir, join);
    if a.backend == "ninja" {
      assert s[0].Compile?;
    } else {
      var sol := BuildSolution(SolutionCommand(builddir, join));
      if a.backend != "vs2019" && a.xp {
        assert s[0].PatchXp?;
        if !a.project {
          assert s == [PatchXp(builddir), sol];
          assert s[1].BuildSolution?;
        }
      } else if !a.project {
        assert s == [sol];
        assert s[0].BuildSolution?;
      }
    }
  }

  lemma BackendNeverConfigures(a: Args, builddir: string, join: (string, string) -> string)
    ensures forall i :: 0 <= i < |BackendSteps(a, builddir, join)| ==> !BackendSteps(a, builddir, join)[i].Configure?
  {
  }

  /** A configure step in front of steps that configure nothing is the only
      one. */
  lemma ConfigureOnlyInFront(head: seq<Step>, rest: seq<Step>)
    requires |head| <= 1 && forall i :: 0 <= i < |rest| ==> !rest[i].Configure?
    ensures forall i :: 0 <= i < |head + rest| && (head + rest)[i].Configure? ==> i < |head|
    ensures (head + rest)[|head|..] == rest
  {
  }

  /** Configure runs first, and only when the build directory is missing;
      what follows is the backend's part. */
  lemma ConfigureFirst(a: Args, mesonExe: seq<string>, root: string, builddir: string, configured: bool,
                       join: (string, string) -> string)
    ensures var s := BuildSteps(a, mesonExe, root, builddir, configured, join);
      && (!configured ==> s[0] == Configure(ConfigureCommand(a, mesonExe, root, builddir)))
      && (forall i :: 0 <= i < |s| && s[i].Configure? ==> i == 0 && !configured)
      && s[if configured then 0 else 1..] == BackendSteps(a, builddir, join)
  {
    var head: seq<Step> := if configured then [] else [Configure(ConfigureCommand(a, mesonExe, root, builddir))];
    var b := BackendSteps(a, builddir, join);
    BackendNeverConfigures(a, builddir, join);
    ConfigureOnlyInFront(head, b);
    assert BuildSteps(a, mesonExe, root, builddir, configured, join) == head + b;
  }

  /** The two plans of `build`: with or without configuring first. */
  lemma BuildStepsCases(a: Args, mesonExe: seq<string>, root: string, builddir: string, configured: bool,
                        join: (string, string) -> string)
    ensures BuildSteps(a, mesonExe, root, builddir, configured, join) ==
      if configured then BackendSteps(a, builddir, join)
      else [Configure(ConfigureCommand(a, mesonExe, root, builddir))] + BackendSteps(a, builddir, join)
  {
    if configured {
      assert [] + BackendSteps(a, builddir, join) == BackendSteps(a, builddir, join);
    }
  }

  /** Past the guards, a backend `--backend` accepts leaves one plan per
      case after configuring: the XP patch runs exactly when `--xp` is asked
      for (even with `--project`), `--project` runs no build tool, and
      otherwise exactly one build tool runs, last. */
  lemma GuardedSteps(a: Args, nt: bool, present: string -> bool, builddir: string,
                     join: (string, string) -> string)
    requires a.backend in Backends && CheckArgs(a, nt, present).Ok?
    ensures var b := BackendSteps(a, builddir, join);
      && (HasPatch(b) <==> a.xp)
      && |b| == (if a.xp then 1 else 0) + (if a.project then 0 else 1)
      && (a.project ==> !HasCompile(b) && !HasSolution(b))
      && (!a.project ==> b[|b| - 1].Compile? || b[|b| - 1].BuildSolution?)
  {
    GuardsPass(a, nt, present);
    BackendShape(a, builddir, join);
    var b := BackendSteps(a, builddir, join);
    var sol := BuildSolution(SolutionCommand(builddir, join));
    if a.backend == "ninja" {
      assert b == [Compile(["ninja", "-C", builddir])];
    } else if a.xp {
      assert b == [PatchXp(builddir)] + (if !a.project then [sol] else []);
      assert b[0].PatchXp?;
    } else {
      assert b == if !a.project then [sol] else [];
    }
  }

  // ---------------------------------------------------------------------------
  // Running the steps
  // ---------------------------------------------------------------------------

  /** What a run issues: the tool commands of the plan up to the first
      failure, all of them when nothing stops it, and a failing tool last. */
  predicate IssuesPlanned(r: (Fs, seq<seq<string>>, Option<Halt>), steps: seq<Step>)
  {
    && IsPrefix(r.1, ToolCommands(steps))
    && (r.2.None? ==> r.1 == ToolCommands(steps))
    && (r.2.Some? && r.2.value.ToolFailed? ==> r.1 != [] && r.1[|r.1| - 1] == r.2.value.command)
  }

  /** A tool step that succeeds puts its command in front of what the rest
      of the run issues. */
  lemma ToolStepIssues(fs: Fs, steps: seq<Step>, host: Host)
    requires steps != [] && RunsTool(steps[0]) && host.tool(steps[0].command, fs).0 == 0
    requires IssuesPlanned(RunSteps(host.tool(steps[0].command, fs).1, steps[1..], host), steps[1..])
    ensures IssuesPlanned(RunSteps(fs, steps, host), steps)
  {
    var command := steps[0].command;
    var r := RunSteps(host.tool(command, fs).1, steps[1..], host);
    assert ToolCommands(steps) == [command] + ToolCommands(steps[1..]);
    assert RunSteps(fs, steps, host) == (r.0, [command] + r.1, r.2);
    if r.2.Some? && r.2.value.ToolFailed? {
      assert ([command] + r.1)[|r.1|] == r.1[|r.1| - 1];
    }
  }

  /** The commands issued are the tool commands of the plan up to the first
      failure; a failing tool is the last command issued, and a run that is
      not stopped issues every command of the plan. */
  lemma {:induction false} RunIssues(fs: Fs, steps: seq<Step>, host: Host)
    ensures IssuesPlanned(RunSteps(fs, steps, host), steps)
    decreases |steps|
  {
    if steps != [] {
      if steps[0].PatchXp? {
        var x := XpStep(fs, steps[0].builddir, host);
        assert ToolCommands(steps) == ToolCommands(steps[1..]);
        if x.1.None? {
          RunIssues(x.0, steps[1..], host);
        }
      } else if host.tool(steps[0].command, fs).0 == 0 {
        RunIssues(host.tool(steps[0].command, fs).1, steps[1..], host);
        ToolStepIssues(fs, steps, host);
      }
    }
  }

  /** A run that issued `issued` before going on as `r`. */
  function After(issued: seq<seq<string>>, r: (Fs, seq<seq<string>>, Option<Halt>)): (Fs, seq<seq<string>>, Option<Halt>)
  {
    (r.0, issued + r.1, r.2)
  }

  /** Commands issued one after another make one log. */
  lemma LogAppend(x: seq<seq<string>>, y: seq<seq<string>>, z: seq<seq<string>>)
    ensures x + y + z == x + (y + z)
  {
  }

  /** A tool step first: its command is issued, and a failure ends the run. */
  lemma RunToolThen(fs: Fs, s: Step, rest: seq<Step>, host: Host)
    requires RunsTool(s)
    ensures var called := host.tool(s.command, fs);
      RunSteps(fs, [s] + rest, host) ==
        if called.0 != 0 then (called.1, [s.command], Some(ToolFailed(s.command)))
        else After([s.command], RunSteps(called.1, rest, host))
  {
    assert ([s] + rest)[0] == s && ([s] + rest)[1..] == rest;
  }

  /** The XP patch first: an exception ends the run. */
  lemma RunPatchThen(fs: Fs, builddir: string, rest: seq<Step>, host: Host)
    ensures var patched := XpStep(fs, builddir, host);
      RunSteps(fs, [PatchXp(builddir)] + rest, host) ==
        if patched.1.Some? then (patched.0, [], Some(XpFailed(patched.1.value)))
        else RunSteps(patched.0, rest, host)
  {
    assert ([PatchXp(builddir)] + rest)[0] == PatchXp(builddir);
    assert ([PatchXp(builddir)] + rest)[1..] == rest;
  }

  /** A failing tool ends the build: no command of a later step is issued,
      whichever tool it is. */
  lemma FailureIsFatal(fs: Fs, s: Step, rest: seq<Step>, host: Host)
    requires RunsTool(s) && host.tool(s.command, fs).0 != 0
    ensures RunSteps(fs, [s] + rest, host) ==
      (host.tool(s.command, fs).1, [s.command], Some(ToolFailed(s.command)))
  {
    assert ([s] + rest)[0] == s;
  }
}
