# radare2's meson front end, modelled in Dafny

`sys/meson.py` is the script radare2 uses to drive its meson build. It does four things:

- It checks the command line.
- It configures and builds the tree with meson, then with ninja or with msbuild. Before msbuild it can patch the Visual Studio projects for Windows XP.
- It applies the `--options KEY=VALUE` overrides to the install layout `R2_PATH`.
- On Windows it lays out a distribution directory from a fixed list of `makedirs`, `copy` and `copytree` calls. Each path in that list is a template over the table `PATH_FMT`.

This project models that logic and proves what the script promises.

The model follows the shape of the script.

- **Script state as a class.** The mutable module state (`PATH_FMT`, `R2_PATH`, the machine's files and the commands given to `subprocess.call`) lives in `MesonScript.Script`.
- **Updating code as methods.**
  - The option loop, the `xp_compat` file loop, the `copy` loop and the distribution steps are methods with loops.
  - `build`, `install`, `win_dist` and `main` are methods too.
- **Each method has a specification.** Every method is proved against a function that states what it computes.
- **Pure parts as functions with lemmas.** These are:
  - the `str.format` templates;
  - the guards of `main`;
  - the meson `-D` list;
  - the toolset rewrite;
  - the distribution list.

| file | module | what |
|---|---|---|
| results.dfy | Results | `Option` and `Result` |
| text.dfy | Text | upper-casing, `replace`, `split`/`join`, path components |
| path_format.dfy | PathFormat | one `str.format(**PATH_FMT)` pass, and two passes for destinations |
| path_tables.dfy, path_keys.dfy | PathTables, PathKeys | the `R2_PATH` defaults and the layout they give |
| options.dfy | Options | the `KEY=VALUE` overrides |
| commands.dfy | Commands | the `meson`, `ninja` and `msbuild` argument vectors and the `-D` options |
| guards.dfy | Guards | the parsed arguments and the checks of `main` |
| filesystem.dfy | FileSystem | directories and files, `os.makedirs`, `shutil.copy2`/`copytree`/`move`, writing a file |
| distribution.dfy | Distribution | the helpers `makedirs`/`copy`/`copytree`/`move` and the steps of `win_dist` and `win_dist_libr2` |
| dist_order.dfy, dist_plan.dfy | DistOrder, DistPlan | why no step of the distribution meets an existing path or a missing directory |
| xp_patch.dfy | XpPatch | `xp_compat` |
| build_plan.dfy | BuildPlan | the steps `build` runs and what running them issues |
| script.dfy | MesonScript | the `Script` class |

The environment is passed in as parameters of the methods, through the datatype `BuildPlan.Host`. It holds:

- `os.path.join`, `isabs` and `normpath`;
- `glob.iglob`;
- the exit status and filesystem effect of each external command;
- the `<PlatformToolset>` regular expression.

`os.name == 'nt'` is the parameter `nt`. `sys.exit` and uncaught exceptions end a method early with a value that says why. `Script.Run` turns that value into an `Outcome`.

Where the code and its design description differ, the model follows the code:

- **The `--xp` guards.** They use Python's substring test `args.backend in 'ninja'`. `Guards.BackendTestsExact` shows that on the four backends argparse accepts, this test agrees with equality.
- **No `move` in the manifest.** The distribution never calls `move`. The helper is modelled as `Distribution.Move` but no step uses it.
- **`exclude` belongs to `copytree`.** The glob copy has no `exclude`.
- **`PATH_FMT` keeps changing.** It is not read-only after the options: `win_dist` adds `DIST` and `BUILDDIR` to it.
- **`--xp` with `--project`.** `--xp` together with `--project` still patches the projects.
- **An empty toolset.** `xp_compat` skips only a toolset ending in `_xp`, so an empty one is translated; the build model does the same (see "## Findings" for the corrected rule, which is modelled beside it).

## Model

| member | source | states |
|---|---|---|
| MesonScript.Script.constructor | sys/meson.py:34-61 | PATH_FMT starts with ROOT and R2_VERSION, R2_PATH with its defaults, and no command has run |
| MesonScript.Script.Call | sys/meson.py:84-88 | the command is issued and has its effect; the caller goes on only on exit status 0 |
| MesonScript.Script.Meson | sys/meson.py:67-88 | the meson command is the launcher, root and build directory, the flags, then the options |
| MesonScript.Script.Ninja | sys/meson.py:90-99 | `ninja -C folder` is issued; a non-zero status is fatal |
| MesonScript.Script.Msbuild | sys/meson.py:101-110 | `msbuild project` followed by the parameters is issued; a non-zero status is fatal |
| Commands.MesonCommand | sys/meson.py:70-82 | the vector built by appending is the launcher, root and build directory, then the chosen flags, then the options |
| Commands.ChosenMembers | sys/meson.py:71-80 | an argument is appended exactly when a candidate carrying it is switched on; all candidates on gives one argument each, none on gives nothing |
| Commands.MesonFlagsShape | sys/meson.py:71-80 | `--prefix=`, `--backend=` and `--buildtype=release` each appear exactly when their argument is truthy, in that order; exactly one `--default-library=` flag comes last |
| Commands.MesonCommandShape | sys/meson.py:70-82 | the vector starts with the launcher, root and build directory, ends with the options in caller order, and the library flag comes just before them |
| Commands.LibraryFlagText | sys/meson.py:77-80 | the library flag is `shared` for a shared build and `static` otherwise |
| Commands.NinjaCommand | sys/meson.py:92-94 | `["ninja", "-C", folder]` followed by the targets |
| Commands.MsbuildCommand | sys/meson.py:103-105 | `["msbuild", project]` followed by the parameters |
| Commands.MesonDefines | sys/meson.py:222-226 | every user option behind `-D`, in order, then the switches |
| Commands.DefinesSwitches | sys/meson.py:224-226 | `-Duse_webui=true` is there exactly when `--webui` is given, `-Dlocal=true` exactly when `--local` is given, web UI first |
| PathKeys.DefaultsLayered | sys/meson.py:17-28 | every default R2_PATH value is brace-free, or `{R2_DATDIR}` followed by a brace-free tail |
| PathKeys.KeyLayout | sys/meson.py:17-28 | with the defaults, every key is settled after one pass and names its default layout (for example R2_WWWROOT names share\www) |
| PathKeys.HoldsDefaults | sys/meson.py:343 | PATH_FMT after taking the default R2_PATH holds every default value |
| PathFormat.Lookup | sys/meson.py:113 | a field name looks up its value; a missing name is a KeyError; an empty or all-digit name is a positional-index error |
| PathFormat.FormatBraceFree | sys/meson.py:113 | a pass over text without braces returns it unchanged |
| PathFormat.FormatField | sys/meson.py:113 | a pass replaces a leading field by its value, or fails with KeyError on a missing name |
| PathFormat.FormatUnparse | sys/meson.py:113 | formatting a template's text renders its pieces, literal braces included |
| PathFormat.RenderOkIff | sys/meson.py:113 | a template renders exactly when PATH_FMT supplies every field it names |
| PathFormat.TwoPassesResolve | sys/meson.py:114 | two passes over a template whose fields nest one level remove every placeholder, and a third pass changes nothing |
| PathTables.LayeredSettles | sys/meson.py:17-28 | in PATH_FMT holding a layered table, one pass over an entry yields its expansion and a second leaves it alone |
| PathTables.KeyTemplate | sys/meson.py:135 | `{BASE}\{KEY}tail` resolves in two passes to the base, the expanded key and the tail |
| PathTables.OverrideKeepsLayered | sys/meson.py:341 | overriding an entry with a brace-free value keeps the table layered |
| Distribution.DestResolves | sys/meson.py:127-135 | with the default table, every destination of the manifest resolves to the install directory, the key's layout and the tail |
| Distribution.RunFromAppend | sys/meson.py:181 | running `win_dist`'s steps and then `win_dist_libr2`'s is running the two lists back to back, stopping at the first exception |
| Distribution.MakeDirsStep | sys/meson.py:134-137 | `makedirs` onto a fresh destination meets no existing path and creates just that directory |
| Distribution.CopyStep | sys/meson.py:126-132 | `copy` into a destination whose parent exists meets no missing directory and writes only there |
| Distribution.CopyTreeStep | sys/meson.py:112-116 | `copytree` onto a fresh destination meets no existing path and adds only the copied tree |
| Distribution.LauncherAt | sys/meson.py:169 | the launcher is `bin\r2.bat` below the install directory |
| Distribution.LauncherStep | sys/meson.py:169-173 | writing the launcher into an existing `bin` meets no missing directory |
| FileSystem.MakeDirsSafe | sys/meson.py:137 | `os.makedirs` on a missing path creates it, keeps the tree well formed and adds nothing outside it |
| FileSystem.CopyTreeSafe | sys/meson.py:116 | `shutil.copytree` onto a missing path adds only the copied tree, and fails only on a missing source or a file in the way |
| DistOrder.RunSafe | sys/meson.py:166-216 | steps that fit a plan whose areas are kept apart never meet an existing path or a missing directory |
| DistPlan.PlanFits | sys/meson.py:166-216 | every step of the manifest, for either library kind and with or without the web UI, fits its area: directories are created before anything is copied into them, and the launcher comes after `bin` |
| DistPlan.PlanApart | sys/meson.py:188-216 | every path a step creates is apart from what the earlier steps create; `dll` is excluded from the `format` tree, so the later `makedirs` of `format\dll` is new |
| DistPlan.WinDistSafe | sys/meson.py:160-216 | with the default table and a new install directory, no `makedirs` or `copytree` meets an existing path and no copy meets a missing directory; nothing is removed, everything new lies at or below the install directory, and every directory made is there at the end |
| Options.SplitOption | sys/meson.py:331-335 | an option splits at its first `=` and is fatal without one |
| Options.OverrideFails | sys/meson.py:331-339 | an option is fatal exactly when it has no `=`, or names a known key with an absolute value |
| Options.OverrideOnlyKey | sys/meson.py:336-341 | a successful option changes only its own key, to the normalised value, and adds or removes no key |
| Options.OverridesError | sys/meson.py:330-341 | the loop stops exactly when some option is bad, and never adds or removes a key |
| Options.LastOptionWins | sys/meson.py:330-341 | when all options are accepted, the last option naming a key decides its value and other keys keep theirs |
| Options.OverridesLayered | sys/meson.py:330-341 | options with brace-free normalised values keep R2_PATH layered, so destinations still resolve in two passes |
| Options.KeyAndValue | sys/meson.py:334-335 | `KEY=VALUE` names KEY upper-cased and gives VALUE, which may hold further `=` |
| Options.KeyIgnoresCase | sys/meson.py:335 | an option names the same key whatever the case of its letters |
| MesonScript.Script.ApplyOptions | sys/meson.py:330-341 | the loop leaves R2_PATH as the override function computes and reports the first bad option; nothing else changes |
| MesonScript.Script.PublishPaths | sys/meson.py:343 | PATH_FMT takes every entry of R2_PATH |
| Guards.GuardsPass | sys/meson.py:316-327 | with an accepted backend, `main` goes on exactly when `--project` is not combined with ninja, `--xp` not with ninja or vs2019, and the Windows install directory does not exist |
| Guards.GuardsReason | sys/meson.py:316-327 | the first failing test in source order decides which error is reported |
| Guards.BackendTestsExact | sys/meson.py:319-324 | on the accepted backends, the substring tests agree with equality |
| Guards.SubstringWiderThanEquality | sys/meson.py:319-324 | the substring test also admits pieces of a name and the empty string |
| Guards.EffectivePrefix | sys/meson.py:328-329 | on Windows a missing prefix becomes `priv_install_dir` in the build directory; otherwise the prefix is kept |
| BuildPlan.ConfigureFirst | sys/meson.py:227-229 | meson configures only when the build directory is missing, and only first; the backend's steps follow |
| BuildPlan.BackendShape | sys/meson.py:230-238 | ninja runs only `ninja -C builddir`; another backend patches exactly when `--xp` is set and it is not vs2019, then runs `msbuild builddir\radare2.sln /m` unless `--project` |
| BuildPlan.GuardedSteps | sys/meson.py:230-238 | past the guards, the patch runs exactly when `--xp` is set, `--project` runs no build tool, and otherwise exactly one build tool runs, last |
| BuildPlan.RunIssues | sys/meson.py:218-238 | a build that completes issues exactly the planned commands, in order |
| BuildPlan.RunToolThen | sys/meson.py:85-88 | a tool step issues its command; a non-zero status stops the build there, and a zero status goes on with the later steps |
| BuildPlan.FailureIsFatal | sys/meson.py:85-88 | any failing tool step (meson, ninja or msbuild) ends the build: its command is the last one issued and nothing after it runs |
| MesonScript.Script.Build | sys/meson.py:218-238 | the build issues the commands of its plan and stops at the first failure, as the plan's run computes |
| MesonScript.Script.ConfigureThenBackend | sys/meson.py:227-238 | a missing build directory is configured before the backend's steps; a failing meson stops the build |
| MesonScript.Script.Backend | sys/meson.py:230-238 | the backend's steps run as planned |
| MesonScript.Script.Solution | sys/meson.py:235-237 | msbuild runs on the solution unless only the project is wanted |
| XpPatch.DecideAsWritten | sys/meson.py:145-150 | the patch is skipped exactly when the toolset ends in `_xp`; any other toolset, the empty one included, is translated to `v_xp` |
| XpPatch.Decide | sys/meson.py:145-150 | the corrected rule of the finding below, not what the script does: translate exactly when the toolset is non-empty and does not end in `_xp` |
| XpPatch.RewriteEach | sys/meson.py:152-157 | the file loop keeps the set of files |
| XpPatch.RewriteEachEffect | sys/meson.py:152-157 | when every project file opens, each is rewritten exactly once and every other file keeps its text |
| XpPatch.RewriteEachStops | sys/meson.py:152-154 | the first project file that cannot be opened is the one reported |
| XpPatch.TranslateShape | sys/meson.py:155 | the rewrite replaces every occurrence of the old toolset by the new one and keeps the text between them (an empty toolset puts `_xp` between every two characters); a file without the toolset keeps its text |
| XpPatch.TranslateTwiceChanges | sys/meson.py:146-148 | without the early exit a second run would change the files again, since `v_xp` still contains `v` |
| XpPatch.AlreadyXpKeepsFiles | sys/meson.py:146-148 | an XP toolset leaves every file as it is |
| XpPatch.SecondRunSkips | sys/meson.py:142-157 | REGEN.vcxproj is itself rewritten, so when the pattern then reads the new toolset, a second run changes nothing |
| XpPatch.EmptyToolsetGarbles | sys/meson.py:143-157 | as written, an empty toolset raises nothing and turns every globbed project file `c` into `c` with `_xp` before each character and at the end, so each of them changes; other files keep their text |
| XpPatch.EmptyToolsetSkipped | sys/meson.py:145-150 | the corrected patch leaves every file alone on an empty toolset and otherwise gives exactly the script's outcome |
| MesonScript.Script.XpCompat | sys/meson.py:139-157 | the patch leaves the files as the script's rule computes (only an `_xp` toolset is skipped, so an empty one is translated), and raises when REGEN.vcxproj or a project file is missing or no toolset is found |
| MesonScript.Script.RewriteProjects | sys/meson.py:152-157 | the loop leaves the files as the rewrite function computes and reports the first missing project |
| MesonScript.Script.CopyFiles | sys/meson.py:131-132 | the `copy` loop copies every globbed file in turn, and the first failure ends it |
| MesonScript.Script.RunMakedirs | sys/meson.py:134-137 | `makedirs` formats its path twice, then creates it |
| MesonScript.Script.RunCopy | sys/meson.py:126-132 | `copy` formats the source once and the destination twice, and globs recursively exactly when the source holds `**` |
| MesonScript.Script.RunCopytree | sys/meson.py:112-116 | `copytree` formats the source once and the destination twice, and copies the tree without the excluded names |
| MesonScript.Script.WriteLauncherFile | sys/meson.py:169-173 | the launcher is written at the unformatted install path plus `bin\r2.bat` |
| MesonScript.Script.RunOps | sys/meson.py:166-216 | the distribution steps run in order as the manifest's run computes, and the first exception ends them |
| MesonScript.Script.WinDistLibr2 | sys/meson.py:183-216 | the extra names join PATH_FMT, then the library data is laid out |
| MesonScript.Script.WinDist | sys/meson.py:160-181 | DIST and BUILDDIR join PATH_FMT, then the whole manifest runs; with the default table and a new install directory, no step fails on a destination and everything new lies below the install directory |
| MesonScript.DefaultTableReady | sys/meson.py:160-164 | with the default R2_PATH published and DIST set, PATH_FMT is the environment the distribution's safety rests on |
| MesonScript.Script.Install | sys/meson.py:240-245 | on Windows the distribution is laid out; elsewhere nothing changes |
| MesonScript.Script.Run | sys/meson.py:316-354 | a refused combination or a bad option stops `main` before any command runs or any file changes; otherwise the build issues its planned commands with the Windows default prefix, and `--install` lays out the distribution |
| XpPatch.ReplaceGrows | sys/meson.py:155 | replacing the toolset by a longer name never shortens a file and lengthens it where the toolset occurs |
| Text.ReplaceIsJoinSplit | sys/meson.py:155 | `replace` splits at the pattern and joins with the replacement |
| Text.ComponentsJoin | sys/meson.py:169 | joining two path strings with a backslash concatenates their components |

## Left out

- The environment is left abstract. Path joining, `isabs`, `normpath`, globbing, the tool processes and the toolset regular expression are parameters. The model proves what holds for every behaviour they may have.
- `str.upper` is modelled on ASCII letters only (`Text.Upper`). Other characters keep their case.
- Exit statuses are unbounded integers. Only zero versus non-zero matters.
- These parts of `main` are outside the model, and nothing in it describes their effects:
  - argparse and logging;
  - `--alias` (sys/meson.py:296-298) prints a shell alias and exits with status 0 before any guard runs;
  - `--asan` (sys/meson.py:299-311) exits with status 1 on OpenBSD before any guard runs, and elsewhere adds `-fsanitize` to `CFLAGS` and `LDFLAGS`, which changes what meson and ninja compile;
  - `--pull` (sys/meson.py:314-315) runs `git pull` before the guards, which changes the source tree that the build and the distribution copy from;
  - `--uninstall` (sys/meson.py:351-352) runs `make uninstall` after the build and before the install, which removes installed files; `--symstall` (sys/meson.py:355-356) runs `make symstall` last, which links them; `--nosudo` drops the `sudo` in front of both, and their exit statuses are ignored;
  - the POSIX install, which only logs a warning.
- `set_global_variables` reads the version from `configure.acr` and finds the meson launcher. In the model the version and the launcher are parameters of `MesonScript.Script.constructor`.
- MesonScript.Script.XpCompat: a project file's contents are its decoded text, and the model writes back exactly the text it read. Opening in text mode with the locale encoding is not modelled. Two effects are lost. Newline translation (on Windows `\n` is written as `\r\n`, and a lone `\r` or `\r\n` is read as `\n`) can change a file on disk even when it does not hold the toolset. A `UnicodeDecodeError` on an undecodable byte ends the script, where the model reports no error. `XpPatch.TranslateShape` and `XpPatch.RewriteEachEffect` speak of this decoded text.
- FileSystem.Exists: a path is its exact list of non-empty components (`Text.Components`), and two paths are the same only when those lists are equal. Windows compares names without regard to case and resolves `.`, `..` and relative paths; the model does neither. So `MesonScript.Present` (the `os.path.exists` of the install guard, sys/meson.py:325-327) can miss an existing directory spelled in another case, and `Distribution` may create a directory named `..`. The install guard, `DistPlan.WinDistSafe` and its `Fresh` premise hold as stated only when every path is spelled the same way throughout.
- MesonScript.Script.RunOps: `win_dist` and `win_dist_libr2` are straight-line code in the script. The model runs them as a loop over the list of their steps (`Distribution.WinDistOps`, `Distribution.WinDistLibr2Ops`), in the same order.
- MesonScript.Settled: when a distribution step raises, the model states the exception but not the partly changed filesystem it leaves. A failing glob copy or tree copy may already have copied some files.
- The text of the `r2.bat` launcher is written but nothing is proved about it.
- File metadata that `shutil.copy2` preserves is not modelled. Neither is `ignore_patterns` matching beyond whole names.
- DistPlan.WinDistSafe: proved for the default R2_PATH table, and for an install path without braces (destinations are formatted twice). With overridden options the same argument needs `Options.OverridesLayered` together with layout lemmas for the new values. That combination is not stated.
- XpPatch.SecondRunSkips: conditional on the toolset pattern reading the new toolset from the rewritten REGEN.vcxproj. The regular expression is a parameter, so this cannot be derived.
- `Distribution.Move` models the `move` helper, but no class method calls it, because the script never uses it.

## Findings

| source | as written | input that shows it | evidently intended | confidence | as-written member | corrected member |
|---|---|---|---|---|---|---|
| sys/meson.py:143-155 | only a toolset ending in `_xp` is skipped, so an empty match of `<PlatformToolset>(.*)</PlatformToolset>` is "translated" to `_xp`, and `c.replace('', '_xp')` inserts `_xp` before every character of every project file | REGEN.vcxproj containing `<PlatformToolset></PlatformToolset>`; a project file `ab` becomes `_xpa_xpb_xp` | an empty toolset names nothing to translate and should leave the files alone; the build model keeps the behaviour as written, and the corrected patch `XpPatch.XpResultIntended` is modelled beside it | not executed; the empty match is unusual in generated projects | XpPatch.EmptyToolsetGarbles | XpPatch.EmptyToolsetSkipped |
