/**
 * The command line as the script uses it, and the checks `main` makes
 * before anything is built (sys/meson.py:316-329).
 *
 * `--prefix`, `--install` and the other optional strings are `""` when not
 * given; `--install` is a directory on Windows and a switch elsewhere, and
 * in both cases only its truth value and (on Windows) its text matter here.
 */
module Guards {
  import opened Results
  import opened Text
  import opened Commands

  /** The backends `--backend` accepts. */
  const Backends: seq<string> := ["ninja", "vs2015", "vs2017", "vs2019"]

  /** The parsed arguments the build and install steps read. */
  datatype Args = Args(
    project: bool,        // --project: generate the solution only
    release: bool,        // --release
    backend: string,      // --backend, one of Backends
    shared: bool,         // --shared
    local: bool,          // --local
    prefix: string,       // --prefix
    dir: string,          // --dir, the build directory below the root
    xp: bool,             // --xp
    webui: bool,          // --webui
    install: string,      // --install
    options: seq<string>  // --options KEY=VALUE ...
  )

  /** The argument combinations `main` refuses, in the order it tests them. */
  datatype GuardError =
    | ProjectWithNinja          // --project with --backend ninja
    | XpWithNinja               // --xp with --backend ninja
    | XpWithVs2019              // --xp with --backend vs2019
    | InstallExists(dir: string)  // the Windows install directory already exists

  /** The guards of `main`. The two `--xp` tests are Python's substring test
      `args.backend in 'ninja'`, not an equality; `present` is
      `os.path.exists`. */
  function CheckArgs(a: Args, nt: bool, present: string -> bool): Result<(), GuardError>
  {
    if a.project && a.backend == "ninja" then Err(ProjectWithNinja)
    else if a.xp && Contains("ninja", a.backend) then Err(XpWithNinja)
    else if a.xp && Contains("vs2019", a.backend) then Err(XpWithVs2019)
    else if nt && Given(a.install) && present(a.install) then Err(InstallExists(a.install))
    else Ok(())
  }

  /** The prefix meson is given: on Windows a missing prefix becomes
      `priv_install_dir` inside the build directory. `join` is
      `os.path.join`. */
  function EffectivePrefix(a: Args, nt: bool, root: string, join: (string, string) -> string): (p: string)
    ensures Given(a.prefix) || !nt ==> p == a.prefix
    ensures !Given(a.prefix) && nt ==> p == join(join(root, a.dir), "priv_install_dir")
  {
    if nt && !Given(a.prefix) then join(join(root, a.dir), "priv_install_dir") else a.prefix
  }

  // ---------------------------------------------------------------------------
  // The substring tests on the four backends
  // ---------------------------------------------------------------------------

  lemma NotIn(s: string, sub: string)
    requires |s| < |sub|
    ensures !Contains(s, sub)
  {
  }

  /** Same-length strings that differ at some index do not contain each other. */
  lemma SameLengthDiffer(s: string, sub: string, k: nat)
    requires |s| == |sub| && k < |s| && s[k] != sub[k]
    ensures !Contains(s, sub)
  {
    assert !OccursAt(s, sub, 0) by {
      assert s[..|sub|][k] != sub[k];
    }
  }

  /** `ninja` is not inside either six-letter Visual Studio name. */
  lemma NinjaNotInVs(vs: string)
    requires vs in ["vs2015", "vs2017", "vs2019"]
    ensures !Contains(vs, "ninja")
  {
    assert |vs| == 6 && vs[0] != 'n' && vs[1] != 'n';
    forall i | 0 <= i <= |vs|
      ensures !OccursAt(vs, "ninja", i)
    {
      if i + 5 <= |vs| {
        assert vs[i..i + 5][0] == vs[i] != 'n';
      }
    }
  }

  /** On the backends `--backend` accepts, the substring tests of the two
      `--xp` guards are exact: the backend is inside `ninja` only when it is
      `ninja`, and inside `vs2019` only when it is `vs2019`. */
  lemma BackendTestsExact(b: string)
    requires b in Backends
    ensures Contains("ninja", b) <==> b == "ninja"
    ensures Contains("vs2019", b) <==> b == "vs2019"
  {
    assert OccursAt(b, b, 0);
    if b == "ninja" {
      NotIn("ninja", "vs2019");
      NinjaNotInVs("vs2019");
    } else {
      NotIn("ninja", b);
      assert b in ["vs2015", "vs2017", "vs2019"];
      if b == "vs2015" {
        SameLengthDiffer("vs2019", "vs2015", 5);
      } else if b == "vs2017" {
        SameLengthDiffer("vs2019", "vs2017", 5);
      }
    }
  }

  /** The substring test admits more than the intended equality: the empty
      backend, and any piece of a name, pass it. */
  lemma SubstringWiderThanEquality()
    ensures Contains("ninja", "nin") && Contains("vs2019", "")
  {
    assert OccursAt("ninja", "nin", 0);
    assert OccursAt("vs2019", "", 0);
  }

  /** With a backend `--backend` accepts, `main` goes on exactly when none of
      the refused combinations is asked for. */
  lemma GuardsPass(a: Args, nt: bool, present: string -> bool)
    requires a.backend in Backends
    ensures CheckArgs(a, nt, present).Ok? <==>
      && !(a.project && a.backend == "ninja")
      && !(a.xp && (a.backend == "ninja" || a.backend == "vs2019"))
      && !(nt && Given(a.install) && present(a.install))
  {
    BackendTestsExact(a.backend);
  }

  /** Which guard refuses, with a backend `--backend` accepts: the first
      failing test in source order decides the error. */
  lemma GuardsReason(a: Args, nt: bool, present: string -> bool)
    requires a.backend in Backends
    ensures CheckArgs(a, nt, present) == Err(ProjectWithNinja) <==> a.project && a.backend == "ninja"
    ensures CheckArgs(a, nt, present) == Err(XpWithNinja) <==> !a.project && a.xp && a.backend == "ninja"
    ensures CheckArgs(a, nt, present) == Err(XpWithVs2019) <==> a.xp && a.backend == "vs2019"
    ensures CheckArgs(a, nt, present).Err? && CheckArgs(a, nt, present).error.InstallExists? <==>
      && !(a.project && a.backend == "ninja")
      && !(a.xp && (a.backend == "ninja" || a.backend == "vs2019"))
      && nt && Given(a.install) && present(a.install)
  {
    BackendTestsExact(a.backend);
  }
}
