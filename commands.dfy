/**
 * The command vectors the script hands to `subprocess.call`: `meson`,
 * `ninja` and `msbuild` (sys/meson.py:67-110), and the `-D` options `build`
 * passes to meson (sys/meson.py:222-226).
 *
 * Optional string arguments follow Python's truthiness: `None` and `''`
 * are both written `""` here, and `Given` is the test `if prefix:`.
 */
module Commands {
  import opened Text

  /** Python's truth value of an optional string argument. */
  predicate Given(s: string)
  {
    s != ""
  }

  /** An argument the builder appends when `on` holds. */
  datatype Candidate = Candidate(on: bool, arg: string)

  /** The arguments of the candidates that are switched on, in order. */
  function Chosen(cs: seq<Candidate>): (r: seq<string>)
    ensures |r| <= |cs|
  {
    if cs == [] then []
    else (if cs[0].on then [cs[0].arg] else []) + Chosen(cs[1..])
  }

  /** An argument is chosen exactly when some candidate carrying it is on;
      every candidate counts when all are on, and none when all are off. */
  lemma {:induction false} ChosenMembers(cs: seq<Candidate>)
    ensures forall x :: x in Chosen(cs) <==> exists i :: 0 <= i < |cs| && cs[i].on && cs[i].arg == x
    ensures (forall i :: 0 <= i < |cs| ==> cs[i].on) ==> |Chosen(cs)| == |cs|
    ensures (forall i :: 0 <= i < |cs| ==> !cs[i].on) ==> Chosen(cs) == []
    decreases |cs|
  {
    if cs != [] {
      var tail := cs[1..];
      ChosenMembers(tail);
      forall i | 0 <= i < |tail| ensures tail[i] == cs[i + 1] { }
      forall x | x in Chosen(cs) ensures exists i :: 0 <= i < |cs| && cs[i].on && cs[i].arg == x {
        if !(cs[0].on && cs[0].arg == x) {
          var j :| 0 <= j < |tail| && tail[j].on && tail[j].arg == x;
          assert cs[j + 1] == tail[j];
        }
      }
      forall x | exists i :: 0 <= i < |cs| && cs[i].on && cs[i].arg == x ensures x in Chosen(cs) {
        var i :| 0 <= i < |cs| && cs[i].on && cs[i].arg == x;
        if i > 0 {
          assert tail[i - 1] == cs[i];
        }
      }
    }
  }

  /** Choosing from two lists one after the other is choosing from both. */
  lemma {:induction false} ChosenAppend(xs: seq<Candidate>, ys: seq<Candidate>)
    ensures Chosen(xs + ys) == Chosen(xs) + Chosen(ys)
    decreases |xs|
  {
    if xs == [] {
      assert xs + ys == ys;
    } else {
      assert (xs + ys)[0] == xs[0];
      assert (xs + ys)[1..] == xs[1..] + ys;
      ChosenAppend(xs[1..], ys);
      var h := if xs[0].on then [xs[0].arg] else [];
      assert Chosen(xs + ys) == h + (Chosen(xs[1..]) + Chosen(ys));
      assert h + (Chosen(xs[1..]) + Chosen(ys)) == (h + Chosen(xs[1..])) + Chosen(ys);
    }
  }

  /** A single candidate contributes its argument exactly when it is on. */
  lemma ChosenOne(c: Candidate)
    ensures Chosen([c]) == if c.on then [c.arg] else []
  {
    assert [c][1..] == [];
  }

  // ---------------------------------------------------------------------------
  // meson
  // ---------------------------------------------------------------------------

  /** The library kind meson is asked to build. */
  function LibraryFlag(shared: bool): string
  {
    "--default-library=" + (if shared then "shared" else "static")
  }

  lemma LibraryFlagText()
    ensures LibraryFlag(true) == "--default-library=shared"
    ensures LibraryFlag(false) == "--default-library=static"
  {
  }

  /** The flags `meson` may append after `[root, build]`, in the order it
      appends them (sys/meson.py:71-80). */
  function MesonCandidates(prefix: string, backend: string, release: bool, shared: bool): seq<Candidate>
  {
    [ Candidate(Given(prefix), "--prefix=" + prefix),
      Candidate(Given(backend), "--backend=" + backend),
      Candidate(release, "--buildtype=release"),
      Candidate(true, LibraryFlag(shared)) ]
  }

  function MesonFlags(prefix: string, backend: string, release: bool, shared: bool): seq<string>
  {
    Chosen(MesonCandidates(prefix, backend, release, shared))
  }

  /** The flags one candidate after the other. */
  lemma MesonFlagsParts(prefix: string, backend: string, release: bool, shared: bool)
    ensures MesonFlags(prefix, backend, release, shared)
         == (if Given(prefix) then ["--prefix=" + prefix] else [])
          + (if Given(backend) then ["--backend=" + backend] else [])
          + (if release then ["--buildtype=release"] else [])
          + [LibraryFlag(shared)]
  {
    var cs := MesonCandidates(prefix, backend, release, shared);
    assert cs == [cs[0]] + [cs[1]] + [cs[2]] + [cs[3]];
    ChosenAppend([cs[0]] + [cs[1]] + [cs[2]], [cs[3]]);
    ChosenAppend([cs[0]] + [cs[1]], [cs[2]]);
    ChosenAppend([cs[0]], [cs[1]]);
    ChosenOne(cs[0]);
    ChosenOne(cs[1]);
    ChosenOne(cs[2]);
    ChosenOne(cs[3]);
  }

  /** The argument vector of `meson(root, build, ...)`: the meson launcher,
      root and build directory, the flags, then the options in caller order
      (sys/meson.py:70-82). */
  method MesonCommand(mesonExe: seq<string>, root: string, build: string, prefix: string, backend: string,
                      release: bool, shared: bool, options: seq<string>)
    returns (command: seq<string>)
    ensures command == mesonExe + [root, build] + MesonFlags(prefix, backend, release, shared) + options
  {
    MesonFlagsParts(prefix, backend, release, shared);
    LibraryFlagText();
    command := mesonExe + [root, build];
    ghost var flags: seq<string> := [];
    if Given(prefix) {
      command, flags := command + ["--prefix=" + prefix], flags + ["--prefix=" + prefix];
    }
    assert flags == (if Given(prefix) then ["--prefix=" + prefix] else []);
    if Given(backend) {
      command, flags := command + ["--backend=" + backend], flags + ["--backend=" + backend];
    }
    assert flags == (if Given(prefix) then ["--prefix=" + prefix] else [])
                  + (if Given(backend) then ["--backend=" + backend] else []);
    if release {
      command, flags := command + ["--buildtype=release"], flags + ["--buildtype=release"];
    }
    assert flags == (if Given(prefix) then ["--prefix=" + prefix] else [])
                  + (if Given(backend) then ["--backend=" + backend] else [])
                  + (if release then ["--buildtype=release"] else []);
    if shared {
      command, flags := command + ["--default-library=shared"], flags + ["--default-library=shared"];
    } else {
      command, flags := command + ["--default-library=static"], flags + ["--default-library=static"];
    }
    assert flags == MesonFlags(prefix, backend, release, shared);
    assert command == mesonExe + [root, build] + flags;
    if options != [] {
      command := command + options;
    }
  }

  /** Each optional flag is there exactly when its argument is given, the
      flags keep the order prefix, backend, build type, library kind, and the
      library kind comes exactly once, last. */
  lemma MesonFlagsShape(prefix: string, backend: string, release: bool, shared: bool)
    ensures var f := MesonFlags(prefix, backend, release, shared);
      && |f| == (if Given(prefix) then 1 else 0) + (if Given(backend) then 1 else 0) + (if release then 1 else 0) + 1
      && f[|f| - 1] == LibraryFlag(shared)
      && (forall k :: 0 <= k < |f| - 1 ==> !IsPrefix("--default-library=", f[k]))
      && (("--prefix=" + prefix in f) <==> Given(prefix))
      && (("--backend=" + backend in f) <==> Given(backend))
      && (("--buildtype=release" in f) <==> release)
      && (Given(prefix) ==> f[0] == "--prefix=" + prefix)
      && (Given(backend) ==> f[if Given(prefix) then 1 else 0] == "--backend=" + backend)
  {
    var p, b, r, l := "--prefix=" + prefix, "--backend=" + backend, "--buildtype=release", LibraryFlag(shared);
    MesonFlagsParts(prefix, backend, release, shared);
    var f := MesonFlags(prefix, backend, release, shared);
    var front := (if Given(prefix) then [p] else []) + (if Given(backend) then [b] else []) + (if release then [r] else []);
    assert f == front + [l];
    assert p[2] == 'p' && b[2] == 'b' && r[2] == 'b' && l[2] == 'd';
    assert b[3] == 'a' && r[3] == 'u';
    forall k | 0 <= k < |f| - 1 ensures !IsPrefix("--default-library=", f[k]) {
      assert f[k] in front;
      assert f[k][2] != 'd';
    }
  }

  /** The whole `meson` command: launcher, root and build directory first,
      the options last in caller order, the flags in between. */
  lemma MesonCommandShape(mesonExe: seq<string>, root: string, build: string, prefix: string, backend: string,
                          release: bool, shared: bool, options: seq<string>)
    ensures var c := mesonExe + [root, build] + MesonFlags(prefix, backend, release, shared) + options;
      && c[..|mesonExe| + 2] == mesonExe + [root, build]
      && c[|c| - |options|..] == options
      && c[|c| - |options| - 1] == LibraryFlag(shared)
  {
    MesonFlagsShape(prefix, backend, release, shared);
  }

  // ---------------------------------------------------------------------------
  // ninja, msbuild, and the -D options
  // ---------------------------------------------------------------------------

  /** `ninja -C folder` followed by the targets (sys/meson.py:92-94). */
  method NinjaCommand(folder: string, targets: seq<string>) returns (command: seq<string>)
    ensures |command| == 3 + |targets|
    ensures command[..3] == ["ninja", "-C", folder] && command[3..] == targets
  {
    command := ["ninja", "-C", folder];
    if targets != [] {
      command := command + targets;
    }
  }

  /** `msbuild project` followed by the parameters (sys/meson.py:103-105). */
  method MsbuildCommand(project: string, params: seq<string>) returns (command: seq<string>)
    ensures |command| == 2 + |params|
    ensures command[..2] == ["msbuild", project] && command[2..] == params
  {
    command := ["msbuild", project];
    if params != [] {
      command := command + params;
    }
  }

  /** The meson options `build` passes: every user option behind `-D`, in
      order, then `-Duse_webui=true` when the web UI is wanted and
      `-Dlocal=true` for a local install (sys/meson.py:222-226). */
  function MesonDefines(options: seq<string>, webui: bool, local: bool): (r: seq<string>)
    ensures |r| >= |options|
    ensures forall i :: 0 <= i < |options| ==> r[i] == "-D" + options[i]
    ensures r[|options|..] == Chosen([Candidate(webui, "-Duse_webui=true"), Candidate(local, "-Dlocal=true")])
  {
    var defines := seq(|options|, i requires 0 <= i < |options| => "-D" + options[i]);
    var withWebui := defines + (if webui then ["-Duse_webui=true"] else []);
    withWebui + (if local then ["-Dlocal=true"] else [])
  }

  /** The two switches each add their option exactly when set, web UI first. */
  lemma DefinesSwitches(options: seq<string>, webui: bool, local: bool)
    ensures var tail := MesonDefines(options, webui, local)[|options|..];
      && |tail| == (if webui then 1 else 0) + (if local then 1 else 0)
      && (webui ==> tail[0] == "-Duse_webui=true")
      && (local ==> tail[|tail| - 1] == "-Dlocal=true")
      && ("-Duse_webui=true" in tail <==> webui)
      && ("-Dlocal=true" in tail <==> local)
  {
    var cs := [Candidate(webui, "-Duse_webui=true"), Candidate(local, "-Dlocal=true")];
    assert cs[1..] == [Candidate(local, "-Dlocal=true")];
    assert cs[1..][1..] == [];
  }
}
