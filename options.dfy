/**
 * The `--options KEY=VALUE` overrides of the R2_PATH table
 * (sys/meson.py:330-341): each option is split at its first `=`, the key is
 * upper-cased, options naming no R2_PATH entry are passed over, an absolute
 * value for a known entry is fatal, and otherwise the entry becomes the
 * normalised value.
 *
 * `os.path.isabs` and `os.path.normpath` are parameters of the model; the
 * table functions here are what the option loop of `Script.ApplyOptions`
 * computes, one option at a time.
 */
module Options {
  import opened Results
  import opened Text
  import opened PathFormat
  import opened PathTables

  /** The two fatal mistakes in an option. */
  datatype OptionError =
    | InvalidOption(option: string)         // no `=` in the option
    | RelativePathRequired(option: string)  // an absolute value for a known key

  /** Where the first `=` of `s` is, if it has one. */
  function FirstEquals(s: string): (i: Option<nat>)
    ensures i.Some? ==> i.value < |s| && s[i.value] == '=' && '=' !in s[..i.value]
    ensures i.None? <==> '=' !in s
  {
    if s == [] then None
    else if s[0] == '=' then Some(0)
    else
      match FirstEquals(s[1..])
      case None => None
      case Some(j) =>
        assert s[..j + 1] == [s[0]] + s[1..][..j];
        Some(j + 1)
  }

  /** `option.split('=', 1)`, or nothing when the option has no `=`. */
  function SplitOption(option: string): (r: Option<(string, string)>)
    ensures r.None? <==> '=' !in option
    ensures r.Some? ==> option == r.value.0 + "=" + r.value.1 && '=' !in r.value.0
  {
    match FirstEquals(option)
    case None => None
    case Some(i) =>
      assert option == option[..i] + "=" + option[i + 1..];
      Some((option[..i], option[i + 1..]))
  }

  /** One pass of the option loop over the table. */
  function Override(t: Registry, option: string, isAbs: string -> bool, normpath: string -> string)
    : Result<Registry, OptionError>
  {
    match SplitOption(option)
    case None => Err(InvalidOption(option))
    case Some((raw, value)) =>
      var key := Upper(raw);
      if key !in t then Ok(t)
      else if isAbs(value) then Err(RelativePathRequired(option))
      else Ok(t[key := normpath(value)])
  }

  /** The table after the options, up to and including the first bad one,
      and the error that stopped the loop. */
  function Overrides(t: Registry, options: seq<string>, isAbs: string -> bool, normpath: string -> string)
    : (Registry, Option<OptionError>)
    decreases |options|
  {
    if options == [] then (t, None)
    else
      match Override(t, options[0], isAbs, normpath)
      case Err(e) => (t, Some(e))
      case Ok(t') => Overrides(t', options[1..], isAbs, normpath)
  }

  // ---------------------------------------------------------------------------
  // One option
  // ---------------------------------------------------------------------------

  /** The key an option names: the text before its first `=`, upper-cased. */
  function KeyOf(option: string): string
    requires '=' in option
  {
    Upper(SplitOption(option).value.0)
  }

  /** The value an option gives: the text after its first `=`. */
  function ValueOf(option: string): string
    requires '=' in option
  {
    SplitOption(option).value.1
  }

  /** An option is fatal exactly when it has no `=`, or names a known key
      with an absolute value; an unknown key is passed over whatever its value. */
  lemma OverrideFails(t: Registry, option: string, isAbs: string -> bool, normpath: string -> string)
    ensures Override(t, option, isAbs, normpath).Err? <==>
      ('=' !in option || (KeyOf(option) in t && isAbs(ValueOf(option))))
    ensures Override(t, option, isAbs, normpath) == Err(InvalidOption(option)) <==> '=' !in option
  {
  }

  /** A successful option changes at most its own key, to the normalised
      value, and never adds or removes a key. */
  lemma OverrideOnlyKey(t: Registry, option: string, isAbs: string -> bool, normpath: string -> string)
    requires Override(t, option, isAbs, normpath).Ok?
    ensures var t' := Override(t, option, isAbs, normpath).value;
      && t'.Keys == t.Keys
      && (forall k :: k in t && k != KeyOf(option) ==> t'[k] == t[k])
      && (KeyOf(option) in t ==> t'[KeyOf(option)] == normpath(ValueOf(option)))
  {
  }

  // ---------------------------------------------------------------------------
  // The whole loop
  // ---------------------------------------------------------------------------

  /** The value the last option naming `key` gives, if any option names it. */
  function LastValue(options: seq<string>, key: string): Option<string>
    decreases |options|
  {
    if options == [] then None
    else
      var o := options[|options| - 1];
      if '=' in o && KeyOf(o) == key then Some(ValueOf(o))
      else LastValue(options[..|options| - 1], key)
  }

  /** The table accepts the option. */
  predicate Accepted(t: Registry, option: string, isAbs: string -> bool)
  {
    '=' in option && (KeyOf(option) in t ==> !isAbs(ValueOf(option)))
  }

  /** Every option in the list is accepted by the table. */
  predicate AllValid(t: Registry, options: seq<string>, isAbs: string -> bool)
  {
    forall i :: 0 <= i < |options| ==> Accepted(t, options[i], isAbs)
  }

  lemma AllValidCons(t: Registry, t': Registry, options: seq<string>, isAbs: string -> bool)
    requires options != [] && t'.Keys == t.Keys
    ensures AllValid(t, options, isAbs) <==> Accepted(t, options[0], isAbs) && AllValid(t', options[1..], isAbs)
  {
    assert forall o :: Accepted(t, o, isAbs) <==> Accepted(t', o, isAbs);
    assert forall i :: 1 <= i < |options| ==> options[i] == options[1..][i - 1];
  }

  /** The loop stops on an error exactly when some option is bad, and reports
      the first bad option; it never adds or removes a key. */
  lemma {:induction false} OverridesError(t: Registry, options: seq<string>, isAbs: string -> bool, normpath: string -> string)
    ensures Overrides(t, options, isAbs, normpath).0.Keys == t.Keys
    ensures Overrides(t, options, isAbs, normpath).1.None? <==> AllValid(t, options, isAbs)
    decreases |options|
  {
    if options != [] {
      var o := options[0];
      OverrideFails(t, o, isAbs, normpath);
      match Override(t, o, isAbs, normpath)
      case Err(_) =>
        assert !Accepted(t, options[0], isAbs);
      case Ok(t') =>
        OverrideOnlyKey(t, o, isAbs, normpath);
        OverridesError(t', options[1..], isAbs, normpath);
        AllValidCons(t, t', options, isAbs);
    }
  }

  /** Processing a list and then one more option is processing the longer list. */
  lemma {:induction false} OverridesSnoc(t: Registry, options: seq<string>, o: string, isAbs: string -> bool, normpath: string -> string)
    requires Overrides(t, options, isAbs, normpath).1.None?
    ensures var t' := Overrides(t, options, isAbs, normpath).0;
      Overrides(t, options + [o], isAbs, normpath) ==
        match Override(t', o, isAbs, normpath)
        case Err(e) => (t', Some(e))
        case Ok(t'') => (t'', None)
    decreases |options|
  {
    if options == [] {
      assert [o][1..] == [];
    } else {
      assert (options + [o])[1..] == options[1..] + [o];
      match Override(t, options[0], isAbs, normpath)
      case Err(_) =>
      case Ok(t1) =>
        OverridesSnoc(t1, options[1..], o, isAbs, normpath);
    }
  }

  /** When every option is accepted, the last option naming a key decides its
      value and a key no option names keeps its value: later options win. */
  lemma {:induction false} LastOptionWins(t: Registry, options: seq<string>, isAbs: string -> bool, normpath: string -> string, key: string)
    requires AllValid(t, options, isAbs) && key in t
    ensures var t' := Overrides(t, options, isAbs, normpath).0;
      key in t' &&
      t'[key] == match LastValue(options, key) case None => t[key] case Some(v) => normpath(v)
    decreases |options|
  {
    OverridesError(t, options, isAbs, normpath);
    if options != [] {
      var init, o := options[..|options| - 1], options[|options| - 1];
      assert options == init + [o];
      assert AllValid(t, init, isAbs) by {
        assert forall i :: 0 <= i < |init| ==> init[i] == options[i];
      }
      OverridesError(t, init, isAbs, normpath);
      LastOptionWins(t, init, isAbs, normpath, key);
      OverridesSnoc(t, init, o, isAbs, normpath);
      var ti := Overrides(t, init, isAbs, normpath).0;
      assert Accepted(t, o, isAbs);
      assert ti.Keys == t.Keys;
      assert Override(ti, o, isAbs, normpath).Ok?;
      OverrideOnlyKey(ti, o, isAbs, normpath);
      var t' := Override(ti, o, isAbs, normpath).value;
      assert Overrides(t, options, isAbs, normpath).0 == t';
      if KeyOf(o) == key {
        assert LastValue(options, key) == Some(ValueOf(o));
      } else {
        assert LastValue(options, key) == LastValue(init, key);
      }
    }
  }

  /** Options whose normalised values are free of braces keep the table
      layered, so every destination still resolves in two passes. */
  lemma {:induction false} OverridesLayered(t: Registry, options: seq<string>, isAbs: string -> bool, normpath: string -> string)
    requires Layered(t)
    requires forall i :: 0 <= i < |options| && '=' in options[i] ==> NoBraces(normpath(ValueOf(options[i])))
    ensures Layered(Overrides(t, options, isAbs, normpath).0)
    decreases |options|
  {
    if options != [] {
      var o := options[0];
      match Override(t, o, isAbs, normpath)
      case Err(_) =>
      case Ok(t') =>
        if '=' in o && KeyOf(o) in t && !isAbs(ValueOf(o)) {
          OverrideKeepsLayered(t, KeyOf(o), normpath(ValueOf(o)));
        }
        assert forall i :: 1 <= i < |options| ==> options[i] == options[1..][i - 1];
        OverridesLayered(t', options[1..], isAbs, normpath);
    }
  }

  /** The first `=` after a key without one is the one that follows it. */
  lemma {:induction false} FirstEqualsAfter(raw: string, value: string)
    requires '=' !in raw
    ensures FirstEquals(raw + "=" + value) == Some(|raw|)
    decreases |raw|
  {
    var s := raw + "=" + value;
    if raw == [] {
      assert s[0] == '=';
    } else {
      assert s[0] == raw[0] && s[1..] == raw[1..] + "=" + value;
      assert '=' !in raw[1..] by {
        assert forall c :: c in raw[1..] ==> c in raw;
      }
      FirstEqualsAfter(raw[1..], value);
    }
  }

  /** `KEY=VALUE` with no `=` in KEY names KEY, upper-cased, and gives VALUE,
      which may hold further `=` signs. */
  lemma KeyAndValue(raw: string, value: string)
    requires '=' !in raw
    ensures '=' in raw + "=" + value
    ensures KeyOf(raw + "=" + value) == Upper(raw) && ValueOf(raw + "=" + value) == value
  {
    var s := raw + "=" + value;
    assert s[|raw|] == '=';
    FirstEqualsAfter(raw, value);
    assert s[..|raw|] == raw && s[|raw| + 1..] == value;
  }

  /** Keys are matched after upper-casing: an option names the same key
      whatever the case of its letters, so `r2_libdir=lib64` and
      `R2_LIBDIR=lib64` set the same entry. */
  lemma KeyIgnoresCase(raw: string, value: string)
    requires '=' !in raw
    ensures '=' !in Upper(raw)
    ensures KeyOf(raw + "=" + value) == KeyOf(Upper(raw) + "=" + value)
    ensures ValueOf(raw + "=" + value) == ValueOf(Upper(raw) + "=" + value)
  {
    var u := Upper(raw);
    assert '=' !in u by {
      forall i | 0 <= i < |u| ensures u[i] != '=' {
        assert raw[i] != '=';
      }
    }
    KeyAndValue(raw, value);
    KeyAndValue(u, value);
    assert Upper(u) == u by {
      forall i | 0 <= i < |u| ensures Upper(u)[i] == u[i] {
        assert u[i] == UpperChar(raw[i]);
      }
    }
  }
}
