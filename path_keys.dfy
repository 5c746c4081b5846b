/**
 * The R2_PATH keys one by one: the default value of each, and the
 * components it names below the distribution root once both `format`
 * passes have run.
 */
module PathKeys {
  import opened Text
  import opened PathFormat
  import opened PathTables

  /** The keys of R2_PATH. */
  datatype PathKey = LibDir | IncDir | DatDir | WwwRoot | Sdb | Zigns | Themes | Fortunes | Flags | Hud

  function KeyName(k: PathKey): string
  {
    match k
    case LibDir => "R2_LIBDIR"
    case IncDir => "R2_INCDIR"
    case DatDir => "R2_DATDIR"
    case WwwRoot => "R2_WWWROOT"
    case Sdb => "R2_SDB"
    case Zigns => "R2_ZIGNS"
    case Themes => "R2_THEMES"
    case Fortunes => "R2_FORTUNES"
    case Flags => "R2_FLAGS"
    case Hud => "R2_HUD"
  }

  /** The name of the directory a nested key adds below R2_DATDIR. */
  function DataLeaf(k: PathKey): string
  {
    match k
    case WwwRoot => "www"
    case Zigns => "zigns"
    case Themes => "cons"
    case Fortunes => "doc"
    case Flags => "flag"
    case Hud => "hud"
    case _ => ""
  }

  predicate Nested(k: PathKey)
  {
    !(k.LibDir? || k.IncDir? || k.DatDir? || k.Sdb?)
  }

  /** The value `R2PathDefaults` holds for each key. */
  function DefaultValue(k: PathKey): string
  {
    match k
    case LibDir => "lib"
    case IncDir => "include"
    case DatDir => "share"
    case Sdb => DatDirField
    case _ => DatDirField + "\\" + DataLeaf(k)
  }

  /** The default layout: the components each key names below the
      distribution root once R2_DATDIR is substituted. */
  function DefaultRel(k: PathKey): seq<string>
  {
    match k
    case LibDir => ["lib"]
    case IncDir => ["include"]
    case DatDir => ["share"]
    case Sdb => ["share"]
    case _ => ["share", DataLeaf(k)]
  }

  /** PATH_FMT holds every default R2_PATH value. */
  predicate DefaultPaths(env: Registry)
  {
    forall k: PathKey :: KeyName(k) in env && env[KeyName(k)] == DefaultValue(k)
  }

  // ---------------------------------------------------------------------------
  // The default table, key by key
  // ---------------------------------------------------------------------------

  lemma DefaultOf(k: PathKey)
    ensures KeyName(k) in R2PathDefaults && R2PathDefaults[KeyName(k)] == DefaultValue(k)
  {
    if k.LibDir? || k.IncDir? || k.DatDir? || k.Sdb? || k.WwwRoot? {
      FirstDefaults(k);
    } else {
      LastDefaults(k);
    }
  }

  lemma FirstDefaults(k: PathKey)
    requires k.LibDir? || k.IncDir? || k.DatDir? || k.Sdb? || k.WwwRoot?
    ensures KeyName(k) in R2PathDefaults && R2PathDefaults[KeyName(k)] == DefaultValue(k)
  {
  }

  lemma LastDefaults(k: PathKey)
    requires !(k.LibDir? || k.IncDir? || k.DatDir? || k.Sdb? || k.WwwRoot?)
    ensures KeyName(k) in R2PathDefaults && R2PathDefaults[KeyName(k)] == DefaultValue(k)
  {
  }

  /** PATH_FMT after `PATH_FMT.update(R2_PATH)` with the default table. */
  lemma HoldsDefaults(env: Registry)
    requires Holds(env, R2PathDefaults)
    ensures DefaultPaths(env)
  {
    forall k: PathKey ensures KeyName(k) in env && env[KeyName(k)] == DefaultValue(k) {
      DefaultOf(k);
    }
  }

  lemma KeyNamePlain(k: PathKey)
    ensures PlainName(KeyName(k))
  {
    assert KeyName(k)[0] == 'R';
  }

  /** With the default values, every key is settled after one pass and names
      its default layout. */
  lemma KeyLayout(env: Registry, k: PathKey)
    requires DefaultPaths(env)
    ensures SettledName(KeyName(k), env)
    ensures Components(Format(env[KeyName(k)], env).value) == DefaultRel(k)
  {
    KeyNamePlain(k);
    var name := KeyName(k);
    assert env[name] == DefaultValue(k);
    if Nested(k) {
      NestedLayout(env, k);
    } else if k.Sdb? {
      KeyNamePlain(DatDir);
      assert env[KeyName(DatDir)] == "share";
      assert env[name] == "{" + KeyName(DatDir) + "}";
      AliasKey(env, name, KeyName(DatDir));
    } else {
      assert IsName(DefaultValue(k)) && NoBraces(DefaultValue(k));
      PlainKey(env, name);
    }
  }

  lemma NestedLayout(env: Registry, k: PathKey)
    requires DefaultPaths(env) && Nested(k) && PlainName(KeyName(k))
    ensures SettledName(KeyName(k), env)
    ensures Components(Format(env[KeyName(k)], env).value) == DefaultRel(k)
  {
    var leaf := DataLeaf(k);
    assert IsName(leaf) && NoBraces(leaf);
    assert env[KeyName(DatDir)] == "share";
    NestedKey(env, KeyName(k), leaf);
  }

  /** Every key of the default table is one of the R2_PATH keys. */
  lemma DefaultDomain(s: string)
    requires s in R2PathDefaults
    ensures exists k: PathKey :: KeyName(k) == s
  {
    if s == "R2_LIBDIR" { assert KeyName(LibDir) == s; }
    else if s == "R2_INCDIR" { assert KeyName(IncDir) == s; }
    else if s == "R2_DATDIR" { assert KeyName(DatDir) == s; }
    else if s == "R2_WWWROOT" { assert KeyName(WwwRoot) == s; }
    else if s == "R2_SDB" { assert KeyName(Sdb) == s; }
    else if s == "R2_ZIGNS" { assert KeyName(Zigns) == s; }
    else if s == "R2_THEMES" { assert KeyName(Themes) == s; }
    else if s == "R2_FORTUNES" { assert KeyName(Fortunes) == s; }
    else if s == "R2_FLAGS" { assert KeyName(Flags) == s; }
    else { assert KeyName(Hud) == s; }
  }

  /** Every key is looked up by `str.format` as a keyword. */
  lemma KeysArePlain()
    ensures forall s :: s in R2PathDefaults ==> PlainName(s)
  {
    forall s | s in R2PathDefaults ensures PlainName(s) {
      DefaultDomain(s);
      var k: PathKey :| KeyName(k) == s;
      KeyNamePlain(k);
    }
  }

  lemma DefaultValueLayer(k: PathKey)
    ensures NoBraces(DefaultValue(k))
         || (IsPrefix(DatDirField, DefaultValue(k)) && NoBraces(DefaultValue(k)[|DatDirField|..]))
  {
    if Nested(k) {
      var v := DefaultValue(k);
      assert v[..|DatDirField|] == DatDirField;
      assert v[|DatDirField|..] == "\\" + DataLeaf(k);
      NoBracesConcat("\\", DataLeaf(k));
    }
  }

  /** The default table nests at most one level: every value is brace-free
      or R2_DATDIR followed by a brace-free tail. */
  lemma DefaultsLayered()
    ensures Layered(R2PathDefaults)
  {
    DefaultOf(DatDir);
    forall s | s in R2PathDefaults
      ensures NoBraces(R2PathDefaults[s])
           || (IsPrefix(DatDirField, R2PathDefaults[s]) && NoBraces(R2PathDefaults[s][|DatDirField|..]))
    {
      DefaultDomain(s);
      var k: PathKey :| KeyName(k) == s;
      DefaultOf(k);
      DefaultValueLayer(k);
    }
  }
}
