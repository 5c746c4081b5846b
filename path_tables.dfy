/**
 * The R2_PATH install layout (sys/meson.py:17-28) and what the two-pass
 * resolver makes of the destinations that name it.
 *
 * Every R2_PATH value is a path relative to the distribution root. A value is
 * either free of placeholders or `{R2_DATDIR}` followed by a brace-free tail;
 * this one level of nesting is what the second `format` pass on every
 * destination exists for.
 */
module PathTables {
  import opened Results
  import opened Text
  import opened PathFormat

  /** The table `R2_PATH` starts from. */
  const R2PathDefaults: Registry := map[
    "R2_LIBDIR" := "lib",
    "R2_INCDIR" := "include",
    "R2_DATDIR" := "share",
    "R2_WWWROOT" := "{R2_DATDIR}\\www",
    "R2_SDB" := "{R2_DATDIR}",
    "R2_ZIGNS" := "{R2_DATDIR}\\zigns",
    "R2_THEMES" := "{R2_DATDIR}\\cons",
    "R2_FORTUNES" := "{R2_DATDIR}\\doc",
    "R2_FLAGS" := "{R2_DATDIR}\\flag",
    "R2_HUD" := "{R2_DATDIR}\\hud"
  ]

  /** The data directory placeholder, 11 characters long. */
  const DatDirField: string := "{R2_DATDIR}"

  /** The shape every R2_PATH table keeps: R2_DATDIR is brace-free and every
      value is brace-free or R2_DATDIR followed by a brace-free tail. */
  predicate Layered(t: Registry)
  {
    && "R2_DATDIR" in t
    && NoBraces(t["R2_DATDIR"])
    && forall k :: k in t ==>
         NoBraces(t[k]) || (IsPrefix(DatDirField, t[k]) && NoBraces(t[k][|DatDirField|..]))
  }

  /** The value a table entry stands for once R2_DATDIR is substituted. */
  function Expand(t: Registry, k: string): (v: string)
    requires Layered(t) && k in t
    ensures NoBraces(v)
  {
    if NoBraces(t[k]) then t[k]
    else
      NoBracesConcat(t["R2_DATDIR"], t[k][|DatDirField|..]);
      t["R2_DATDIR"] + t[k][|DatDirField|..]
  }

  lemma ShareLeaf(leaf: string)
    requires IsName(leaf)
    ensures Components("share\\" + leaf) == ["share", leaf]
  {
    assert "share\\" + leaf == "share" + "\\" + leaf;
    ComponentsJoin("share", leaf);
    ComponentsName("share");
    ComponentsName(leaf);
  }

  /** A key whose value is a single brace-free directory name is settled and
      names that directory. */
  lemma PlainKey(env: Registry, key: string)
    requires PlainName(key) && key in env && IsName(env[key]) && NoBraces(env[key])
    ensures SettledName(key, env)
    ensures Components(Format(env[key], env).value) == [env[key]]
  {
    FormatBraceFree(env[key], env);
    ComponentsName(env[key]);
  }

  /** A key whose value is `{TARGET}`, with TARGET a single brace-free
      directory name, is settled and names that directory (R2_SDB is
      `{R2_DATDIR}`). */
  lemma AliasKey(env: Registry, key: string, target: string)
    requires PlainName(key) && key in env && env[key] == "{" + target + "}"
    requires PlainName(target) && target in env && IsName(env[target]) && NoBraces(env[target])
    ensures SettledName(key, env)
    ensures Components(Format(env[key], env).value) == [env[target]]
  {
    FormatField(target, [], env);
    assert env[key] == "{" + target + "}" + [];
    FormatBraceFree([], env);
    assert env[target] + [] == env[target];
    FormatBraceFree(env[target], env);
    ComponentsName(env[target]);
  }

  /** A key whose value is `{R2_DATDIR}\LEAF` is settled and names
      `share\LEAF`. */
  lemma NestedKey(env: Registry, key: string, leaf: string)
    requires PlainName(key) && key in env && env[key] == DatDirField + "\\" + leaf
    requires "R2_DATDIR" in env && env["R2_DATDIR"] == "share"
    requires IsName(leaf) && NoBraces(leaf)
    ensures SettledName(key, env)
    ensures Components(Format(env[key], env).value) == ["share", leaf]
  {
    assert env[key] == DatDirField + ("\\" + leaf);
    FormatDatDir("\\" + leaf, env);
    assert "share" + ("\\" + leaf) == "share\\" + leaf;
    assert NoBraces("share\\" + leaf) by {
      NoBracesConcat("share\\", leaf);
    }
    FormatBraceFree("share\\" + leaf, env);
    ShareLeaf(leaf);
  }

  /** Overriding an entry with a brace-free value keeps the table layered. */
  lemma OverrideKeepsLayered(t: Registry, k: string, v: string)
    requires Layered(t) && NoBraces(v)
    ensures Layered(t[k := v])
  {
  }

  /** `env` holds every entry of `t` (PATH_FMT after `PATH_FMT.update(R2_PATH)`). */
  predicate Holds(env: Registry, t: Registry)
  {
    forall k :: k in t ==> k in env && env[k] == t[k]
  }

  /** One pass over a layered entry yields its expansion, which a further pass
      leaves alone: every entry is settled. */
  lemma LayeredSettles(t: Registry, env: Registry, k: string)
    requires Layered(t) && Holds(env, t) && k in t
    ensures Format(env[k], env) == Ok(Expand(t, k))
    ensures PlainName(k) ==> SettledName(k, env)
  {
    var v := t[k];
    assert env[k] == v;
    if NoBraces(v) {
      FormatBraceFree(v, env);
    } else {
      var tail := v[|DatDirField|..];
      assert v == DatDirField + tail by {
        assert v[..|DatDirField|] == DatDirField;
      }
      assert env["R2_DATDIR"] == t["R2_DATDIR"];
      FormatDatDir(tail, env);
    }
    FormatBraceFree(Expand(t, k), env);
  }

  lemma FormatDatDir(tail: string, env: Registry)
    requires "R2_DATDIR" in env && NoBraces(tail)
    ensures Format(DatDirField + tail, env) == Ok(env["R2_DATDIR"] + tail)
  {
    assert DatDirField + tail == "{" + "R2_DATDIR" + "}" + tail;
    assert "R2_DATDIR"[0] == 'R';
    FormatField("R2_DATDIR", tail, env);
    FormatBraceFree(tail, env);
  }

  // ---------------------------------------------------------------------------
  // Templates of the Windows distribution
  // ---------------------------------------------------------------------------

  /** One pass over a brace-free text. */
  lemma FormatThree(a: string, b: string, c: string, env: Registry)
    requires NoBraces(a) && Format(b, env).Ok? && NoBraces(c)
    ensures Format(a + b + c, env) == Ok(a + Format(b, env).value + c)
  {
    FormatBraceFree(a, env);
    FormatBraceFree(c, env);
    FormatAppend(a, b, env);
    FormatAppend(a + b, c, env);
  }

  /** `{BASE}` followed by a brace-free tail: one pass substitutes the base and
      a second pass changes nothing more. */
  lemma BaseTemplate(base: string, tail: string, env: Registry)
    requires PlainName(base) && base in env && NoBraces(env[base]) && NoBraces(tail)
    ensures Format("{" + base + "}" + tail, env) == Ok(env[base] + tail)
    ensures Resolve("{" + base + "}" + tail, env) == Ok(env[base] + tail)
  {
    FormatBraceFree(tail, env);
    FormatField(base, tail, env);
    NoBracesConcat(env[base], tail);
    FormatBraceFree(env[base] + tail, env);
  }

  /** One pass over a field followed by a brace-free tail. */
  lemma FieldThenText(key: string, tail: string, env: Registry)
    requires PlainName(key) && key in env && NoBraces(tail)
    ensures Format("{" + key + "}" + tail, env) == Ok(env[key] + tail)
  {
    FormatBraceFree(tail, env);
    FormatField(key, tail, env);
  }

  /** One pass over a backslash followed by a text the pass accepts. */
  lemma BackslashThen(inner: string, v: string, env: Registry)
    requires Format(inner, env) == Ok(v)
    ensures Format("\\" + inner, env) == Ok("\\" + v)
  {
    FormatBraceFree("\\", env);
    FormatAppend("\\", inner, env);
  }

  /** The first pass over `{BASE}\{KEY}` followed by a brace-free tail. */
  lemma KeyTemplateOnce(base: string, key: string, tail: string, env: Registry)
    requires PlainName(base) && base in env && PlainName(key) && key in env && NoBraces(tail)
    ensures Format("{" + base + "}\\{" + key + "}" + tail, env) == Ok(env[base] + "\\" + env[key] + tail)
  {
    var inner := "{" + key + "}" + tail;
    var rest := "\\" + inner;
    assert "{" + base + "}\\{" + key + "}" + tail == "{" + base + "}" + rest;
    FieldThenText(key, tail, env);
    BackslashThen(inner, env[key] + tail, env);
    FormatField(base, rest, env);
    assert env[base] + ("\\" + (env[key] + tail)) == env[base] + "\\" + env[key] + tail;
  }

  /** `{BASE}\{KEY}` followed by a brace-free tail, with KEY settled: two
      passes leave the base, a backslash, the fully expanded key, and the tail. */
  lemma KeyTemplate(base: string, key: string, tail: string, env: Registry)
    requires PlainName(base) && base in env && NoBraces(env[base]) && NoBraces(tail)
    requires SettledName(key, env)
    ensures Resolve("{" + base + "}\\{" + key + "}" + tail, env)
         == Ok(env[base] + "\\" + Format(env[key], env).value + tail)
  {
    KeyTemplateOnce(base, key, tail, env);
    NoBracesConcat(env[base], "\\");
    FormatThree(env[base] + "\\", env[key], tail, env);
  }
}
