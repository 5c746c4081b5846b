/**
 * The path-template resolver: Python's `template.format(**PATH_FMT)` with
 * keyword arguments only (sys/meson.py:113-114, 119-120, 127-128, 135).
 *
 * One call of `Format` is one `str.format` pass: `{{` and `}}` stand for a
 * literal brace, `{NAME}` is replaced by the registered value of NAME (which
 * is inserted as it is, braces and all), a lone `}` or an unterminated `{` is
 * a ValueError, a missing name a KeyError. Destinations are resolved by two
 * passes (`Resolve`), so a registered value may itself hold one level of
 * placeholders.
 */
module PathFormat {
  import opened Results
  import opened Text

  /** What `str.format` raises. `Unsupported` stands for the attribute, index,
      conversion and format-spec syntax (`{a.b}`, `{a[0]}`, `{a!r}`, `{a:>8}`),
      which the model does not interpret. */
  datatype FormatError =
    | KeyError(name: string)
    | IndexError
    | ValueError
    | Unsupported(name: string)

  /** The PATH_FMT mapping: placeholder name to path fragment. */
  type Registry = map<string, string>

  predicate NoBraces(s: string)
  {
    NoneOf(s, {'{', '}'})
  }

  predicate AllDigits(s: string)
  {
    forall i :: 0 <= i < |s| ==> '0' <= s[i] <= '9'
  }

  /** A field name that `str.format` looks up as a keyword argument. */
  predicate PlainName(n: string)
  {
    n != [] && NoneOf(n, {'{', '}', ':', '!', '.', '['}) && !AllDigits(n)
  }

  /** Number of characters before the first brace. */
  function FieldLength(s: string): (n: nat)
    ensures n <= |s|
    ensures forall k :: 0 <= k < n ==> s[k] != '{' && s[k] != '}'
    ensures n < |s| ==> s[n] == '{' || s[n] == '}'
  {
    if s == [] || s[0] == '{' || s[0] == '}' then 0 else 1 + FieldLength(s[1..])
  }

  /** Looking up one replacement field: an empty or all-digit name is a
      positional index, and no positional argument is ever passed. */
  function Lookup(name: string, env: Registry): (r: Result<string, FormatError>)
    ensures PlainName(name) ==> (r.Ok? <==> name in env)
    ensures PlainName(name) && name in env ==> r == Ok(env[name])
    ensures PlainName(name) && name !in env ==> r == Err(KeyError(name))
    ensures name == [] ==> r == Err(IndexError)
  {
    if name == [] || AllDigits(name) then Err(IndexError)
    else if !NoneOf(name, {':', '!', '.', '['}) then Err(Unsupported(name))
    else if name in env then Ok(env[name])
    else Err(KeyError(name))
  }

  function Prepend(p: string, r: Result<string, FormatError>): Result<string, FormatError>
  {
    match r
    case Ok(t) => Ok(p + t)
    case Err(e) => Err(e)
  }

  /** One `str.format(**env)` pass over `s`, left to right; the first error met
      is the one raised. */
  function Format(s: string, env: Registry): Result<string, FormatError>
    decreases |s|
  {
    if s == [] then Ok([])
    else if s[0] == '{' && |s| > 1 && s[1] == '{' then Prepend("{", Format(s[2..], env))
    else if s[0] == '}' && |s| > 1 && s[1] == '}' then Prepend("}", Format(s[2..], env))
    else if s[0] == '}' then Err(ValueError)
    else if s[0] == '{' then
      var n := FieldLength(s[1..]);
      if 1 + n == |s| || s[1 + n] == '{' then Err(ValueError)
      else
        match Lookup(s[1..1 + n], env)
        case Err(e) => Err(e)
        case Ok(v) => Prepend(v, Format(s[n + 2..], env))
    else Prepend([s[0]], Format(s[1..], env))
  }

  /** The two passes `dst.format(**PATH_FMT).format(**PATH_FMT)` applied to
      every destination. */
  function Resolve(s: string, env: Registry): Result<string, FormatError>
  {
    match Format(s, env)
    case Err(e) => Err(e)
    case Ok(once) => Format(once, env)
  }

  // ---------------------------------------------------------------------------
  // Basic facts about one pass
  // ---------------------------------------------------------------------------

  lemma PrependPrepend(p: string, q: string, r: Result<string, FormatError>)
    ensures Prepend(p, Prepend(q, r)) == Prepend(p + q, r)
  {
    if r.Ok? {
      assert p + (q + r.value) == (p + q) + r.value;
    }
  }

  /** A string with no braces is its own resolution: formatting an already
      resolved path returns it unchanged. */
  lemma {:induction false} FormatBraceFree(s: string, env: Registry)
    requires NoBraces(s)
    ensures Format(s, env) == Ok(s)
    decreases |s|
  {
    if s != [] {
      FormatBraceFree(s[1..], env);
      assert s == [s[0]] + s[1..];
    }
  }

  lemma FieldLengthAppend(x: string, y: string)
    requires FieldLength(x) < |x|
    ensures FieldLength(x + y) == FieldLength(x)
  {
    if x[0] != '{' && x[0] != '}' {
      assert (x + y)[1..] == x[1..] + y;
      FieldLengthAppend(x[1..], y);
    }
  }

  lemma FieldLengthSkip(x: string, y: string)
    requires forall k :: 0 <= k < |x| ==> x[k] != '{' && x[k] != '}'
    ensures FieldLength(x + y) == |x| + FieldLength(y)
  {
    if x == [] {
      assert x + y == y;
    } else {
      assert (x + y)[1..] == x[1..] + y;
      FieldLengthSkip(x[1..], y);
    }
  }

  /** A pass that succeeds on `a` reads `a` as complete tokens, so whatever
      follows is formatted on its own. */
  lemma {:induction false} FormatAppend(a: string, b: string, env: Registry)
    requires Format(a, env).Ok?
    ensures Format(a + b, env) == Prepend(Format(a, env).value, Format(b, env))
    decreases |a|, 1
  {
    var s := a + b;
    if a == [] {
      assert s == b;
      if Format(b, env).Ok? {
        assert [] + Format(b, env).value == Format(b, env).value;
      }
    } else if a[0] == '{' && |a| > 1 && a[1] == '{' {
      assert s[0] == '{' && |s| > 1 && s[1] == '{';
      assert s[2..] == a[2..] + b;
      FormatAppend(a[2..], b, env);
      PrependPrepend("{", Format(a[2..], env).value, Format(b, env));
    } else if a[0] == '}' && |a| > 1 && a[1] == '}' {
      assert s[0] == '}' && |s| > 1 && s[1] == '}';
      assert s[2..] == a[2..] + b;
      FormatAppend(a[2..], b, env);
      PrependPrepend("}", Format(a[2..], env).value, Format(b, env));
    } else if a[0] == '{' {
      FormatAppendField(a, b, env);
    } else {
      assert s[0] == a[0] && s[0] != '{' && s[0] != '}';
      assert s[1..] == a[1..] + b;
      FormatAppend(a[1..], b, env);
      PrependPrepend([a[0]], Format(a[1..], env).value, Format(b, env));
    }
  }

  /** The unfolding of one pass at a replacement field `{...}`. */
  lemma FormatAtField(s: string, n: nat, env: Registry)
    requires s != [] && s[0] == '{' && !(|s| > 1 && s[1] == '{')
    requires n == FieldLength(s[1..]) && 1 + n < |s| && s[1 + n] == '}'
    ensures Lookup(s[1..1 + n], env).Err? ==> Format(s, env) == Err(Lookup(s[1..1 + n], env).error)
    ensures Lookup(s[1..1 + n], env).Ok? ==>
      Format(s, env) == Prepend(Lookup(s[1..1 + n], env).value, Format(s[n + 2..], env))
  {
  }

  lemma FieldOfAppend(a: string, b: string, n: nat)
    requires a != [] && a[0] == '{' && !(|a| > 1 && a[1] == '{')
    requires n == FieldLength(a[1..]) && 1 + n < |a| && a[1 + n] == '}'
    ensures var s := a + b;
      && s != [] && s[0] == '{' && !(|s| > 1 && s[1] == '{')
      && n == FieldLength(s[1..]) && 1 + n < |s| && s[1 + n] == '}'
      && s[1..1 + n] == a[1..1 + n] && s[n + 2..] == a[n + 2..] + b
  {
    var s := a + b;
    assert s[1..] == a[1..] + b;
    FieldLengthAppend(a[1..], b);
  }

  lemma {:induction false} FormatAppendField(a: string, b: string, env: Registry)
    requires Format(a, env).Ok? && a != [] && a[0] == '{' && !(|a| > 1 && a[1] == '{')
    ensures Format(a + b, env) == Prepend(Format(a, env).value, Format(b, env))
    decreases |a|, 0
  {
    var n := FieldLength(a[1..]);
    assert 1 + n < |a| && a[1 + n] == '}';
    FieldOfAppend(a, b, n);
    FormatAtField(a, n, env);
    FormatAtField(a + b, n, env);
    var look := Lookup(a[1..1 + n], env);
    FormatAppend(a[n + 2..], b, env);
    PrependPrepend(look.value, Format(a[n + 2..], env).value, Format(b, env));
  }

  lemma FieldText(name: string, rest: string)
    requires PlainName(name)
    ensures var s := "{" + name + "}" + rest;
      && s != [] && s[0] == '{' && !(|s| > 1 && s[1] == '{')
      && |name| == FieldLength(s[1..]) && 1 + |name| < |s| && s[1 + |name|] == '}'
      && s[1..1 + |name|] == name && s[|name| + 2..] == rest
  {
    var s := "{" + name + "}" + rest;
    assert s[1..] == name + ("}" + rest);
    FieldLengthSkip(name, "}" + rest);
  }

  /** A field `{name}` at the head of `s`, with `rest` after it. */
  lemma FormatNamedField(s: string, name: string, rest: string, env: Registry)
    requires PlainName(name)
    requires s != [] && s[0] == '{' && !(|s| > 1 && s[1] == '{')
    requires |name| == FieldLength(s[1..]) && 1 + |name| < |s| && s[1 + |name|] == '}'
    requires s[1..1 + |name|] == name && s[|name| + 2..] == rest
    ensures name in env ==> Format(s, env) == Prepend(env[name], Format(rest, env))
    ensures name !in env ==> Format(s, env) == Err(KeyError(name))
  {
    FormatAtField(s, |name|, env);
  }

  /** One replacement field followed by the rest of the template. */
  lemma FormatField(name: string, rest: string, env: Registry)
    requires PlainName(name)
    ensures name in env ==> Format("{" + name + "}" + rest, env) == Prepend(env[name], Format(rest, env))
    ensures name !in env ==> Format("{" + name + "}" + rest, env) == Err(KeyError(name))
  {
    FieldText(name, rest);
    FormatNamedField("{" + name + "}" + rest, name, rest, env);
  }

  // ---------------------------------------------------------------------------
  // The parsed view of a template, and the round trip to its text
  // ---------------------------------------------------------------------------

  /** A template as literal characters and replacement fields. */
  datatype Piece = Char(c: char) | Field(name: string)

  /** The template text of one piece: literal braces are doubled. */
  function UnparsePiece(p: Piece): string
  {
    match p
    case Char(c) => if c == '{' then "{{" else if c == '}' then "}}" else [c]
    case Field(n) => "{" + n + "}"
  }

  function Unparse(ps: seq<Piece>): string
  {
    if ps == [] then [] else UnparsePiece(ps[0]) + Unparse(ps[1..])
  }

  /** What a template means: every field replaced by its value, left to
      right, failing on the first field the registry cannot supply. */
  function Render(ps: seq<Piece>, env: Registry): Result<string, FormatError>
  {
    if ps == [] then Ok([])
    else match ps[0]
      case Char(c) => Prepend([c], Render(ps[1..], env))
      case Field(n) =>
        match Lookup(n, env)
        case Err(e) => Err(e)
        case Ok(v) => Prepend(v, Render(ps[1..], env))
  }

  predicate PlainFields(ps: seq<Piece>)
  {
    forall i :: 0 <= i < |ps| && ps[i].Field? ==> PlainName(ps[i].name)
  }

  /** Formatting the text of a template renders it. */
  lemma {:induction false} FormatUnparse(ps: seq<Piece>, env: Registry)
    requires PlainFields(ps)
    ensures Format(Unparse(ps), env) == Render(ps, env)
    decreases |ps|
  {
    if ps != [] {
      assert PlainFields(ps[1..]) by {
        forall i | 0 <= i < |ps[1..]| && ps[1..][i].Field? ensures PlainName(ps[1..][i].name) {
          assert ps[1..][i] == ps[i + 1];
        }
      }
      FormatUnparse(ps[1..], env);
      var rest := Unparse(ps[1..]);
      var s := Unparse(ps);
      match ps[0]
      case Char(c) =>
        if c == '{' || c == '}' {
          assert s == [c, c] + rest;
          assert s[2..] == rest;
        } else {
          assert s == [c] + rest;
          assert s[1..] == rest;
        }
      case Field(n) =>
        assert PlainName(n);
        FormatField(n, rest, env);
    }
  }

  /** A template renders exactly when the registry supplies every field, and
      then each field's value appears in place. */
  lemma {:induction false} RenderOkIff(ps: seq<Piece>, env: Registry)
    requires PlainFields(ps)
    ensures Render(ps, env).Ok? <==> forall i :: 0 <= i < |ps| && ps[i].Field? ==> ps[i].name in env
    decreases |ps|
  {
    if ps != [] {
      assert PlainFields(ps[1..]) by {
        forall i | 0 <= i < |ps[1..]| && ps[1..][i].Field? ensures PlainName(ps[1..][i].name) {
          assert ps[1..][i] == ps[i + 1];
        }
      }
      RenderOkIff(ps[1..], env);
      assert forall i :: 1 <= i < |ps| ==> ps[i] == ps[1..][i - 1];
    }
  }

  // ---------------------------------------------------------------------------
  // Two passes resolve one level of nesting
  // ---------------------------------------------------------------------------

  /** `name` is registered and one more pass resolves its value completely. */
  predicate SettledName(name: string, env: Registry)
  {
    && PlainName(name)
    && name in env
    && Format(env[name], env).Ok?
    && NoBraces(Format(env[name], env).value)
  }

  /** The template has no literal braces and every field it names is settled
      by one further pass. */
  predicate SettledPiece(p: Piece, env: Registry)
  {
    match p
    case Char(c) => c != '{' && c != '}'
    case Field(n) => SettledName(n, env)
  }

  predicate OneLevel(ps: seq<Piece>, env: Registry)
  {
    forall i :: 0 <= i < |ps| ==> SettledPiece(ps[i], env)
  }

  lemma NoBracesConcat(u: string, w: string)
    requires NoBraces(u) && NoBraces(w)
    ensures NoBraces(u + w)
  {
    forall i | 0 <= i < |u + w| ensures (u + w)[i] !in {'{', '}'} {
      if i >= |u| { assert (u + w)[i] == w[i - |u|]; }
    }
  }

  lemma {:induction false} SecondPassSettles(ps: seq<Piece>, env: Registry)
    requires OneLevel(ps, env)
    ensures Render(ps, env).Ok?
    ensures Format(Render(ps, env).value, env).Ok?
    ensures NoBraces(Format(Render(ps, env).value, env).value)
    decreases |ps|
  {
    if ps != [] {
      assert OneLevel(ps[1..], env) by {
        forall i | 0 <= i < |ps[1..]| ensures SettledPiece(ps[1..][i], env) {
          assert ps[1..][i] == ps[i + 1];
        }
      }
      SecondPassSettles(ps[1..], env);
      var r := Render(ps[1..], env).value;
      var w := Format(r, env).value;
      assert SettledPiece(ps[0], env);
      match ps[0]
      case Char(c) =>
        assert ([c] + r)[1..] == r;
        assert Format([c] + r, env) == Ok([c] + w);
        NoBracesConcat([c], w);
      case Field(n) =>
        var v := env[n];
        var u := Format(v, env).value;
        FormatAppend(v, r, env);
        assert Format(v + r, env) == Ok(u + w);
        NoBracesConcat(u, w);
    }
  }

  /** Two passes over a template whose fields nest at most one level remove
      every placeholder, and a third pass changes nothing. */
  lemma TwoPassesResolve(ps: seq<Piece>, env: Registry)
    requires OneLevel(ps, env)
    ensures Resolve(Unparse(ps), env).Ok?
    ensures NoBraces(Resolve(Unparse(ps), env).value)
    ensures Format(Resolve(Unparse(ps), env).value, env) == Resolve(Unparse(ps), env)
  {
    assert PlainFields(ps) by {
      forall i | 0 <= i < |ps| && ps[i].Field? ensures PlainName(ps[i].name) {
        assert SettledPiece(ps[i], env);
      }
    }
    FormatUnparse(ps, env);
    SecondPassSettles(ps, env);
    FormatBraceFree(Resolve(Unparse(ps), env).value, env);
  }

  /** Resolving a template that starts with a field whose value is free of
      braces: the value comes first, the rest is resolved on its own. */
  lemma ResolveAfterField(name: string, rest: string, env: Registry)
    requires PlainName(name) && name in env && NoBraces(env[name])
    requires Format(rest, env).Ok?
    ensures Resolve("{" + name + "}" + rest, env) == Prepend(env[name], Resolve(rest, env))
  {
    FormatField(name, rest, env);
    var once := Format(rest, env).value;
    FormatBraceFree(env[name], env);
    FormatAppend(env[name], once, env);
  }
}
