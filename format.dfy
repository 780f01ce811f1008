/**
 * Python's `str.format` with keyword arguments only. A format string is a
 * template of literal text and named holes `{name}`; `{{` and `}}` stand for
 * single braces. A hole whose name is not bound, and a brace that is not part
 * of a hole or an escape, are errors. `Format` scans the string from left to
 * right and stops at the first error, as Python does; `Parse` and `Fill`
 * split the same work into building the template and filling it.
 */
module PyFormat {
  import opened Wrappers
  import opened Strings

  datatype Fragment = Lit(text: string) | Hole(name: string)

  type Template = seq<Fragment>

  datatype FormatError =
    | BadFormatString             // a `{` or `}` that is neither an escape nor part of a hole
    | MissingField(name: string)  // `KeyError`: the hole's name is not among the arguments

  type Env = map<string, string>

  predicate BraceFree(s: string) {
    '{' !in s && '}' !in s
  }

  /** Length of the longest prefix of `s` without a brace: the name of a hole. */
  function NameLength(s: string): (n: nat)
    ensures n <= |s|
    ensures BraceFree(s[..n])
    ensures n < |s| ==> s[n] == '{' || s[n] == '}'
    decreases |s|
  {
    if s == [] || s[0] == '{' || s[0] == '}' then 0
    else
      var m := NameLength(s[1..]);
      assert s[..1 + m] == [s[0]] + s[1..][..m];
      1 + m
  }

  /** One character of literal text as written: a brace is doubled. */
  function EscapeChar(c: char): string {
    if c == '{' || c == '}' then [c, c] else [c]
  }

  /** A literal text written with its braces doubled. */
  function Escape(x: string): (e: string)
    ensures BraceFree(x) ==> e == x
    decreases |x|
  {
    if x == [] then ""
    else EscapeChar(x[0]) + Escape(x[1..])
  }

  /** How a fragment is written in a format string. */
  function Piece(f: Fragment): string {
    match f
    case Lit(x) => Escape(x)
    case Hole(n) => "{" + n + "}"
  }

  /**
   * The first fragment of a non-empty format string and the number of
   * characters it takes: an escaped brace, a hole, or one plain character.
   */
  function Scan(s: string): (r: Result<(Fragment, nat), FormatError>)
    requires s != []
    ensures r.Ok? ==> 0 < r.value.1 <= |s| && s[..r.value.1] == Piece(r.value.0)
    ensures r.Ok? && r.value.0.Hole? ==> BraceFree(r.value.0.name)
  {
    if s[0] == '{' && |s| >= 2 && s[1] == '{' then
      assert Escape("{") == "{{";
      assert s[..2] == "{{";
      Ok((Lit("{"), 2))
    else if s[0] == '{' then
      var n := NameLength(s[1..]);
      if 1 + n < |s| && s[1 + n] == '}' then
        assert s[1..][..n] == s[1..1 + n];
        assert s[..n + 2] == "{" + s[1..1 + n] + "}";
        Ok((Hole(s[1..1 + n]), n + 2))
      else Err(BadFormatString)
    else if s[0] == '}' then
      if |s| >= 2 && s[1] == '}' then
        assert Escape("}") == "}}";
        assert s[..2] == "}}";
        Ok((Lit("}"), 2))
      else Err(BadFormatString)
    else
      assert Escape([s[0]]) == [s[0]];
      Ok((Lit([s[0]]), 1))
  }

  /** The text one fragment contributes, or the missing name. */
  function FragValue(f: Fragment, env: Env): (r: Result<string, FormatError>)
    ensures r.Ok? <==> (f.Hole? ==> f.name in env)
    ensures r.Ok? ==> r.value == if f.Lit? then f.text else env[f.name]
    ensures r.Err? ==> r == Err(MissingField(f.name))
  {
    match f
    case Lit(x) => Ok(x)
    case Hole(n) => if n in env then Ok(env[n]) else Err(MissingField(n))
  }

  /** The first error of two results, or their concatenation. */
  function Concat(r1: Result<string, FormatError>, r2: Result<string, FormatError>): (p: Result<string, FormatError>)
    ensures p.Ok? <==> r1.Ok? && r2.Ok?
    ensures r1.Err? ==> p == r1
    ensures r1.Ok? && r2.Err? ==> p == r2
    ensures p.Ok? ==> p.value == r1.value + r2.value
  {
    if r1.Err? then r1
    else if r2.Err? then r2
    else Ok(r1.value + r2.value)
  }

  /** `s.format(**env)`. */
  function Format(s: string, env: Env): Result<string, FormatError>
    decreases |s|
  {
    if s == [] then Ok("")
    else
      var step := Scan(s);
      if step.Err? then Err(step.error)
      else Concat(FragValue(step.value.0, env), Format(s[step.value.1..], env))
  }

  /** The template a format string denotes, one fragment per escape, character or hole. */
  function Parse(s: string): Result<Template, FormatError>
    decreases |s|
  {
    if s == [] then Ok([])
    else
      var step := Scan(s);
      if step.Err? then Err(step.error)
      else
        var rest := Parse(s[step.value.1..]);
        if rest.Err? then rest else Ok([step.value.0] + rest.value)
  }

  /** Every hole of `t` has a name bound in `env`. */
  predicate Bound(t: Template, env: Env) {
    forall i :: 0 <= i < |t| && t[i].Hole? ==> t[i].name in env
  }

  /** Fills the holes of a template from `env`; the leftmost unbound hole is the error. */
  function Fill(t: Template, env: Env): (r: Result<string, FormatError>)
    ensures r.Ok? <==> Bound(t, env)
    ensures r.Err? ==> exists i :: (0 <= i < |t| && t[i].Hole? && t[i].name !in env && r == Err(MissingField(t[i].name))
                                    && forall j :: 0 <= j < i && t[j].Hole? ==> t[j].name in env)
    decreases |t|
  {
    if t == [] then Ok("")
    else
      assert forall i :: 1 <= i < |t| ==> t[i] == t[1..][i - 1];
      Concat(FragValue(t[0], env), Fill(t[1..], env))
  }

  /** The format string a template is written as. */
  function Unparse(t: Template): string
    decreases |t|
  {
    if t == [] then "" else Piece(t[0]) + Unparse(t[1..])
  }

  /** Every hole name of `t` is free of braces, so that it can be written down. */
  predicate WellNamed(t: Template) {
    forall i :: 0 <= i < |t| && t[i].Hole? ==> BraceFree(t[i].name)
  }

  /** Every literal of `t` is free of braces, so that filling it adds no escapes. */
  predicate PlainLiterals(t: Template) {
    forall i :: 0 <= i < |t| && t[i].Lit? ==> BraceFree(t[i].text)
  }

  lemma ConcatAssoc(r1: Result<string, FormatError>, r2: Result<string, FormatError>, r3: Result<string, FormatError>)
    ensures Concat(Concat(r1, r2), r3) == Concat(r1, Concat(r2, r3))
  {
    if r1.Ok? && r2.Ok? && r3.Ok? {
      assert (r1.value + r2.value) + r3.value == r1.value + (r2.value + r3.value);
    }
  }

  lemma ConcatEmpty(r: Result<string, FormatError>)
    ensures Concat(Ok(""), r) == r
  {
    if r.Ok? {
      assert "" + r.value == r.value;
    }
  }

  /**
   * Formatting a string is filling the template it parses to; a string that
   * does not parse cannot be formatted.
   */
  lemma {:induction false} FormatIsFill(s: string, env: Env)
    ensures Parse(s).Ok? ==> Format(s, env) == Fill(Parse(s).value, env)
    ensures Parse(s).Err? ==> Format(s, env).Err?
    decreases |s|
  {
    if s != [] && Scan(s).Ok? {
      var k := Scan(s).value.1;
      FormatIsFill(s[k..], env);
      if Parse(s).Ok? {
        assert Parse(s).value[1..] == Parse(s[k..]).value;
      }
    }
  }

  /** Parsing loses nothing: writing the parsed template down gives back the string. */
  lemma {:induction false} UnparseParse(s: string)
    requires Parse(s).Ok?
    ensures Unparse(Parse(s).value) == s
    decreases |s|
  {
    if s != [] {
      var (f, k) := Scan(s).value;
      var rest := Parse(s[k..]).value;
      assert Parse(s).value == [f] + rest;
      UnparseParse(s[k..]);
      UnparseCons(f, rest);
      assert s[..k] + s[k..] == s;
    }
  }

  lemma UnparseCons(f: Fragment, rest: Template)
    ensures Unparse([f] + rest) == Piece(f) + Unparse(rest)
  {
    assert ([f] + rest)[0] == f && ([f] + rest)[1..] == rest;
  }

  /** The holes of a parsed template have brace-free names. */
  lemma {:induction false} ParseWellNamed(s: string)
    requires Parse(s).Ok?
    ensures WellNamed(Parse(s).value)
    decreases |s|
  {
    if s != [] {
      var t := Parse(s).value;
      var k := Scan(s).value.1;
      ParseWellNamed(s[k..]);
      assert t[1..] == Parse(s[k..]).value;
      assert forall i :: 1 <= i < |t| ==> t[i] == t[1..][i - 1];
    }
  }

  /** A name that ends inside `x` ends at the same place in `x + y`. */
  lemma NameLengthExtend(x: string, y: string)
    requires NameLength(x) < |x|
    ensures NameLength(x + y) == NameLength(x)
  {
    var n := NameLength(x);
    assert (x + y)[n] == x[n];
    assert (x + y)[..n] == x[..n];
  }

  /** Scanning stops inside the first fragment, so what follows it does not matter. */
  lemma ScanExtend(a: string, b: string)
    requires a != [] && Scan(a).Ok?
    ensures Scan(a + b) == Scan(a)
  {
    var s := a + b;
    assert s[0] == a[0];
    if |a| >= 2 {
      assert s[1] == a[1];
    }
    if a[0] == '{' && !(|a| >= 2 && a[1] == '{') {
      var n := NameLength(a[1..]);
      assert s[1..] == a[1..] + b;
      NameLengthExtend(a[1..], b);
      assert s[1 + n] == a[1 + n];
      assert s[1..1 + n] == a[1..1 + n];
    }
  }

  /**
   * Formatting a concatenation whose first part parses is formatting the parts
   * one after the other; so the first part's error, if any, is reported.
   */
  lemma {:induction false} FormatAppend(a: string, b: string, env: Env)
    requires Parse(a).Ok?
    ensures Format(a + b, env) == Concat(Format(a, env), Format(b, env))
    ensures Parse(a + b).Ok? <==> Parse(b).Ok?
    decreases |a|
  {
    if a == [] {
      assert a + b == b;
      ConcatEmpty(Format(b, env));
    } else {
      var k := Scan(a).value.1;
      FormatAppend(a[k..], b, env);
      FormatAppendStep(a, b, env);
    }
  }

  /** The inductive step of `FormatAppend`, from the claim for what follows the first fragment. */
  lemma FormatAppendStep(a: string, b: string, env: Env)
    requires a != [] && Parse(a).Ok?
    requires var k := Scan(a).value.1;
      && Format(a[k..] + b, env) == Concat(Format(a[k..], env), Format(b, env))
      && (Parse(a[k..] + b).Ok? <==> Parse(b).Ok?)
    ensures Format(a + b, env) == Concat(Format(a, env), Format(b, env))
    ensures Parse(a + b).Ok? <==> Parse(b).Ok?
  {
    var (f, k) := Scan(a).value;
    ScanExtend(a, b);
    assert (a + b)[k..] == a[k..] + b;
    FormatStep(a, env);
    FormatStep(a + b, env);
    ConcatAssoc(FragValue(f, env), Format(a[k..], env), Format(b, env));
  }

  /** One step of scanning: the first fragment's value, then the rest. */
  lemma FormatStep(s: string, env: Env)
    requires s != [] && Scan(s).Ok?
    ensures Format(s, env) == Concat(FragValue(Scan(s).value.0, env), Format(s[Scan(s).value.1..], env))
    ensures Parse(s).Ok? <==> Parse(s[Scan(s).value.1..]).Ok?
  {
  }

  /** A brace-free prefix is copied verbatim. */
  lemma {:induction false} FormatPlainPrefix(x: string, rest: string, env: Env)
    requires BraceFree(x)
    ensures Format(x + rest, env) == Concat(Ok(x), Format(rest, env))
    ensures Parse(x + rest).Ok? <==> Parse(rest).Ok?
    decreases |x|
  {
    if x == [] {
      assert x + rest == rest;
      ConcatEmpty(Format(rest, env));
    } else {
      assert x[0] in x;
      assert EscapeChar(x[0]) + (x[1..] + rest) == x + rest;
      FormatEscapedChar(x[0], x[1..] + rest, env);
      FormatPlainPrefix(x[1..], rest, env);
      ConcatAssoc(Ok([x[0]]), Ok(x[1..]), Format(rest, env));
      assert [x[0]] + x[1..] == x;
    }
  }

  /** A brace-free string formats to itself and parses. */
  lemma FormatPlain(x: string, env: Env)
    requires BraceFree(x)
    ensures Format(x, env) == Ok(x) && Parse(x).Ok?
  {
    FormatPlainPrefix(x, "", env);
    assert x + "" == x;
  }

  /** An escaped literal in front formats to the literal. */
  lemma {:induction false} FormatEscapePrefix(x: string, rest: string, env: Env)
    ensures Format(Escape(x) + rest, env) == Concat(Ok(x), Format(rest, env))
    ensures Parse(Escape(x) + rest).Ok? <==> Parse(rest).Ok?
    decreases |x|
  {
    if x == [] {
      assert Escape(x) + rest == rest;
      ConcatEmpty(Format(rest, env));
    } else {
      var head := EscapeChar(x[0]);
      var t := Escape(x[1..]) + rest;
      assert Escape(x) + rest == head + t;
      FormatEscapedChar(x[0], t, env);
      FormatEscapePrefix(x[1..], rest, env);
      ConcatAssoc(Ok([x[0]]), Ok(x[1..]), Format(rest, env));
      assert [x[0]] + x[1..] == x;
      assert Concat(Ok([x[0]]), Ok(x[1..])) == Ok(x);
    }
  }

  /** One character written with its brace doubled is read back as that character. */
  lemma FormatEscapedChar(c: char, t: string, env: Env)
    ensures var s := EscapeChar(c) + t;
      Format(s, env) == Concat(Ok([c]), Format(t, env)) && (Parse(s).Ok? <==> Parse(t).Ok?)
  {
    var head := EscapeChar(c);
    var s := head + t;
    assert s[0] == c;
    if c == '{' || c == '}' {
      assert s[1] == c;
    }
    assert Scan(s) == Ok((Lit([c]), |head|));
    assert s[|head|..] == t;
  }

  /** A hole `{n}` in front is looked up in the arguments. */
  lemma FormatHolePrefix(n: string, rest: string, env: Env)
    requires BraceFree(n)
    ensures Format("{" + n + "}" + rest, env) == Concat(FragValue(Hole(n), env), Format(rest, env))
    ensures Parse("{" + n + "}" + rest).Ok? <==> Parse(rest).Ok?
  {
    var s := "{" + n + "}" + rest;
    assert s[1..] == n + "}" + rest;
    var m := NameLength(s[1..]);
    assert s[1..][|n|] == '}';
    assert s[1..][..|n|] == n;
    assert m == |n|;
    assert s[1..1 + |n|] == n;
    assert s[|n| + 2..] == rest;
    if n == [] {
      assert s[1] == '}';
    } else {
      assert s[1] == n[0];
      assert n[0] in n;
    }
  }

  /** A hole followed by brace-free text formats to the hole's value and that text. */
  lemma FormatHoleThenPlain(n: string, post: string, env: Env)
    requires BraceFree(n) && BraceFree(post) && n in env
    ensures Format("{" + n + "}" + post, env) == Ok(env[n] + post)
    ensures Parse("{" + n + "}" + post).Ok?
  {
    FormatHolePrefix(n, post, env);
    FormatPlain(post, env);
  }

  /** A string with one hole between brace-free text formats to the text around the hole's value. */
  lemma FormatOneHole(pre: string, n: string, post: string, env: Env)
    requires BraceFree(pre) && BraceFree(n) && BraceFree(post) && n in env
    ensures Format(pre + ("{" + n + "}" + post), env) == Ok(pre + env[n] + post)
    ensures Parse(pre + ("{" + n + "}" + post)).Ok?
  {
    var h, v := "{" + n + "}" + post, env[n] + post;
    FormatPlainPrefix(pre, h, env);
    FormatHoleThenPlain(n, post, env);
    ConcatOk(pre, v);
    Assoc3(pre, env[n], post);
  }

  lemma ConcatOk(a: string, b: string)
    ensures Concat(Ok(a), Ok(b)) == Ok(a + b)
  {
  }

  lemma Assoc3(a: string, b: string, c: string)
    ensures a + (b + c) == a + b + c
  {
  }

  /** `FormatOneHole` for a string `p` known to have that shape, with `q` the expected result. */
  lemma FormatAround(p: string, q: string, pre: string, n: string, post: string, env: Env)
    requires BraceFree(pre) && BraceFree(n) && BraceFree(post) && n in env
    requires p == pre + ("{" + n + "}" + post) && q == pre + env[n] + post
    ensures Format(p, env) == Ok(q) && Parse(p).Ok?
  {
    FormatOneHole(pre, n, post, env);
  }

  /** A hole at the very end: the text before it, then the hole's value. */
  lemma FormatEndHole(p: string, q: string, pre: string, n: string, env: Env)
    requires BraceFree(pre) && BraceFree(n) && n in env
    requires p == pre + ("{" + n + "}") && q == pre + env[n]
    ensures Format(p, env) == Ok(q) && Parse(p).Ok?
  {
    assert p == pre + ("{" + n + "}" + "");
    assert q == pre + env[n] + "";
    FormatAround(p, q, pre, n, "", env);
  }

  /** Writing a template down and formatting the result is the same as filling it. */
  lemma {:induction false} FormatUnparse(t: Template, env: Env)
    requires WellNamed(t)
    ensures Format(Unparse(t), env) == Fill(t, env)
    ensures Parse(Unparse(t)).Ok?
    decreases |t|
  {
    if t != [] {
      assert WellNamed(t[1..]) by {
        assert forall i :: 1 <= i < |t| ==> t[i] == t[1..][i - 1];
      }
      FormatUnparse(t[1..], env);
      match t[0]
      case Lit(x) =>
        FormatEscapePrefix(x, Unparse(t[1..]), env);
      case Hole(n) =>
        assert t[0].Hole? && BraceFree(t[0].name);
        FormatHolePrefix(n, Unparse(t[1..]), env);
    }
  }

  /** Formats every string of a sequence; the first error wins. */
  function FormatAll(parts: seq<string>, env: Env): (r: Result<seq<string>, FormatError>)
    ensures r.Ok? <==> forall i :: 0 <= i < |parts| ==> Format(parts[i], env).Ok?
    ensures r.Ok? ==> |r.value| == |parts|
    ensures r.Ok? ==> forall i :: 0 <= i < |parts| ==> Format(parts[i], env) == Ok(r.value[i])
    decreases |parts|
  {
    if parts == [] then Ok([])
    else
      var head := Format(parts[0], env);
      var rest := FormatAll(parts[1..], env);
      if head.Err? then Err(head.error)
      else if rest.Err? then
        assert forall i :: 1 <= i < |parts| ==> parts[i] == parts[1..][i - 1];
        Err(rest.error)
      else
        var r := [head.value] + rest.value;
        assert forall i :: 1 <= i < |parts| ==> parts[i] == parts[1..][i - 1] && r[i] == rest.value[i - 1];
        Ok(r)
  }

  /**
   * A second `format` of a joined header formats each part on its own, when
   * every part parses and the separator has no brace.
   */
  lemma {:induction false} FormatJoin(sep: string, parts: seq<string>, env: Env)
    requires BraceFree(sep)
    requires forall i :: 0 <= i < |parts| ==> Parse(parts[i]).Ok?
    ensures Parse(Join(sep, parts)).Ok?
    ensures FormatAll(parts, env).Ok? ==> Format(Join(sep, parts), env) == Ok(Join(sep, FormatAll(parts, env).value))
    ensures FormatAll(parts, env).Err? ==> Format(Join(sep, parts), env) == Err(FormatAll(parts, env).error)
    decreases |parts|
  {
    if |parts| > 1 {
      var rest := parts[1..];
      assert forall i :: 0 <= i < |rest| ==> rest[i] == parts[i + 1];
      FormatJoin(sep, rest, env);
      JoinStep(sep, parts, env);
    }
  }

  /** The step of `FormatJoin`: one part in front of the formatted rest. */
  lemma JoinStep(sep: string, parts: seq<string>, env: Env)
    requires |parts| > 1 && BraceFree(sep) && Parse(parts[0]).Ok?
    requires Parse(Join(sep, parts[1..])).Ok?
    requires FormatAll(parts[1..], env).Ok? ==> Format(Join(sep, parts[1..]), env) == Ok(Join(sep, FormatAll(parts[1..], env).value))
    requires FormatAll(parts[1..], env).Err? ==> Format(Join(sep, parts[1..]), env) == Err(FormatAll(parts[1..], env).error)
    ensures Parse(Join(sep, parts)).Ok?
    ensures FormatAll(parts, env).Ok? ==> Format(Join(sep, parts), env) == Ok(Join(sep, FormatAll(parts, env).value))
    ensures FormatAll(parts, env).Err? ==> Format(Join(sep, parts), env) == Err(FormatAll(parts, env).error)
  {
    var tail := Join(sep, parts[1..]);
    assert Join(sep, parts) == parts[0] + (sep + tail);
    FormatPlainPrefix(sep, tail, env);
    FormatAppend(parts[0], sep + tail, env);
    JoinResults(sep, Format(parts[0], env), FormatAll(parts[1..], env), Format(tail, env));
  }

  /** Result algebra behind `JoinStep`. */
  lemma JoinResults(sep: string, head: Result<string, FormatError>, rest: Result<seq<string>, FormatError>,
                    tail: Result<string, FormatError>)
    requires rest.Ok? ==> rest.value != [] && tail == Ok(Join(sep, rest.value))
    requires rest.Err? ==> tail == Err(rest.error)
    ensures var all := if head.Err? then Err(head.error) else if rest.Err? then Err(rest.error) else Ok([head.value] + rest.value);
      && (all.Ok? ==> Concat(head, Concat(Ok(sep), tail)) == Ok(Join(sep, all.value)))
      && (all.Err? ==> Concat(head, Concat(Ok(sep), tail)) == Err(all.error))
  {
    if head.Ok? && rest.Ok? {
      var v := [head.value] + rest.value;
      assert v[1..] == rest.value;
      assert Join(sep, v) == head.value + sep + Join(sep, rest.value);
      assert head.value + (sep + Join(sep, rest.value)) == head.value + sep + Join(sep, rest.value);
    }
  }

  /** The values of `m`, each formatted again from `env`. */
  function Reformat(m: Env, env: Env): (r: Env)
    requires forall n :: n in m ==> Format(m[n], env).Ok?
    ensures r.Keys == m.Keys
    ensures forall n :: n in m ==> Format(m[n], env) == Ok(r[n])
  {
    map n | n in m :: Format(m[n], env).value
  }

  /**
   * Two passes of `format`: filling a template whose literals have no braces
   * and then formatting the result again is filling it once from the values
   * formatted again. This is how a placeholder such as `{jobid}`, inserted by a
   * first `format` call, is filled by a later one.
   */
  lemma {:induction false} FormatTwice(t: Template, m: Env, env: Env)
    requires PlainLiterals(t) && Bound(t, m)
    requires forall n :: n in m ==> Parse(m[n]).Ok? && Format(m[n], env).Ok?
    ensures Fill(t, m).Ok? && Parse(Fill(t, m).value).Ok?
    ensures Format(Fill(t, m).value, env) == Fill(t, Reformat(m, env))
    decreases |t|
  {
    if t != [] {
      var rest := t[1..];
      assert forall i :: 0 <= i < |rest| ==> rest[i] == t[i + 1];
      FormatTwice(rest, m, env);
      var tail := Fill(rest, m).value;
      match t[0]
      case Lit(x) =>
        assert t[0].Lit? && BraceFree(t[0].text);
        FormatPlainPrefix(x, tail, env);
      case Hole(n) =>
        assert t[0].Hole? && n in m;
        FormatAppend(m[n], tail, env);
    }
  }

  /**
   * `FormatTwice` for a single argument: a value that formats to `w` in the
   * second pass acts as if `w` had been given in the first.
   */
  lemma FormatTwiceOne(template: string, hole: string, v: string, w: string, env: Env)
    requires Parse(template).Ok? && PlainLiterals(Parse(template).value)
    requires Bound(Parse(template).value, map[hole := v])
    requires Parse(v).Ok? && Format(v, env) == Ok(w)
    ensures Format(template, map[hole := v]).Ok?
    ensures Format(Format(template, map[hole := v]).value, env) == Format(template, map[hole := w])
  {
    var t := Parse(template).value;
    var m := map[hole := v];
    FormatIsFill(template, m);
    FormatIsFill(template, map[hole := w]);
    FormatTwice(t, m, env);
    ReformatOne(hole, v, w, env);
  }

  lemma ReformatOne(hole: string, v: string, w: string, env: Env)
    requires Format(v, env) == Ok(w)
    ensures Reformat(map[hole := v], env) == map[hole := w]
  {
  }

  /** A literal followed by a hole, then the rest of the template. */
  function LitHole(text: string, name: string, rest: Template): (t: Template)
    ensures |t| == |rest| + 2
  {
    [Lit(text), Hole(name)] + rest
  }

  /** Filling a literal and a hole: the literal, then the hole's value, then the rest. */
  lemma FillLitHole(text: string, name: string, rest: Template, env: Env)
    ensures Fill(LitHole(text, name, rest), env) == Concat(Ok(text), Concat(FragValue(Hole(name), env), Fill(rest, env)))
  {
    var t := LitHole(text, name, rest);
    assert t[0] == Lit(text) && t[1..] == [Hole(name)] + rest;
    assert t[1..][0] == Hole(name) && t[1..][1..] == rest;
  }

  /** `FillLitHole` when the hole is bound to `v` and the rest fills to `r`. */
  lemma FillLitHoleOk(text: string, name: string, rest: Template, env: Env, v: string, r: string)
    requires name in env && env[name] == v && Fill(rest, env) == Ok(r)
    ensures Fill(LitHole(text, name, rest), env) == Ok(text + (v + r))
  {
    FillLitHole(text, name, rest, env);
  }

  lemma WellNamedLitHole(text: string, name: string, rest: Template)
    requires BraceFree(name) && WellNamed(rest)
    ensures WellNamed(LitHole(text, name, rest))
  {
    var t := LitHole(text, name, rest);
    forall i | 2 <= i < |t| && t[i].Hole?
      ensures BraceFree(t[i].name)
    {
      assert t[i] == rest[i - 2];
    }
  }

  lemma FillLit(text: string, env: Env)
    ensures Fill([Lit(text)], env) == Ok(text)
  {
    assert [Lit(text)][1..] == [];
    assert text + "" == text;
  }

  /** Four literal-and-hole pairs in front of `rest`. */
  function LitHoles4(l1: string, n1: string, l2: string, n2: string, l3: string, n3: string,
                     l4: string, n4: string, rest: Template): (t: Template)
    ensures |t| == |rest| + 8
  {
    LitHole(l1, n1, LitHole(l2, n2, LitHole(l3, n3, LitHole(l4, n4, rest))))
  }

  /** Filling four pairs: each literal followed by its hole's value, then the rest. */
  lemma FillLitHoles4(l1: string, n1: string, l2: string, n2: string, l3: string, n3: string,
                      l4: string, n4: string, rest: Template, env: Env, v: string)
    requires n1 in env && n2 in env && n3 in env && n4 in env && Fill(rest, env) == Ok(v)
    ensures Fill(LitHoles4(l1, n1, l2, n2, l3, n3, l4, n4, rest), env)
      == Ok(l1 + env[n1] + l2 + env[n2] + l3 + env[n3] + l4 + env[n4] + v)
  {
    var t3 := LitHole(l4, n4, rest);
    var t2 := LitHole(l3, n3, t3);
    var t1 := LitHole(l2, n2, t2);
    var r3 := l4 + (env[n4] + v);
    var r2 := l3 + (env[n3] + r3);
    var r1 := l2 + (env[n2] + r2);
    FillLitHoleOk(l4, n4, rest, env, env[n4], v);
    FillLitHoleOk(l3, n3, t3, env, env[n3], r3);
    FillLitHoleOk(l2, n2, t2, env, env[n2], r2);
    FillLitHoleOk(l1, n1, t1, env, env[n1], r1);
    Assoc9(l1, env[n1], l2, env[n2], l3, env[n3], l4, env[n4], v);
  }

  lemma WellNamedLitHoles4(l1: string, n1: string, l2: string, n2: string, l3: string, n3: string,
                           l4: string, n4: string, rest: Template)
    requires BraceFree(n1) && BraceFree(n2) && BraceFree(n3) && BraceFree(n4) && WellNamed(rest)
    ensures WellNamed(LitHoles4(l1, n1, l2, n2, l3, n3, l4, n4, rest))
  {
    WellNamedLitHole(l4, n4, rest);
    WellNamedLitHole(l3, n3, LitHole(l4, n4, rest));
    WellNamedLitHole(l2, n2, LitHole(l3, n3, LitHole(l4, n4, rest)));
    WellNamedLitHole(l1, n1, LitHole(l2, n2, LitHole(l3, n3, LitHole(l4, n4, rest))));
  }

  lemma Assoc9(s1: string, s2: string, s3: string, s4: string, s5: string, s6: string, s7: string, s8: string, s9: string)
    ensures s1 + (s2 + (s3 + (s4 + (s5 + (s6 + (s7 + (s8 + s9))))))) == s1 + s2 + s3 + s4 + s5 + s6 + s7 + s8 + s9
  {
  }

  /** Literal text, then the hole `{name}`, then the rest of a format string. */
  function WithHole(text: string, name: string, rest: string): string {
    text + ("{" + name + "}" + rest)
  }

  /** Text and a bound hole in front format to the text and the hole's value, whatever follows. */
  lemma FormatWithHole(text: string, name: string, rest: string, env: Env)
    requires BraceFree(text) && BraceFree(name) && name in env
    ensures Format(WithHole(text, name, rest), env) == Concat(Ok(text + env[name]), Format(rest, env))
  {
    FormatHolePrefix(name, rest, env);
    FormatPlainPrefix(text, "{" + name + "}" + rest, env);
    ConcatAssoc(Ok(text), Ok(env[name]), Format(rest, env));
  }

  /** Appending to a `WithHole` string appends to its rest. */
  lemma WithHoleAppend(text: string, name: string, rest: string, more: string)
    ensures WithHole(text, name, rest) + more == WithHole(text, name, rest + more)
  {
  }

  /** Four `WithHole` steps, then anything: each text and bound hole in turn, then the rest's formatting. */
  lemma FormatFourHoles(t1: string, n1: string, t2: string, n2: string, t3: string, n3: string, t4: string, n4: string,
                        rest: string, env: Env)
    requires BraceFree(t1) && BraceFree(t2) && BraceFree(t3) && BraceFree(t4)
    requires BraceFree(n1) && BraceFree(n2) && BraceFree(n3) && BraceFree(n4)
    requires n1 in env && n2 in env && n3 in env && n4 in env
    ensures Format(WithHole(t1, n1, WithHole(t2, n2, WithHole(t3, n3, WithHole(t4, n4, "")))) + rest, env)
      == Concat(Ok(t1 + env[n1]), Concat(Ok(t2 + env[n2]), Concat(Ok(t3 + env[n3]), Concat(Ok(t4 + env[n4]), Format(rest, env)))))
  {
    var r4 := WithHole(t4, n4, "");
    var r3 := WithHole(t3, n3, r4);
    var r2 := WithHole(t2, n2, r3);
    WithHoleAppend(t1, n1, r2, rest);
    WithHoleAppend(t2, n2, r3, rest);
    WithHoleAppend(t3, n3, r4, rest);
    WithHoleAppend(t4, n4, "", rest);
    assert "" + rest == rest;
    FormatWithHole(t1, n1, r2 + rest, env);
    FormatWithHole(t2, n2, r3 + rest, env);
    FormatWithHole(t3, n3, r4 + rest, env);
    FormatWithHole(t4, n4, rest, env);
  }

  /** A brace-free string formats to itself. */
  lemma FormatText(x: string, env: Env)
    requires BraceFree(x)
    ensures Format(x, env) == Ok(x)
  {
    FormatPlain(x, env);
  }
}
