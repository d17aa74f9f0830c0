/**
 * `NameMaker`: turns a callable into a snapshot name through a small template
 * language. `{name}` or `{name=SEP}` placeholders are expanded from the
 * callable's metadata, then runs of `/`, `.` and `-` are collapsed.
 * The callable is described by the fields `_meta` reads from it.
 */
module NameMaker {
  import opened Wrappers
  import opened Text

  /** The three kinds of callable `_meta` tells apart, with the attributes it reads. */
  datatype Callable =
    | Builtin(name: string, modName: Option<string>)
    | Instance(classQualname: string, classModule: Option<string>)
    | Function(qualname: string, modName: Option<string>)

  /** The substitution mapping; `package` and `package_full` hold the same module. */
  datatype Meta = Meta(package: Option<string>, pathParts: seq<string>, cls: Option<string>, methodName: string)

  /** The qualified name and the module `_meta` starts from. */
  function Origin(obj: Callable): (string, Option<string>) {
    match obj
    case Builtin(n, m) => (n, Some(if m == None || m == Some("") then "builtins" else m.value))
    case Instance(q, m) => (q + ".__call__", m)
    case Function(q, m) => (q, m)
  }

  function Last(parts: seq<string>): string
    requires |parts| >= 1
  {
    parts[|parts| - 1]
  }

  /** `_meta` after unwrapping: the class is the next-to-last qualname segment unless that is `<locals>`. */
  function MetaOf(obj: Callable): (m: Meta)
    ensures m.package == Origin(obj).1
    ensures obj.Builtin? ==> m.package.Some? && m.package.value != ""
    ensures m.package.None? ==> m.pathParts == []
    ensures m.cls.Some? ==> m.cls.value != "<locals>"
  {
    var (qualname, modName) := Origin(obj);
    var parts := Split(qualname, '.');
    var cls := if |parts| > 1 && parts[|parts| - 2] != "<locals>" then Some(parts[|parts| - 2]) else None;
    var modParts := Split(modName.GetOr(""), '.');
    Meta(modName, if |modParts| > 1 then modParts[1..] else [], cls, Last(parts))
  }

  /** A class name Python would treat as true. */
  predicate HasClass(m: Meta) {
    m.cls.Some? && m.cls.value != ""
  }

  /** `str(module)`: a missing module prints as `None`. */
  function ModuleText(package: Option<string>): string {
    match package
    case Some(p) => p
    case None => "None"
  }

  /** `_expand`: the placeholders the template language knows; anything else is empty. */
  function Expand(name: string, joiner: Option<string>, m: Meta): (r: string)
    ensures name !in KnownNames ==> r == ""
    ensures name == "class_method" && !HasClass(m) ==> r == m.methodName
    ensures name == "path" && m.pathParts == [] ==> r == ""
  {
    if name == "package" then m.package.GetOr("")
    else if name == "package_full" then Join(Split(ModuleText(m.package), '.'), joiner.GetOr("."))
    else if name == "path" then (if m.pathParts == [] then "" else Join(m.pathParts, joiner.GetOr("/")))
    else if name == "class" then m.cls.GetOr("")
    else if name == "method" then m.methodName
    else if name == "class_method" then
      (if HasClass(m) then Join([m.cls.value, m.methodName], joiner.GetOr(".")) else m.methodName)
    else ""
  }

  const KnownNames: set<string> := {"package", "package_full", "path", "class", "method", "class_method"}

  /** `token.split("=", 1)`: the name before the first `=`, the joiner after it if there is one. */
  function SplitToken(token: string): (r: (string, Option<string>))
    ensures '=' !in r.0
    ensures r.1.None? <==> '=' !in token
    ensures r.1.Some? ==> token == r.0 + "=" + r.1.value
    ensures r.1.None? ==> r.0 == token
  {
    if '=' in token then
      var i := IndexOfChar(token, '=');
      assert token == token[..i] + "=" + token[i + 1..];
      (token[..i], Some(token[i + 1..]))
    else (token, None)
  }

  function ExpandToken(token: string, m: Meta): string {
    var (name, joiner) := SplitToken(token);
    Expand(name, joiner, m)
  }

  /** Number of leading characters of `s` that are not braces: what `[^{}]+` can consume. */
  function BraceFree(s: string): (n: nat)
    ensures n <= |s|
    ensures forall i :: 0 <= i < n ==> s[i] != '{' && s[i] != '}'
    ensures n < |s| ==> s[n] == '{' || s[n] == '}'
  {
    if s == [] || s[0] == '{' || s[0] == '}' then 0 else 1 + BraceFree(s[1..])
  }

  /**
   * `re.sub(r"\{([^{}]+)\}", _sub, rule)`: scanning left to right, a `{` that
   * opens a non-empty brace-free token closed by `}` is replaced by the token's
   * expansion; any other character is kept.
   */
  function Substitute(rule: string, m: Meta): (r: string)
    ensures '{' !in rule ==> r == rule
    decreases |rule|
  {
    if rule == [] then []
    else if rule[0] == '{' then
      var n := BraceFree(rule[1..]);
      if n > 0 && n + 1 < |rule| && rule[n + 1] == '}' then
        ExpandToken(rule[1..n + 1], m) + Substitute(rule[n + 2..], m)
      else [rule[0]] + Substitute(rule[1..], m)
    else [rule[0]] + Substitute(rule[1..], m)
  }

  /** `s` has no two adjacent copies of `c`. */
  ghost predicate NoDouble(s: string, c: char) {
    forall i :: 0 <= i < |s| - 1 ==> !(s[i] == c && s[i + 1] == c)
  }

  /** `re.sub(c + "{2,}", c, s)`: every run of `c` becomes a single `c`. */
  function Squeeze(s: string, c: char): (r: string)
    ensures |s| > 0 ==> |r| > 0 && r[0] == s[0]
    ensures |r| <= |s|
    ensures NoDouble(r, c)
  {
    if |s| < 2 then s
    else if s[0] == c && s[1] == c then Squeeze(s[1..], c)
    else [s[0]] + Squeeze(s[1..], c)
  }

  /** `_collapse`: `//`, `..` and `--` runs shrink to one character; underscores are left alone. */
  function Collapse(s: string): (r: string)
    ensures |r| <= |s|
    ensures |s| > 0 ==> |r| > 0 && r[0] == s[0]
    ensures NoDouble(r, '-')
  {
    Squeeze(Squeeze(Squeeze(s, '/'), '.'), '-')
  }

  /** `NameMaker.format(obj, rule)`. */
  function Format(obj: Callable, rule: string): (r: string)
    ensures '{' !in rule ==> r == Collapse(rule)
    ensures NoDouble(r, '-')
  {
    Collapse(Substitute(rule, MetaOf(obj)))
  }

  // ------------------------------------------------------------ collapsing

  /** `s` without the characters of `cs`. */
  function Without(s: string, cs: set<char>): (r: string)
    ensures |r| <= |s|
  {
    if s == [] then [] else (if s[0] in cs then [] else [s[0]]) + Without(s[1..], cs)
  }

  /** Squeezing removes only copies of `c`: every other character stays, in order. */
  lemma {:induction false} SqueezeKeepsOthers(s: string, c: char, cs: set<char>)
    requires c in cs
    ensures Without(Squeeze(s, c), cs) == Without(s, cs)
    decreases |s|
  {
    if |s| >= 2 {
      SqueezeKeepsOthers(s[1..], c, cs);
    }
  }

  /** Squeezing `c` never makes two copies of another character adjacent. */
  lemma {:induction false} SqueezeKeepsNoDouble(s: string, c: char, x: char)
    requires x != c && NoDouble(s, x)
    ensures NoDouble(Squeeze(s, c), x)
    decreases |s|
  {
    if |s| >= 2 {
      assert NoDouble(s[1..], x);
      SqueezeKeepsNoDouble(s[1..], c, x);
      if !(s[0] == c && s[1] == c) {
        var t := Squeeze(s[1..], c);
        var r := [s[0]] + t;
        forall i | 0 <= i < |r| - 1 ensures !(r[i] == x && r[i + 1] == x) {
          if i == 0 {
            assert r[1] == s[1];
          } else {
            assert r[i] == t[i - 1] && r[i + 1] == t[i];
          }
        }
      }
    }
  }

  /** A string without runs of `c` is left as it is. */
  lemma {:induction false} SqueezeNoRuns(s: string, c: char)
    requires NoDouble(s, c)
    ensures Squeeze(s, c) == s
    decreases |s|
  {
    if |s| >= 2 {
      assert NoDouble(s[1..], c);
      SqueezeNoRuns(s[1..], c);
      assert s == [s[0]] + s[1..];
    }
  }

  /**
   * The collapsed name has no `//`, `..` or `--`, keeps every other character
   * (underscores included) in order, and collapsing it again changes nothing.
   */
  lemma CollapseSpec(s: string)
    ensures var r := Collapse(s);
      && NoDouble(r, '/') && NoDouble(r, '.') && NoDouble(r, '-')
      && Without(r, {'/', '.', '-'}) == Without(s, {'/', '.', '-'})
      && Collapse(r) == r
  {
    var a := Squeeze(s, '/');
    var b := Squeeze(a, '.');
    var r := Squeeze(b, '-');
    SqueezeKeepsNoDouble(a, '.', '/');
    SqueezeKeepsNoDouble(b, '-', '/');
    SqueezeKeepsNoDouble(b, '-', '.');
    CollapseKeepsOthers(s);
    SqueezeNoRuns(r, '/');
    SqueezeNoRuns(r, '.');
    SqueezeNoRuns(r, '-');
  }

  lemma CollapseKeepsOthers(s: string)
    ensures Without(Collapse(s), {'/', '.', '-'}) == Without(s, {'/', '.', '-'})
  {
    var cs := {'/', '.', '-'};
    var a := Squeeze(s, '/');
    var b := Squeeze(a, '.');
    SqueezeKeepsOthers(s, '/', cs);
    SqueezeKeepsOthers(a, '.', cs);
    SqueezeKeepsOthers(b, '-', cs);
  }

  /** Double underscores survive collapsing, so `__call__` stays intact. */
  lemma CollapseKeepsUnderscores(a: string, b: string)
    ensures Without(Collapse(a + ("__" + b)), {'/', '.', '-'})
         == Without(a, {'/', '.', '-'}) + ("__" + Without(b, {'/', '.', '-'}))
  {
    var cs := {'/', '.', '-'};
    CollapseKeepsOthers(a + ("__" + b));
    WithoutConcat(a, "__" + b, cs);
    WithoutConcat("__", b, cs);
    UnderscoresKept(cs);
  }

  lemma UnderscoresKept(cs: set<char>)
    requires '_' !in cs
    ensures Without("__", cs) == "__"
  {
    assert "__"[1..] == "_";
    assert "_"[1..] == [];
  }

  lemma {:induction false} WithoutConcat(a: string, b: string, cs: set<char>)
    ensures Without(a + b, cs) == Without(a, cs) + Without(b, cs)
    decreases |a|
  {
    if a != [] {
      assert (a + b)[1..] == a[1..] + b;
      WithoutConcat(a[1..], b, cs);
    } else {
      assert a + b == b;
    }
  }

  // ------------------------------------------------------------ substitution

  /** Text without an opening brace is copied unchanged. */
  lemma {:induction false} SubstituteLiteral(lit: string, rest: string, m: Meta)
    requires '{' !in lit
    ensures Substitute(lit + rest, m) == lit + Substitute(rest, m)
    decreases |lit|
  {
    if lit != [] {
      assert (lit + rest)[0] == lit[0];
      assert (lit + rest)[1..] == lit[1..] + rest;
      SubstituteLiteral(lit[1..], rest, m);
    } else {
      assert lit + rest == rest;
    }
  }

  /**
   * A placeholder `{token}` after brace-free text is replaced by the token's
   * expansion, and substitution carries on after the closing brace.
   */
  lemma SubstitutePlaceholder(lit: string, token: string, rest: string, m: Meta)
    requires '{' !in lit && token != "" && '{' !in token && '}' !in token
    ensures Substitute(lit + ("{" + token + "}" + rest), m) == lit + ExpandToken(token, m) + Substitute(rest, m)
  {
    SubstituteLiteral(lit, "{" + token + "}" + rest, m);
    SubstituteToken(token, rest, m);
  }

  /** A text that opens with a placeholder: the token's expansion, then the rest. */
  lemma SubstituteToken(token: string, rest: string, m: Meta)
    requires token != "" && '{' !in token && '}' !in token
    ensures Substitute("{" + token + "}" + rest, m) == ExpandToken(token, m) + Substitute(rest, m)
  {
    var s := "{" + token + "}" + rest;
    var n := |token|;
    assert s[0] == '{' && s[n + 1] == '}';
    assert s[1..][..n] == token;
    BraceFreeOf(s[1..], n);
    assert s[1..n + 1] == token;
    assert s[n + 2..] == rest;
    assert Substitute(s, m) == ExpandToken(s[1..n + 1], m) + Substitute(s[n + 2..], m);
  }

  lemma BraceFreeOf(s: string, n: nat)
    requires n < |s| && s[n] == '}'
    requires forall i :: 0 <= i < n ==> s[i] != '{' && s[i] != '}'
    ensures BraceFree(s) == n
  {
  }

  // ------------------------------------------------------------ expansion

  /** A name the template language does not know expands to nothing, with or without a joiner. */
  lemma UnknownPlaceholder(name: string, joiner: Option<string>, m: Meta)
    requires name !in KnownNames
    ensures Expand(name, joiner, m) == ""
  {
  }

  /** `{class_method}` is `Class.method` (or `Class<SEP>method`) when a class is known, else the method alone. */
  lemma ClassMethod(joiner: Option<string>, m: Meta)
    ensures Expand("class_method", joiner, m) ==
      if HasClass(m) then m.cls.value + joiner.GetOr(".") + m.methodName else m.methodName
  {
    var sep := joiner.GetOr(".");
    if HasClass(m) {
      assert [m.cls.value, m.methodName][1..] == [m.methodName];
      assert Join([m.methodName], sep) == m.methodName;
      assert Join([m.cls.value, m.methodName], sep) == m.cls.value + sep + Join([m.methodName], sep);
    }
  }

  /** `{package_full}` without a joiner gives back the module; with one, the module's dots become the joiner. */
  lemma PackageFull(modName: string, joiner: Option<string>, m: Meta)
    requires m.package == Some(modName)
    ensures Expand("package_full", None, m) == modName
    ensures Expand("package_full", joiner, m) == Join(Split(modName, '.'), joiner.GetOr("."))
  {
    JoinSplit(modName, '.');
  }

  /** `{path}` drops the module's first segment and joins the rest with the joiner (`/` by default). */
  lemma PathPlaceholder(obj: Callable, first: string, rest: string, joiner: Option<string>)
    requires Origin(obj).1 == Some(first + "." + rest) && '.' !in first
    ensures Expand("path", joiner, MetaOf(obj)) == Join(Split(rest, '.'), joiner.GetOr("/"))
  {
    SplitAfter(first, rest);
  }

  /** A module with a single segment has an empty `{path}`. */
  lemma PathOfTopModule(obj: Callable, joiner: Option<string>)
    requires var modName := Origin(obj).1; modName.None? || '.' !in modName.value
    ensures Expand("path", joiner, MetaOf(obj)) == ""
  {
  }

  // ------------------------------------------------------------ metadata

  /** `Class.method`: the class is the segment before the method. */
  lemma MethodOfClass(cls: string, methodName: string, modName: Option<string>)
    requires '.' !in cls && '.' !in methodName && cls != "<locals>"
    ensures var m := MetaOf(Function(cls + "." + methodName, modName));
      m.cls == Some(cls) && m.methodName == methodName
  {
    SplitAfter(cls, methodName);
  }

  /** `outer.<locals>.inner`: a function defined inside another has no class. */
  lemma LocalFunction(outer: string, inner: string, modName: Option<string>)
    requires '.' !in outer && '.' !in inner
    ensures var m := MetaOf(Function(outer + "." + ("<locals>" + "." + inner), modName));
      m.cls == None && m.methodName == inner
  {
    var q := outer + "." + ("<locals>" + "." + inner);
    SplitAfter("<locals>", inner);
    SplitAfter(outer, "<locals>" + "." + inner);
    var parts := [outer] + (["<locals>"] + [inner]);
    assert Split(q, '.') == parts;
    QualnameParts(Function(q, modName), parts);
    assert parts[1] == "<locals>";
  }

  /** The class and method of `MetaOf` read off the dotted parts of the qualified name. */
  lemma QualnameParts(obj: Callable, parts: seq<string>)
    requires Split(Origin(obj).0, '.') == parts
    ensures MetaOf(obj).cls == if |parts| > 1 && parts[|parts| - 2] != "<locals>" then Some(parts[|parts| - 2]) else None
    ensures MetaOf(obj).methodName == Last(parts)
  {
  }

  /** A top-level function has no class; its name is the method. */
  lemma TopLevelFunction(name: string, modName: Option<string>)
    requires '.' !in name
    ensures var m := MetaOf(Function(name, modName));
      m.cls == None && m.methodName == name
  {
  }

  /** A callable instance is named after its class and `__call__`. */
  lemma CallableInstance(cls: string, modName: Option<string>)
    requires '.' !in cls && cls != "<locals>"
    ensures var m := MetaOf(Instance(cls, modName));
      m.cls == Some(cls) && m.methodName == "__call__"
  {
    assert '.' !in "__call__";
    var q := cls + ".__call__";
    assert q == cls + "." + "__call__";
    SplitAfter(cls, "__call__");
    QualnameParts(Instance(cls, modName), [cls, "__call__"]);
  }

  /** A built-in without a module is filed under `builtins`. */
  lemma BuiltinModule(name: string, modName: Option<string>)
    requires modName == None || modName == Some("")
    ensures MetaOf(Builtin(name, modName)).package == Some("builtins")
    ensures MetaOf(Builtin(name, modName)).pathParts == []
  {
    assert '.' !in "builtins";
  }
}
