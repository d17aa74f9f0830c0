/**
 * The JSON-compatible Python values the tool walks and the JSON documents it
 * writes and compares. A Python `dict` keeps insertion order, so an object is an
 * association list; a float is carried by its `repr` text.
 */
module JsonValues {
  import opened Wrappers
  import opened Text

  datatype Json =
    | Null
    | Bool(b: bool)
    | Int(i: int)
    | Float(text: string)
    | Str(s: string)
    | Arr(elems: seq<Json>)
    | Obj(fields: seq<(string, Json)>)
      /** Any other Python value (a function, a set, ...); `pyType` is its `type()` as printed. */
    | Unsupported(pyType: string)

  // ------------------------------------------------------ association lists

  function KeyList<V>(fields: seq<(string, V)>): (ks: seq<string>)
    ensures |ks| == |fields|
    ensures forall i :: 0 <= i < |fields| ==> ks[i] == fields[i].0
  {
    seq(|fields|, i requires 0 <= i < |fields| => fields[i].0)
  }

  function Keys<V>(fields: seq<(string, V)>): set<string> {
    set i | 0 <= i < |fields| :: fields[i].0
  }

  lemma KeyListKeys<V>(fields: seq<(string, V)>)
    ensures forall k :: k in KeyList(fields) <==> k in Keys(fields)
  {
    forall k ensures k in KeyList(fields) <==> k in Keys(fields) {
      if k in Keys(fields) {
        var i :| 0 <= i < |fields| && fields[i].0 == k;
        assert KeyList(fields)[i] == k;
      }
    }
  }

  /** Python dicts never repeat a key. */
  ghost predicate DistinctKeys<V>(fields: seq<(string, V)>) {
    NoDups(KeyList(fields))
  }

  /** Index of the entry for `k`, or -1. */
  function Find<V>(fields: seq<(string, V)>, k: string): (i: int)
    ensures -1 <= i < |fields|
    ensures i >= 0 ==> fields[i].0 == k && forall j :: 0 <= j < i ==> fields[j].0 != k
    ensures i < 0 <==> k !in Keys(fields)
  {
    if fields == [] then -1
    else if fields[0].0 == k then 0
    else
      var j := Find(fields[1..], k);
      assert k in Keys(fields[1..]) ==> k in Keys(fields) by {
        if k in Keys(fields[1..]) {
          var m :| 0 <= m < |fields[1..]| && fields[1..][m].0 == k;
          assert fields[m + 1].0 == k;
        }
      }
      assert k in Keys(fields) ==> k in Keys(fields[1..]) by {
        if k in Keys(fields) {
          var m :| 0 <= m < |fields| && fields[m].0 == k;
          assert fields[1..][m - 1].0 == k;
        }
      }
      if j < 0 then -1 else j + 1
  }

  /** Python's `d.get(k)`. */
  function Get<V>(fields: seq<(string, V)>, k: string): (r: Option<V>)
    ensures r.Some? <==> k in Keys(fields)
  {
    var i := Find(fields, k);
    if i < 0 then None else Some(fields[i].1)
  }

  /** `Find` is the first index holding the key. */
  lemma {:induction false} FindIs<V>(fields: seq<(string, V)>, k: string, i: int)
    requires 0 <= i < |fields| && fields[i].0 == k
    requires forall j :: 0 <= j < i ==> fields[j].0 != k
    ensures Find(fields, k) == i
  {
    if i > 0 {
      FindIs(fields[1..], k, i - 1);
    }
  }

  lemma FindAbsent<V>(fields: seq<(string, V)>, k: string)
    requires forall j :: 0 <= j < |fields| ==> fields[j].0 != k
    ensures Find(fields, k) == -1
  {
    assert k !in Keys(fields);
  }

  /** Python's `d[k] = v`: an existing entry is replaced in place, a new one is appended. */
  function Put<V>(fields: seq<(string, V)>, k: string, v: V): (r: seq<(string, V)>)
    ensures Get(r, k) == Some(v)
    ensures Keys(r) == Keys(fields) + {k}
    ensures forall k' :: k' != k ==> Get(r, k') == Get(fields, k')
  {
    var i := Find(fields, k);
    var r := if i < 0 then fields + [(k, v)] else fields[i := (k, v)];
    var at := if i < 0 then |fields| else i;
    FindIs(r, k, at);
    assert Keys(r) == Keys(fields) + {k} by {
      forall k' | k' in Keys(r) ensures k' in Keys(fields) + {k} {
        var m :| 0 <= m < |r| && r[m].0 == k';
        if m != at { assert fields[m].0 == k'; }
      }
      forall k' | k' in Keys(fields) + {k} ensures k' in Keys(r) {
        if k' != k {
          var m :| 0 <= m < |fields| && fields[m].0 == k';
          assert r[m].0 == k';
        } else {
          assert r[at].0 == k;
        }
      }
    }
    assert forall k' :: k' != k ==> Get(r, k') == Get(fields, k') by {
      forall k' | k' != k ensures Get(r, k') == Get(fields, k') {
        var j := Find(fields, k');
        if j >= 0 {
          FindIs(r, k', j);
        } else {
          assert k' !in Keys(r);
        }
      }
    }
    r
  }

  /** A value held in an object is structurally smaller than the object. */
  lemma GetBelow(fields: seq<(string, Json)>, k: string)
    requires Get(fields, k).Some?
    ensures Get(fields, k).value < Obj(fields)
  {
    var i := Find(fields, k);
    assert fields[i].1 < fields[i];
  }

  /** Python's `d.setdefault(k, v)` on the dict itself: only an absent key is added. */
  function SetDefault<V>(fields: seq<(string, V)>, k: string, v: V): (r: seq<(string, V)>)
    ensures k in Keys(fields) ==> r == fields
    ensures k !in Keys(fields) ==> r == Put(fields, k, v)
  {
    if k in Keys(fields) then fields else Put(fields, k, v)
  }

  // ------------------------------------------------------ Python truthiness

  /** `bool(v)` in Python. */
  predicate Truthy(v: Json) {
    match v
    case Null => false
    case Bool(b) => b
    case Int(i) => i != 0
    case Float(t) => t != "0.0" && t != "-0.0"
    case Str(s) => s != ""
    case Arr(es) => es != []
    case Obj(fs) => fs != []
    case Unsupported(_) => true
  }

  // ------------------------------------------------------ rendering

  function DigitChar(d: nat): char
    requires d < 10
  {
    "0123456789"[d]
  }

  /** `str(n)` for a natural number. */
  function NatToString(n: nat): (s: string)
    ensures |s| >= 1
    ensures forall i :: 0 <= i < |s| ==> '0' <= s[i] <= '9'
  {
    if n < 10 then [DigitChar(n)] else NatToString(n / 10) + [DigitChar(n % 10)]
  }

  function IntToString(i: int): string {
    if i < 0 then "-" + NatToString(-i) else NatToString(i)
  }

  /** A string as a JSON literal (quote-wrapped; escaping is not modelled). */
  function Quote(s: string): string {
    "\"" + s + "\""
  }

  /** `json.dumps(v)` with the default separators `", "` and `": "`. */
  function Dumps(v: Json): string
    decreases v, 1
  {
    match v
    case Null => "null"
    case Bool(b) => if b then "true" else "false"
    case Int(i) => IntToString(i)
    case Float(t) => t
    case Str(s) => Quote(s)
    case Arr(es) => "[" + DumpsElems(es) + "]"
    case Obj(fs) => "{" + DumpsFields(fs) + "}"
    case Unsupported(t) => t
  }

  function DumpsElems(es: seq<Json>): string
    decreases es, 0
  {
    if es == [] then ""
    else if |es| == 1 then Dumps(es[0])
    else Dumps(es[0]) + ", " + DumpsElems(es[1..])
  }

  function DumpsFields(fs: seq<(string, Json)>): string
    decreases fs, 0
  {
    if fs == [] then ""
    else
      assert fs[0].1 < fs[0];
      var entry := Quote(fs[0].0) + ": " + Dumps(fs[0].1);
      if |fs| == 1 then entry else entry + ", " + DumpsFields(fs[1..])
  }

  function Spaces(n: nat): string {
    seq(n, _ => ' ')
  }

  /**
   * `json.dumps(v, indent=2).splitlines()`: the first line carries no indentation
   * (it follows a key or an opening bracket), later lines are indented absolutely.
   */
  function PrettyLines(v: Json, level: nat): (lines: seq<string>)
    ensures |lines| >= 1
    decreases v, 1
  {
    match v
    case Arr(es) =>
      if es == [] then ["[]"] else ["["] + PrettyElems(es, level + 1) + [Spaces(2 * level) + "]"]
    case Obj(fs) =>
      if fs == [] then ["{}"] else ["{"] + PrettyFields(fs, level + 1) + [Spaces(2 * level) + "}"]
    case _ => [Dumps(v)]
  }

  /** An element's lines, indented, with a trailing comma on its last line unless it is the last element. */
  function Member(head: string, lines: seq<string>, level: nat, comma: bool): seq<string>
    requires |lines| >= 1
  {
    var ls := [Spaces(2 * level) + head + lines[0]] + lines[1..];
    if comma then ls[..|ls| - 1] + [ls[|ls| - 1] + ","] else ls
  }

  function PrettyElems(es: seq<Json>, level: nat): seq<string>
    decreases es, 0
  {
    if es == [] then []
    else Member("", PrettyLines(es[0], level), level, |es| > 1) + PrettyElems(es[1..], level)
  }

  function PrettyFields(fs: seq<(string, Json)>, level: nat): seq<string>
    decreases fs, 0
  {
    if fs == [] then []
    else
      assert fs[0].1 < fs[0];
      Member(Quote(fs[0].0) + ": ", PrettyLines(fs[0].1, level), level, |fs| > 1)
      + PrettyFields(fs[1..], level)
  }

  /** Python's `repr(v)` (string quoting is not modelled beyond single quotes). */
  function PyRepr(v: Json): string
    decreases v, 1
  {
    match v
    case Null => "None"
    case Bool(b) => if b then "True" else "False"
    case Int(i) => IntToString(i)
    case Float(t) => t
    case Str(s) => "'" + s + "'"
    case Arr(es) => "[" + PyReprElems(es) + "]"
    case Obj(fs) => "{" + PyReprFields(fs) + "}"
    case Unsupported(t) => t
  }

  function PyReprElems(es: seq<Json>): string
    decreases es, 0
  {
    if es == [] then ""
    else if |es| == 1 then PyRepr(es[0])
    else PyRepr(es[0]) + ", " + PyReprElems(es[1..])
  }

  function PyReprFields(fs: seq<(string, Json)>): string
    decreases fs, 0
  {
    if fs == [] then ""
    else
      assert fs[0].1 < fs[0];
      var entry := "'" + fs[0].0 + "': " + PyRepr(fs[0].1);
      if |fs| == 1 then entry else entry + ", " + PyReprFields(fs[1..])
  }

  /** Python's `str(x)` in an f-string, where `None` stands for a missing key. */
  function PyStr(v: Option<Json>): string {
    match v
    case None => "None"
    case Some(Str(s)) => s
    case Some(x) => PyRepr(x)
  }
}
