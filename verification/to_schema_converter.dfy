/**
 * The annotation layer of `JsonToSchemaConverter`: the two per-path caches it
 * fills while values are added (a bounded, de-duplicated list of examples and
 * the set of detected string formats), the walk that injects `format` and
 * `examples` into the schema the genson builder produced, and the safe-mode
 * `$schema`/`$vocabulary` block. The genson base schema is an input here.
 * Paths are the converter's logical paths: `root`, `root.key`, `root[0]`.
 */
module ToSchemaConverter {
  import opened Wrappers
  import opened Text
  import opened JsonValues
  import FormatDetector

  datatype FormatMode = Off | On | Safe

  /** The knobs fixed by the constructor. */
  datatype Settings = Settings(mode: FormatMode, limit: nat)

  /** The two caches, keyed by logical path. */
  datatype Caches = Caches(formats: map<string, set<string>>, examples: map<string, seq<Json>>)

  const FormatError := "format must be one of: 'off', 'on', 'safe'"
  const ExamplesError := "examples must be >= 0"

  function ParseMode(format: string): (m: Option<FormatMode>)
    ensures m.Some? <==> format in {"off", "on", "safe"}
  {
    if format == "off" then Some(Off)
    else if format == "on" then Some(On)
    else if format == "safe" then Some(Safe)
    else None
  }

  /** The constructor's checks: the format mode first, then the examples limit. */
  function CheckOptions(format: string, examples: int): (r: Result<Settings, string>)
    ensures r.Success? <==> format in {"off", "on", "safe"} && examples >= 0
    ensures format !in {"off", "on", "safe"} ==> r == Failure(FormatError)
    ensures format in {"off", "on", "safe"} && examples < 0 ==> r == Failure(ExamplesError)
    ensures r.Success? ==> r.value.limit == examples && Some(r.value.mode) == ParseMode(format)
  {
    var m := ParseMode(format);
    if m.None? then Failure(FormatError)
    else if examples < 0 then Failure(ExamplesError)
    else Success(Settings(m.value, examples))
  }

  /** `f"{path}.{key}"`. */
  function FieldPath(path: string, key: string): string {
    path + "." + key
  }

  /** `f"{path}[{i}]"`. */
  function IndexPath(path: string, i: nat): string {
    path + "[" + NatToString(i) + "]"
  }

  // ------------------------------------------------------------ the caches

  /**
   * `_add_example`: nothing when the limit is not positive; otherwise the bucket
   * for `path` is created if missing, and `v` is appended unless the bucket is
   * full or already holds an equal value.
   */
  function AddedExample(limit: int, cache: map<string, seq<Json>>, path: string, v: Json)
    : (r: map<string, seq<Json>>)
    ensures limit <= 0 ==> r == cache
    ensures limit > 0 ==> r.Keys == cache.Keys + {path} && forall p :: p in cache && p != path ==> r[p] == cache[p]
    ensures limit > 0 && path in cache ==> cache[path] <= r[path]
    ensures limit > 0 ==> v in r[path] || |r[path]| >= limit
  {
    if limit <= 0 then cache
    else
      var bucket := if path in cache then cache[path] else [];
      if |bucket| >= limit || v in bucket then cache[path := bucket]
      else cache[path := bucket + [v]]
  }

  /** `self._format_cache.setdefault(path, set()).add(tag)`. */
  function AddedFormat(formats: map<string, set<string>>, path: string, tag: string)
    : map<string, set<string>>
  {
    formats[path := (if path in formats then formats[path] else {}) + {tag}]
  }

  /** The node's own step of `_process`: its example first, then the detected format of a string. */
  function Record(st: Settings, c: Caches, v: Json, path: string): Caches {
    var c1 := if st.limit > 0 then c.(examples := AddedExample(st.limit, c.examples, path, v)) else c;
    var tag := FormatDetector.DetectFormat(v);
    if v.Str? && st.mode != Off && tag.Some? then c1.(formats := AddedFormat(c1.formats, path, tag.value)) else c1
  }

  /**
   * `_process(v, path)`: the example is recorded first, then the detected format
   * of a string, then the children in order (`path.key` for a dict, `path[i]`
   * for a list).
   */
  function Collect(st: Settings, c: Caches, v: Json, path: string): (r: Caches)
    ensures c.examples.Keys <= r.examples.Keys && c.formats.Keys <= r.formats.Keys
    ensures st.limit <= 0 ==> r.examples == c.examples
    ensures st.mode == Off ==> r.formats == c.formats
    decreases v, 1
  {
    var c2 := Record(st, c, v, path);
    match v
    case Obj(fs) => CollectFields(st, c2, fs, path)
    case Arr(es) => CollectElems(st, c2, es, path)
    case _ => c2
  }

  function CollectFields(st: Settings, c: Caches, fs: seq<(string, Json)>, path: string): (r: Caches)
    ensures c.examples.Keys <= r.examples.Keys && c.formats.Keys <= r.formats.Keys
    ensures st.limit <= 0 ==> r.examples == c.examples
    ensures st.mode == Off ==> r.formats == c.formats
    decreases fs, 0
  {
    if fs == [] then c
    else
      var last := fs[|fs| - 1];
      assert last.1 < last;
      Collect(st, CollectFields(st, c, fs[..|fs| - 1], path), last.1, FieldPath(path, last.0))
  }

  function CollectElems(st: Settings, c: Caches, es: seq<Json>, path: string): (r: Caches)
    ensures c.examples.Keys <= r.examples.Keys && c.formats.Keys <= r.formats.Keys
    ensures st.limit <= 0 ==> r.examples == c.examples
    ensures st.mode == Off ==> r.formats == c.formats
    decreases es, 0
  {
    if es == [] then c
    else Collect(st, CollectElems(st, c, es[..|es| - 1], path), es[|es| - 1], IndexPath(path, |es| - 1))
  }

  /** Every bucket holds at most `limit` values, none twice. */
  ghost predicate BucketsValid(limit: int, examples: map<string, seq<Json>>) {
    forall p :: p in examples ==> |examples[p]| <= limit && NoDups(examples[p])
  }

  /** Every recorded format is one of the detector's tags. */
  ghost predicate FormatsValid(formats: map<string, set<string>>) {
    forall p, f :: p in formats && f in formats[p] ==> FormatDetector.IsTag(f)
  }

  ghost predicate CachesValid(st: Settings, c: Caches) {
    BucketsValid(st.limit, c.examples) && FormatsValid(c.formats)
  }

  /** `c2` extends `c1`: no path is dropped, every bucket only grows at its end, every format set only grows. */
  ghost predicate Extends(c1: Caches, c2: Caches) {
    && (forall p :: p in c1.examples ==> p in c2.examples && c1.examples[p] <= c2.examples[p])
    && (forall p :: p in c1.formats ==> p in c2.formats && c1.formats[p] <= c2.formats[p])
  }

  // ------------------------------------------------------------ safe mode

  const Draft202012 := "https://json-schema.org/draft/2020-12/schema"
  const VocabPrefix := "https://json-schema.org/draft/2020-12/vocab/"

  /** The `$vocabulary` of safe mode: every vocabulary on except format assertion. */
  function Vocabulary(): Json {
    Obj([
      (VocabPrefix + "core", Bool(true)),
      (VocabPrefix + "applicator", Bool(true)),
      (VocabPrefix + "validation", Bool(true)),
      (VocabPrefix + "meta-data", Bool(true)),
      (VocabPrefix + "format-annotation", Bool(true)),
      (VocabPrefix + "format-assertion", Bool(false))
    ])
  }

  /** The root before injection: in safe mode `$schema` is defaulted and `$vocabulary` set. */
  function SafeBlock(mode: FormatMode, base: seq<(string, Json)>): (r: seq<(string, Json)>)
    ensures mode != Safe ==> r == base
    ensures mode == Safe ==> Get(r, "$vocabulary") == Some(Vocabulary())
    ensures mode == Safe ==> Get(r, "$schema") == if "$schema" in Keys(base) then Get(base, "$schema") else Some(Str(Draft202012))
    ensures mode == Safe ==> forall k :: k != "$schema" && k != "$vocabulary" ==> Get(r, k) == Get(base, k)
  {
    if mode == Safe then Put(SetDefault(base, "$schema", Str(Draft202012)), "$vocabulary", Vocabulary())
    else base
  }

  // ------------------------------------------------------------ the converter

  class Converter {
    const settings: Settings
    var formats: map<string, set<string>>
    var examples: map<string, seq<Json>>

    function State(): Caches
      reads this
    {
      Caches(formats, examples)
    }

    /** Both caches start empty. */
    constructor(settings: Settings)
      ensures this.settings == settings
      ensures formats == map[] && examples == map[]
    {
      this.settings := settings;
      formats := map[];
      examples := map[];
    }

    /** `JsonToSchemaConverter(format=..., examples=...)`: the knobs are checked before anything is kept. */
    static method Create(format: string, examples: int) returns (r: Result<Converter, string>)
      ensures r.Success? <==> CheckOptions(format, examples).Success?
      ensures r.Failure? ==> r.error == CheckOptions(format, examples).error
      ensures r.Success? ==> fresh(r.value) && r.value.settings == CheckOptions(format, examples).value
      ensures r.Success? ==> r.value.formats == map[] && r.value.examples == map[]
    {
      var checked := CheckOptions(format, examples);
      if checked.Failure? {
        return Failure(checked.error);
      }
      var c := new Converter(checked.value);
      return Success(c);
    }

    /** `_add_example`, with its de-duplicating loop over the bucket. */
    method AddExample(path: string, value: Json)
      modifies this
      ensures examples == AddedExample(settings.limit, old(examples), path, value)
      ensures formats == old(formats)
    {
      if settings.limit <= 0 {
        return;
      }
      var bucket := if path in examples then examples[path] else [];
      examples := examples[path := bucket];
      if |bucket| >= settings.limit {
        return;
      }
      var i := 0;
      while i < |bucket|
        invariant 0 <= i <= |bucket|
        invariant value !in bucket[..i]
      {
        if bucket[i] == value {
          return;
        }
        assert bucket[..i + 1] == bucket[..i] + [bucket[i]];
        i := i + 1;
      }
      assert bucket[..i] == bucket;
      examples := examples[path := bucket + [value]];
    }

    /** `_process`: records the value, then a detected format, then walks the children. */
    method Process(obj: Json, path: string)
      modifies this
      ensures State() == Collect(settings, old(State()), obj, path)
      decreases obj
    {
      if settings.limit > 0 {
        AddExample(path, obj);
      }
      if obj.Str? && settings.mode != Off {
        var detected := FormatDetector.DetectFormat(obj);
        if detected.Some? {
          formats := AddedFormat(formats, path, detected.value);
        }
      }
      ghost var start := State();
      match obj
      case Obj(fs) =>
        for i := 0 to |fs|
          invariant State() == CollectFields(settings, start, fs[..i], path)
        {
          assert fs[..i + 1][..i] == fs[..i];
          assert fs[i].1 < fs[i];
          Process(fs[i].1, FieldPath(path, fs[i].0));
        }
        assert fs[..|fs|] == fs;
      case Arr(es) =>
        for i := 0 to |es|
          invariant State() == CollectElems(settings, start, es[..i], path)
        {
          assert es[..i + 1][..i] == es[..i];
          Process(es[i], IndexPath(path, i));
        }
        assert es[..|es|] == es;
      case _ =>
    }

    /**
     * `to_schema`: `base` is the genson builder's own schema. In safe mode the
     * 2020-12 `$schema` is set unless one is there and `$vocabulary` is replaced;
     * then the annotations are injected from `root`.
     */
    method ToSchema(base: seq<(string, Json)>) returns (schema: Json)
      ensures schema == Injected(settings, State(), Obj(SafeBlock(settings.mode, base)), "root")
    {
      var fields := base;
      if settings.mode == Safe {
        fields := SetDefault(fields, "$schema", Str(Draft202012));
        fields := Put(fields, "$vocabulary", Vocabulary());
      }
      schema := InjectAnnotations(Obj(fields), "root");
    }

    /** `_inject_annotations`, on a copy of the node rather than in place. */
    method InjectAnnotations(schema: Json, path: string) returns (r: Json)
      ensures r == Injected(settings, State(), schema, path)
      decreases schema, 2
    {
      if !schema.Obj? {
        return schema;
      }
      var cur := Annotate(schema.fields, path);
      cur := InjectPropertiesOf(schema, cur, path);
      cur := InjectItemsOf(schema, cur, path);
      cur := InjectKeyword(schema, cur, "anyOf", path);
      cur := InjectKeyword(schema, cur, "oneOf", path);
      cur := InjectKeyword(schema, cur, "allOf", path);
      r := Obj(cur);
    }

    /** The node's own `format` and `examples`. */
    method Annotate(fs: seq<(string, Json)>, path: string) returns (cur: seq<(string, Json)>)
      ensures cur == Annotated(settings, State(), fs, path)
    {
      cur := fs;
      if Get(fs, "type") == Some(Str("string")) && settings.mode != Off && path in formats && |formats[path]| == 1 {
        var f :| f in formats[path];
        cur := Put(cur, "format", Str(f));
      }
      if settings.limit > 0 && path in examples && examples[path] != [] {
        cur := Put(cur, "examples", Arr(Take(examples[path], settings.limit)));
      }
    }

    /** The loop over an `object` node's `properties`. */
    method InjectPropertiesOf(schema: Json, cur: seq<(string, Json)>, path: string)
      returns (next: seq<(string, Json)>)
      requires schema.Obj?
      ensures next == InjectProperties(settings, State(), schema, cur, path)
      decreases schema, 1
    {
      next := cur;
      if HasProperties(schema.fields) {
        GetBelow(schema.fields, "properties");
        var named := InjectEachNamed(Get(schema.fields, "properties").value.fields, path);
        next := Put(cur, "properties", Obj(named));
      }
    }

    /** An `array` node's `items`, a single schema or a list. */
    method InjectItemsOf(schema: Json, cur: seq<(string, Json)>, path: string)
      returns (next: seq<(string, Json)>)
      requires schema.Obj?
      ensures next == InjectItems(settings, State(), schema, cur, path)
      decreases schema, 1
    {
      next := cur;
      var items := Get(schema.fields, "items");
      if Get(schema.fields, "type") == Some(Str("array")) && items.Some? {
        GetBelow(schema.fields, "items");
        match items.value
        case Obj(_) =>
          var sub := InjectAnnotations(items.value, IndexPath(path, 0));
          next := Put(cur, "items", sub);
        case Arr(es) =>
          var subs := InjectEachIndexed(es, path);
          next := Put(cur, "items", Arr(subs));
        case _ =>
      }
    }

    /** One of the `anyOf` / `oneOf` / `allOf` loops. */
    method InjectKeyword(schema: Json, cur: seq<(string, Json)>, keyword: string, path: string)
      returns (next: seq<(string, Json)>)
      requires schema.Obj?
      ensures next == InjectSubs(settings, State(), schema, cur, keyword, path)
      decreases schema, 1
    {
      var subs := Get(schema.fields, keyword);
      next := cur;
      if subs.Some? && subs.value.Arr? {
        GetBelow(schema.fields, keyword);
        var walked := InjectEachSame(subs.value.elems, path);
        next := Put(cur, keyword, Arr(walked));
      }
    }

    /** The loop over an `object` node's properties. */
    method InjectEachNamed(ps: seq<(string, Json)>, path: string) returns (out: seq<(string, Json)>)
      ensures out == InjectNamed(settings, State(), ps, path)
      decreases ps, 0
    {
      out := [];
      for i := 0 to |ps|
        invariant out == InjectNamed(settings, State(), ps[..i], path)
      {
        assert ps[..i + 1][..i] == ps[..i];
        assert ps[i].1 < ps[i];
        var sub := InjectAnnotations(ps[i].1, FieldPath(path, ps[i].0));
        out := out + [(ps[i].0, sub)];
      }
      assert ps[..|ps|] == ps;
    }

    /** The loop over a list of `items`. */
    method InjectEachIndexed(es: seq<Json>, path: string) returns (out: seq<Json>)
      ensures out == InjectIndexed(settings, State(), es, path)
      decreases es, 0
    {
      out := [];
      for i := 0 to |es|
        invariant out == InjectIndexed(settings, State(), es[..i], path)
      {
        assert es[..i + 1][..i] == es[..i];
        var sub := InjectAnnotations(es[i], IndexPath(path, i));
        out := out + [sub];
      }
      assert es[..|es|] == es;
    }

    /** The loop over a keyword's alternatives. */
    method InjectEachSame(es: seq<Json>, path: string) returns (out: seq<Json>)
      ensures out == InjectSame(settings, State(), es, path)
      decreases es, 0
    {
      out := [];
      for i := 0 to |es|
        invariant out == InjectSame(settings, State(), es[..i], path)
      {
        assert es[..i + 1][..i] == es[..i];
        var sub := InjectAnnotations(es[i], path);
        out := out + [sub];
      }
      assert es[..|es|] == es;
    }

    /** `add_object`: the genson base builder is fed elsewhere; the annotations are collected from `root`. */
    method AddObject(obj: Json)
      modifies this
      ensures State() == Collect(settings, old(State()), obj, "root")
    {
      Process(obj, "root");
    }
  }

  // ------------------------------------------------------------ properties of the caches

  /** `_add_example` keeps every bucket bounded by the limit and free of duplicates. */
  lemma AddedExampleValid(limit: int, cache: map<string, seq<Json>>, path: string, v: Json)
    requires BucketsValid(limit, cache)
    ensures BucketsValid(limit, AddedExample(limit, cache, path, v))
  {
    if limit > 0 {
      var bucket := if path in cache then cache[path] else [];
      if |bucket| < limit && v !in bucket {
        var b := bucket + [v];
        forall i, j | 0 <= i < j < |b| ensures b[i] != b[j] {
          if j == |bucket| {
            assert b[i] == bucket[i];
          }
        }
      }
    }
  }

  /** Adding values one after the other to the same path. */
  function Fill(limit: int, cache: map<string, seq<Json>>, path: string, vs: seq<Json>): map<string, seq<Json>> {
    if vs == [] then cache
    else AddedExample(limit, Fill(limit, cache, path, vs[..|vs| - 1]), path, vs[|vs| - 1])
  }

  /** The first `n` values of `xs` (all of them when there are fewer): Python's `xs[:n]`. */
  function Take<T>(xs: seq<T>, n: nat): (r: seq<T>)
    ensures |r| <= n && r <= xs
    ensures |xs| <= n ==> r == xs
  {
    if |xs| <= n then xs else xs[..n]
  }

  /**
   * A bucket fed from empty keeps the first `limit` distinct values in the order
   * they were first seen.
   */
  lemma {:induction false} FillFirstSeen(limit: int, path: string, vs: seq<Json>)
    requires limit > 0 && vs != []
    ensures var c := Fill(limit, map[], path, vs);
      path in c && c[path] == Take(Dedup(vs), limit)
    decreases |vs|
  {
    var init, v := vs[..|vs| - 1], vs[|vs| - 1];
    var d := Dedup(init);
    var bucket := if init == [] then [] else Fill(limit, map[], path, init)[path];
    if init != [] {
      FillFirstSeen(limit, path, init);
    }
    assert bucket == Take(d, limit);
    TakeDedupStep(d, v, limit);
  }

  /** Capping a bucket and then offering it one more value agrees with capping the grown first-seen list. */
  lemma TakeDedupStep<T>(d: seq<T>, v: T, limit: nat)
    ensures var b := Take(d, limit);
      (if |b| >= limit || v in b then b else b + [v]) == Take(if v in d then d else d + [v], limit)
  {
    if |d| >= limit {
      assert (d + [v])[..limit] == d[..limit];
    }
  }

  /** Three distinct values fed as `x, x, y, z` with limit 2 leave `[x, y]`. */
  lemma FillExample(path: string, x: Json, y: Json, z: Json)
    requires x != y && y != z && x != z
    ensures Fill(2, map[], path, [x, x, y, z])[path] == [x, y]
  {
    var vs := [x, x, y, z];
    DedupExample(x, y, z);
    FillFirstSeen(2, path, vs);
    assert Take(Dedup(vs), 2) == [x, y];
  }

  lemma DedupExample(x: Json, y: Json, z: Json)
    requires x != y && y != z && x != z
    ensures Dedup([x, x, y, z]) == [x, y, z]
  {
    DedupRepeatThen(x, y);
    DedupSnoc([x, x, y], z);
    assert [x, x, y] + [z] == [x, x, y, z];
  }

  lemma DedupRepeatThen(x: Json, y: Json)
    requires x != y
    ensures Dedup([x, x, y]) == [x, y]
  {
    DedupRepeat(x);
    DedupSnoc([x, x], y);
    assert [x, x] + [y] == [x, x, y];
  }

  lemma DedupRepeat(x: Json)
    ensures Dedup([x, x]) == [x]
  {
    DedupSnoc([x], x);
    assert [x] + [x] == [x, x];
  }

  /** The cache walk keeps both caches valid, never forgets a path or an example, and leaves the formats alone when detection is off. */
  lemma {:induction false} CollectPreserves(st: Settings, c: Caches, v: Json, path: string)
    requires CachesValid(st, c)
    ensures var r := Collect(st, c, v, path);
      CachesValid(st, r) && Extends(c, r) && (st.mode == Off ==> r.formats == c.formats)
    decreases v, 1
  {
    var c2 := Record(st, c, v, path);
    RecordPreserves(st, c, v, path);
    match v
    case Obj(fs) => CollectFieldsPreserves(st, c2, fs, path);
    case Arr(es) => CollectElemsPreserves(st, c2, es, path);
    case _ =>
  }

  /** Recording one node's example and format keeps the caches valid and only extends them. */
  lemma RecordPreserves(st: Settings, c: Caches, v: Json, path: string)
    requires CachesValid(st, c)
    ensures var c2 := Record(st, c, v, path);
      CachesValid(st, c2) && Extends(c, c2) && (st.mode == Off ==> c2.formats == c.formats)
  {
    AddedExampleValid(st.limit, c.examples, path, v);
  }

  lemma {:induction false} CollectFieldsPreserves(st: Settings, c: Caches, fs: seq<(string, Json)>, path: string)
    requires CachesValid(st, c)
    ensures var r := CollectFields(st, c, fs, path);
      CachesValid(st, r) && Extends(c, r) && (st.mode == Off ==> r.formats == c.formats)
    decreases fs, 0
  {
    if fs != [] {
      var last := fs[|fs| - 1];
      assert last.1 < last;
      CollectFieldsPreserves(st, c, fs[..|fs| - 1], path);
      CollectPreserves(st, CollectFields(st, c, fs[..|fs| - 1], path), last.1, FieldPath(path, last.0));
    }
  }

  lemma {:induction false} CollectElemsPreserves(st: Settings, c: Caches, es: seq<Json>, path: string)
    requires CachesValid(st, c)
    ensures var r := CollectElems(st, c, es, path);
      CachesValid(st, r) && Extends(c, r) && (st.mode == Off ==> r.formats == c.formats)
    decreases es, 0
  {
    if es != [] {
      CollectElemsPreserves(st, c, es[..|es| - 1], path);
      CollectPreserves(st, CollectElems(st, c, es[..|es| - 1], path), es[|es| - 1], IndexPath(path, |es| - 1));
    }
  }

  /** The paths `_process(v, path)` visits: `path` itself, then those of each child under its own path. */
  ghost function Visited(v: Json, path: string): set<string>
    decreases v, 1
  {
    {path} + match v
      case Obj(fs) => VisitedFields(fs, path)
      case Arr(es) => VisitedElems(es, path)
      case _ => {}
  }

  ghost function VisitedFields(fs: seq<(string, Json)>, path: string): set<string>
    decreases fs, 0
  {
    if fs == [] then {}
    else
      var last := fs[|fs| - 1];
      assert last.1 < last;
      VisitedFields(fs[..|fs| - 1], path) + Visited(last.1, FieldPath(path, last.0))
  }

  ghost function VisitedElems(es: seq<Json>, path: string): set<string>
    decreases es, 0
  {
    if es == [] then {}
    else VisitedElems(es[..|es| - 1], path) + Visited(es[|es| - 1], IndexPath(path, |es| - 1))
  }

  /** Every path of `ps` has a bucket, and it is not empty. */
  ghost predicate Filled(examples: map<string, seq<Json>>, ps: set<string>) {
    forall p :: p in ps ==> p in examples && examples[p] != []
  }

  /** Buckets only grow, so a filled path stays filled. */
  lemma FilledExtends(c1: Caches, c2: Caches, ps: set<string>)
    requires Filled(c1.examples, ps) && Extends(c1, c2)
    ensures Filled(c2.examples, ps)
  {
    forall p | p in ps
      ensures p in c2.examples && c2.examples[p] != []
    {
      assert |c1.examples[p]| <= |c2.examples[p]|;
    }
  }

  /**
   * With examples enabled, every path the walk visits, the root first of all,
   * ends up with a non-empty bucket, and no other path gets a new bucket.
   */
  lemma {:induction false} RecordsPath(st: Settings, c: Caches, v: Json, path: string)
    requires CachesValid(st, c) && st.limit > 0
    ensures var r := Collect(st, c, v, path);
      && path in r.examples && r.examples[path] != []
      && Filled(r.examples, Visited(v, path))
      && r.examples.Keys == c.examples.Keys + Visited(v, path)
    decreases v, 1
  {
    match v
    case Obj(fs) => RecordsObj(st, c, fs, path);
    case Arr(es) => RecordsArr(st, c, es, path);
    case _ =>
      RecordsRoot(st, c, v, path);
      assert Visited(v, path) == {path} && Collect(st, c, v, path) == Record(st, c, v, path);
  }

  lemma {:induction false} RecordsObj(st: Settings, c: Caches, fs: seq<(string, Json)>, path: string)
    requires CachesValid(st, c) && st.limit > 0
    ensures var r := Collect(st, c, Obj(fs), path);
      Filled(r.examples, Visited(Obj(fs), path)) && r.examples.Keys == c.examples.Keys + Visited(Obj(fs), path)
    decreases Obj(fs), 0
  {
    var c2 := Record(st, c, Obj(fs), path);
    RecordsRoot(st, c, Obj(fs), path);
    RecordPreserves(st, c, Obj(fs), path);
    var r := CollectFields(st, c2, fs, path);
    assert Collect(st, c, Obj(fs), path) == r;
    CollectFieldsPreserves(st, c2, fs, path);
    RecordsFields(st, c2, fs, path);
    FilledExtends(c2, r, {path});
    FilledUnion(r.examples, {path}, VisitedFields(fs, path));
    assert Visited(Obj(fs), path) == {path} + VisitedFields(fs, path);
  }

  lemma {:induction false} RecordsArr(st: Settings, c: Caches, es: seq<Json>, path: string)
    requires CachesValid(st, c) && st.limit > 0
    ensures var r := Collect(st, c, Arr(es), path);
      Filled(r.examples, Visited(Arr(es), path)) && r.examples.Keys == c.examples.Keys + Visited(Arr(es), path)
    decreases Arr(es), 0
  {
    var c2 := Record(st, c, Arr(es), path);
    RecordsRoot(st, c, Arr(es), path);
    RecordPreserves(st, c, Arr(es), path);
    var r := CollectElems(st, c2, es, path);
    assert Collect(st, c, Arr(es), path) == r;
    CollectElemsPreserves(st, c2, es, path);
    RecordsElems(st, c2, es, path);
    FilledExtends(c2, r, {path});
    FilledUnion(r.examples, {path}, VisitedElems(es, path));
    assert Visited(Arr(es), path) == {path} + VisitedElems(es, path);
  }

  lemma FilledUnion(examples: map<string, seq<Json>>, a: set<string>, b: set<string>)
    requires Filled(examples, a) && Filled(examples, b)
    ensures Filled(examples, a + b)
  {
  }

  /** Recording the node itself fills its own bucket and creates no other. */
  lemma RecordsRoot(st: Settings, c: Caches, v: Json, path: string)
    requires CachesValid(st, c) && st.limit > 0
    ensures var c2 := Record(st, c, v, path);
      Filled(c2.examples, {path}) && c2.examples.Keys == c.examples.Keys + {path}
  {
    if path in c.examples {
      assert |c.examples[path]| <= st.limit;
    }
  }

  lemma {:induction false} RecordsFields(st: Settings, c: Caches, fs: seq<(string, Json)>, path: string)
    requires CachesValid(st, c) && st.limit > 0
    ensures var r := CollectFields(st, c, fs, path);
      Filled(r.examples, VisitedFields(fs, path)) && r.examples.Keys == c.examples.Keys + VisitedFields(fs, path)
    decreases fs, 0
  {
    if fs != [] {
      var last := fs[|fs| - 1];
      assert last.1 < last;
      var c' := CollectFields(st, c, fs[..|fs| - 1], path);
      RecordsFields(st, c, fs[..|fs| - 1], path);
      CollectFieldsPreserves(st, c, fs[..|fs| - 1], path);
      RecordsPath(st, c', last.1, FieldPath(path, last.0));
      CollectPreserves(st, c', last.1, FieldPath(path, last.0));
      FilledExtends(c', Collect(st, c', last.1, FieldPath(path, last.0)), VisitedFields(fs[..|fs| - 1], path));
    }
  }

  lemma {:induction false} RecordsElems(st: Settings, c: Caches, es: seq<Json>, path: string)
    requires CachesValid(st, c) && st.limit > 0
    ensures var r := CollectElems(st, c, es, path);
      Filled(r.examples, VisitedElems(es, path)) && r.examples.Keys == c.examples.Keys + VisitedElems(es, path)
    decreases es, 0
  {
    if es != [] {
      var c' := CollectElems(st, c, es[..|es| - 1], path);
      var p := IndexPath(path, |es| - 1);
      RecordsElems(st, c, es[..|es| - 1], path);
      CollectElemsPreserves(st, c, es[..|es| - 1], path);
      RecordsPath(st, c', es[|es| - 1], p);
      CollectPreserves(st, c', es[|es| - 1], p);
      FilledExtends(c', Collect(st, c', es[|es| - 1], p), VisitedElems(es[..|es| - 1], path));
    }
  }

  /**
   * A string is filed under its path with exactly the tag the detector gives it,
   * and only when detection is on.
   */
  lemma StringFormat(st: Settings, c: Caches, s: string, path: string)
    ensures var r := Collect(st, c, Str(s), path);
      && (st.mode == Off || FormatDetector.DetectFormat(Str(s)).None? ==> r.formats == c.formats)
      && (st.mode != Off && FormatDetector.DetectFormat(Str(s)).Some? ==>
            r.formats == AddedFormat(c.formats, path, FormatDetector.DetectFormat(Str(s)).value))
  {
  }

  /** `f2` has the same format sets as `f1` at every path outside `ps`. */
  ghost predicate FormatsAgreeOutside(f1: map<string, set<string>>, f2: map<string, set<string>>, ps: set<string>) {
    forall p :: p !in ps ==> (p in f1 <==> p in f2) && (p in f1 ==> f1[p] == f2[p])
  }

  /**
   * A format is recorded for a string node only: a node that is not a string
   * leaves the format set of its own path as it was (and a scalar leaves every
   * set as it was), and the walk touches no path it does not visit.
   */
  lemma FormatsOnlyForStrings(st: Settings, c: Caches, v: Json, path: string)
    ensures var r := Collect(st, c, v, path);
      && (!v.Str? && !v.Obj? && !v.Arr? ==> r.formats == c.formats)
      && (!v.Str? ==> (path in r.formats <==> path in c.formats) && (path in c.formats ==> r.formats[path] == c.formats[path]))
      && FormatsAgreeOutside(c.formats, r.formats, Visited(v, path))
  {
    FormatsWithin(st, c, v, path);
    var c2 := Record(st, c, v, path);
    match v
    case Obj(fs) =>
      assert Collect(st, c, v, path) == CollectFields(st, c2, fs, path);
      FormatsWithinFields(st, c2, fs, path);
      VisitedFieldsLonger(fs, path);
    case Arr(es) =>
      assert Collect(st, c, v, path) == CollectElems(st, c2, es, path);
      FormatsWithinElems(st, c2, es, path);
      VisitedElemsLonger(es, path);
    case _ =>
  }

  lemma {:induction false} FormatsWithin(st: Settings, c: Caches, v: Json, path: string)
    ensures FormatsAgreeOutside(c.formats, Collect(st, c, v, path).formats, Visited(v, path))
    decreases v, 1
  {
    var c2 := Record(st, c, v, path);
    assert FormatsAgreeOutside(c.formats, c2.formats, {path});
    match v
    case Obj(fs) =>
      assert Collect(st, c, v, path) == CollectFields(st, c2, fs, path);
      FormatsWithinFields(st, c2, fs, path);
    case Arr(es) =>
      assert Collect(st, c, v, path) == CollectElems(st, c2, es, path);
      FormatsWithinElems(st, c2, es, path);
    case _ =>
  }

  lemma {:induction false} FormatsWithinFields(st: Settings, c: Caches, fs: seq<(string, Json)>, path: string)
    ensures FormatsAgreeOutside(c.formats, CollectFields(st, c, fs, path).formats, VisitedFields(fs, path))
    decreases fs, 0
  {
    if fs != [] {
      var last := fs[|fs| - 1];
      assert last.1 < last;
      FormatsWithinFields(st, c, fs[..|fs| - 1], path);
      FormatsWithin(st, CollectFields(st, c, fs[..|fs| - 1], path), last.1, FieldPath(path, last.0));
    }
  }

  lemma {:induction false} FormatsWithinElems(st: Settings, c: Caches, es: seq<Json>, path: string)
    ensures FormatsAgreeOutside(c.formats, CollectElems(st, c, es, path).formats, VisitedElems(es, path))
    decreases es, 0
  {
    if es != [] {
      FormatsWithinElems(st, c, es[..|es| - 1], path);
      FormatsWithin(st, CollectElems(st, c, es[..|es| - 1], path), es[|es| - 1], IndexPath(path, |es| - 1));
    }
  }

  /** Every visited path extends `path`; those of the children are strictly longer. */
  lemma {:induction false} VisitedLonger(v: Json, path: string)
    ensures forall p :: p in Visited(v, path) ==> |path| <= |p|
    decreases v, 1
  {
    match v
    case Obj(fs) => VisitedFieldsLonger(fs, path);
    case Arr(es) => VisitedElemsLonger(es, path);
    case _ =>
  }

  lemma {:induction false} VisitedFieldsLonger(fs: seq<(string, Json)>, path: string)
    ensures forall p :: p in VisitedFields(fs, path) ==> |path| < |p|
    decreases fs, 0
  {
    if fs != [] {
      var last := fs[|fs| - 1];
      assert last.1 < last;
      VisitedFieldsLonger(fs[..|fs| - 1], path);
      VisitedLonger(last.1, FieldPath(path, last.0));
    }
  }

  lemma {:induction false} VisitedElemsLonger(es: seq<Json>, path: string)
    ensures forall p :: p in VisitedElems(es, path) ==> |path| < |p|
    decreases es, 0
  {
    if es != [] {
      VisitedElemsLonger(es[..|es| - 1], path);
      VisitedLonger(es[|es| - 1], IndexPath(path, |es| - 1));
    }
  }

  // ------------------------------------------------------------ injection

  /** The element of a one-element set: `next(iter(s))`. */
  ghost function Sole(s: set<string>): (x: string)
    requires |s| == 1
    ensures s == {x}
  {
    var x :| x in s;
    assert |s - {x}| == 0;
    x
  }

  /** `format` is written only for a `string` node whose path saw exactly one format. */
  ghost predicate FormatApplies(st: Settings, c: Caches, fs: seq<(string, Json)>, path: string) {
    st.mode != Off && Get(fs, "type") == Some(Str("string")) && path in c.formats && |c.formats[path]| == 1
  }

  /** `examples` is written for any node whose path collected at least one example. */
  predicate ExamplesApply(st: Settings, c: Caches, path: string) {
    st.limit > 0 && path in c.examples && c.examples[path] != []
  }

  /** The node's own annotations: `format` first, then `examples`. */
  ghost function Annotated(st: Settings, c: Caches, fs: seq<(string, Json)>, path: string): seq<(string, Json)> {
    var f1 := if FormatApplies(st, c, fs, path) then Put(fs, "format", Str(Sole(c.formats[path]))) else fs;
    if ExamplesApply(st, c, path) then Put(f1, "examples", Arr(Take(c.examples[path], st.limit))) else f1
  }

  /**
   * `_inject_annotations(schema, path)` on a copy: a node that is not an object
   * is returned as it is.
   */
  ghost function Injected(st: Settings, c: Caches, s: Json, path: string): (r: Json)
    ensures r.Obj? <==> s.Obj?
    ensures !s.Obj? ==> r == s
    decreases s, 2
  {
    if !s.Obj? then s
    else Obj(InjectChildren(st, c, s, Annotated(st, c, s.fields, path), path))
  }

  /** The three descents, applied to `cur`, reading the children from the original node `s`. */
  ghost function InjectChildren(st: Settings, c: Caches, s: Json, cur: seq<(string, Json)>, path: string)
    : seq<(string, Json)>
    requires s.Obj?
    decreases s, 1
  {
    var c1 := InjectProperties(st, c, s, cur, path);
    var c2 := InjectItems(st, c, s, c1, path);
    InjectSubs(st, c, s, InjectSubs(st, c, s, InjectSubs(st, c, s, c2, "anyOf", path), "oneOf", path), "allOf", path)
  }

  predicate HasProperties(fs: seq<(string, Json)>) {
    Get(fs, "type") == Some(Str("object")) && Get(fs, "properties").Some? && Get(fs, "properties").value.Obj?
  }

  /** An `object` node's `properties`: each property schema at `path.name`. */
  ghost function InjectProperties(st: Settings, c: Caches, s: Json, cur: seq<(string, Json)>, path: string)
    : seq<(string, Json)>
    requires s.Obj?
    decreases s, 0
  {
    if HasProperties(s.fields) then
      GetBelow(s.fields, "properties");
      Put(cur, "properties", Obj(InjectNamed(st, c, Get(s.fields, "properties").value.fields, path)))
    else cur
  }

  ghost function InjectNamed(st: Settings, c: Caches, ps: seq<(string, Json)>, path: string): (r: seq<(string, Json)>)
    ensures |r| == |ps|
    ensures forall i :: 0 <= i < |ps| ==> r[i].0 == ps[i].0
    decreases ps, 0
  {
    if ps == [] then []
    else
      var last := ps[|ps| - 1];
      assert last.1 < last;
      InjectNamed(st, c, ps[..|ps| - 1], path) + [(last.0, Injected(st, c, last.1, FieldPath(path, last.0)))]
  }

  /** An `array` node's `items`: one schema at `path[0]`, or a list with the i-th at `path[i]`. */
  ghost function InjectItems(st: Settings, c: Caches, s: Json, cur: seq<(string, Json)>, path: string)
    : seq<(string, Json)>
    requires s.Obj?
    decreases s, 0
  {
    var items := Get(s.fields, "items");
    if Get(s.fields, "type") == Some(Str("array")) && items.Some? then
      GetBelow(s.fields, "items");
      match items.value
      case Obj(_) => Put(cur, "items", Injected(st, c, items.value, IndexPath(path, 0)))
      case Arr(es) => Put(cur, "items", Arr(InjectIndexed(st, c, es, path)))
      case _ => cur
    else cur
  }

  ghost function InjectIndexed(st: Settings, c: Caches, es: seq<Json>, path: string): (r: seq<Json>)
    ensures |r| == |es|
    decreases es, 0
  {
    if es == [] then []
    else InjectIndexed(st, c, es[..|es| - 1], path) + [Injected(st, c, es[|es| - 1], IndexPath(path, |es| - 1))]
  }

  /** `anyOf` / `oneOf` / `allOf`: every alternative at the node's own path. */
  ghost function InjectSubs(st: Settings, c: Caches, s: Json, cur: seq<(string, Json)>, keyword: string, path: string)
    : seq<(string, Json)>
    requires s.Obj?
    decreases s, 0
  {
    var subs := Get(s.fields, keyword);
    if subs.Some? && subs.value.Arr? then
      GetBelow(s.fields, keyword);
      Put(cur, keyword, Arr(InjectSame(st, c, subs.value.elems, path)))
    else cur
  }

  ghost function InjectSame(st: Settings, c: Caches, es: seq<Json>, path: string): (r: seq<Json>)
    ensures |r| == |es|
    decreases es, 0
  {
    if es == [] then []
    else InjectSame(st, c, es[..|es| - 1], path) + [Injected(st, c, es[|es| - 1], path)]
  }

  // ------------------------------------------------------------ properties of the injection

  /** The keys the walk may write at a node. */
  const Descents: set<string> := {"properties", "items", "anyOf", "oneOf", "allOf"}
  const Touched: set<string> := {"format", "examples"} + Descents

  lemma {:induction false} NamedAt(st: Settings, c: Caches, ps: seq<(string, Json)>, path: string)
    ensures var r := InjectNamed(st, c, ps, path);
      forall i :: 0 <= i < |ps| ==> r[i] == (ps[i].0, Injected(st, c, ps[i].1, FieldPath(path, ps[i].0)))
    decreases |ps|
  {
    if ps != [] {
      NamedAt(st, c, ps[..|ps| - 1], path);
    }
  }

  lemma {:induction false} IndexedAt(st: Settings, c: Caches, es: seq<Json>, path: string)
    ensures var r := InjectIndexed(st, c, es, path);
      forall i :: 0 <= i < |es| ==> r[i] == Injected(st, c, es[i], IndexPath(path, i))
    decreases |es|
  {
    if es != [] {
      IndexedAt(st, c, es[..|es| - 1], path);
    }
  }

  lemma {:induction false} SameAt(st: Settings, c: Caches, es: seq<Json>, path: string)
    ensures var r := InjectSame(st, c, es, path);
      forall i :: 0 <= i < |es| ==> r[i] == Injected(st, c, es[i], path)
    decreases |es|
  {
    if es != [] {
      SameAt(st, c, es[..|es| - 1], path);
    }
  }

  lemma PropertiesStage(st: Settings, c: Caches, s: Json, cur: seq<(string, Json)>, path: string)
    requires s.Obj?
    ensures var r := InjectProperties(st, c, s, cur, path);
      && (forall k :: k != "properties" ==> Get(r, k) == Get(cur, k))
      && Keys(r) <= Keys(cur) + Keys(s.fields)
  {
    if HasProperties(s.fields) {
      assert "properties" in Keys(s.fields);
    }
  }

  lemma ItemsStage(st: Settings, c: Caches, s: Json, cur: seq<(string, Json)>, path: string)
    requires s.Obj?
    ensures var r := InjectItems(st, c, s, cur, path);
      && (forall k :: k != "items" ==> Get(r, k) == Get(cur, k))
      && Keys(r) <= Keys(cur) + Keys(s.fields)
  {
    if Get(s.fields, "items").Some? {
      assert "items" in Keys(s.fields);
    }
  }

  lemma SubsStage(st: Settings, c: Caches, s: Json, cur: seq<(string, Json)>, keyword: string, path: string)
    requires s.Obj?
    ensures var r := InjectSubs(st, c, s, cur, keyword, path);
      && (forall k :: k != keyword ==> Get(r, k) == Get(cur, k))
      && Keys(r) <= Keys(cur) + Keys(s.fields)
  {
    if Get(s.fields, keyword).Some? {
      assert keyword in Keys(s.fields);
    }
  }

  /** The descents write only their own keys. */
  lemma ChildrenStages(st: Settings, c: Caches, s: Json, cur: seq<(string, Json)>, path: string)
    requires s.Obj?
    ensures forall k :: k !in Descents ==> Get(InjectChildren(st, c, s, cur, path), k) == Get(cur, k)
  {
    var c1 := InjectProperties(st, c, s, cur, path);
    var c2 := InjectItems(st, c, s, c1, path);
    var c3 := InjectSubs(st, c, s, c2, "anyOf", path);
    var c4 := InjectSubs(st, c, s, c3, "oneOf", path);
    PropertiesStage(st, c, s, cur, path);
    ItemsStage(st, c, s, c1, path);
    SubsStage(st, c, s, c2, "anyOf", path);
    SubsStage(st, c, s, c3, "oneOf", path);
    SubsStage(st, c, s, c4, "allOf", path);
  }

  /** The descents write only keys the node already has. */
  lemma ChildrenKeys(st: Settings, c: Caches, s: Json, cur: seq<(string, Json)>, path: string)
    requires s.Obj?
    ensures Keys(InjectChildren(st, c, s, cur, path)) <= Keys(cur) + Keys(s.fields)
  {
    var c1 := InjectProperties(st, c, s, cur, path);
    var c2 := InjectItems(st, c, s, c1, path);
    var c3 := InjectSubs(st, c, s, c2, "anyOf", path);
    var c4 := InjectSubs(st, c, s, c3, "oneOf", path);
    PropertiesStage(st, c, s, cur, path);
    ItemsStage(st, c, s, c1, path);
    SubsStage(st, c, s, c2, "anyOf", path);
    SubsStage(st, c, s, c3, "oneOf", path);
    SubsStage(st, c, s, c4, "allOf", path);
  }

  /** Under `properties` the children's walk leaves what the properties descent wrote. */
  lemma ChildProperties(st: Settings, c: Caches, s: Json, cur: seq<(string, Json)>, path: string)
    requires s.Obj?
    ensures Get(InjectChildren(st, c, s, cur, path), "properties") == Get(InjectProperties(st, c, s, cur, path), "properties")
  {
    var c1 := InjectProperties(st, c, s, cur, path);
    var c2 := InjectItems(st, c, s, c1, path);
    var c3 := InjectSubs(st, c, s, c2, "anyOf", path);
    var c4 := InjectSubs(st, c, s, c3, "oneOf", path);
    ItemsStage(st, c, s, c1, path);
    SubsStage(st, c, s, c2, "anyOf", path);
    SubsStage(st, c, s, c3, "oneOf", path);
    SubsStage(st, c, s, c4, "allOf", path);
  }

  /** Under `items` the children's walk leaves what the items descent alone would write. */
  lemma ChildItems(st: Settings, c: Caches, s: Json, cur: seq<(string, Json)>, path: string)
    requires s.Obj?
    ensures Get(InjectChildren(st, c, s, cur, path), "items") == Get(InjectItems(st, c, s, cur, path), "items")
  {
    var c1 := InjectProperties(st, c, s, cur, path);
    var c2 := InjectItems(st, c, s, c1, path);
    var c3 := InjectSubs(st, c, s, c2, "anyOf", path);
    var c4 := InjectSubs(st, c, s, c3, "oneOf", path);
    PropertiesStage(st, c, s, cur, path);
    ItemsStage(st, c, s, c1, path);
    ItemsStage(st, c, s, cur, path);
    SubsStage(st, c, s, c2, "anyOf", path);
    SubsStage(st, c, s, c3, "oneOf", path);
    SubsStage(st, c, s, c4, "allOf", path);
  }

  /** What a combinator descent leaves under its own keyword depends only on the node and that key's old value. */
  lemma SubsOwnKey(st: Settings, c: Caches, s: Json, cur: seq<(string, Json)>, other: seq<(string, Json)>, keyword: string, path: string)
    requires s.Obj? && Get(cur, keyword) == Get(other, keyword)
    ensures Get(InjectSubs(st, c, s, cur, keyword, path), keyword) == Get(InjectSubs(st, c, s, other, keyword, path), keyword)
  {
  }

  /** Under each combinator keyword the children's walk leaves what that descent alone would write. */
  lemma ChildAnyOf(st: Settings, c: Caches, s: Json, cur: seq<(string, Json)>, path: string)
    requires s.Obj?
    ensures Get(InjectChildren(st, c, s, cur, path), "anyOf") == Get(InjectSubs(st, c, s, cur, "anyOf", path), "anyOf")
  {
    var c1 := InjectProperties(st, c, s, cur, path);
    var c2 := InjectItems(st, c, s, c1, path);
    var c3 := InjectSubs(st, c, s, c2, "anyOf", path);
    var c4 := InjectSubs(st, c, s, c3, "oneOf", path);
    PropertiesStage(st, c, s, cur, path);
    ItemsStage(st, c, s, c1, path);
    SubsOwnKey(st, c, s, c2, cur, "anyOf", path);
    SubsStage(st, c, s, c3, "oneOf", path);
    SubsStage(st, c, s, c4, "allOf", path);
  }

  lemma ChildOneOf(st: Settings, c: Caches, s: Json, cur: seq<(string, Json)>, path: string)
    requires s.Obj?
    ensures Get(InjectChildren(st, c, s, cur, path), "oneOf") == Get(InjectSubs(st, c, s, cur, "oneOf", path), "oneOf")
  {
    var c1 := InjectProperties(st, c, s, cur, path);
    var c2 := InjectItems(st, c, s, c1, path);
    var c3 := InjectSubs(st, c, s, c2, "anyOf", path);
    var c4 := InjectSubs(st, c, s, c3, "oneOf", path);
    PropertiesStage(st, c, s, cur, path);
    ItemsStage(st, c, s, c1, path);
    SubsStage(st, c, s, c2, "anyOf", path);
    SubsOwnKey(st, c, s, c3, cur, "oneOf", path);
    SubsStage(st, c, s, c4, "allOf", path);
  }

  lemma ChildAllOf(st: Settings, c: Caches, s: Json, cur: seq<(string, Json)>, path: string)
    requires s.Obj?
    ensures Get(InjectChildren(st, c, s, cur, path), "allOf") == Get(InjectSubs(st, c, s, cur, "allOf", path), "allOf")
  {
    var c1 := InjectProperties(st, c, s, cur, path);
    var c2 := InjectItems(st, c, s, c1, path);
    var c3 := InjectSubs(st, c, s, c2, "anyOf", path);
    var c4 := InjectSubs(st, c, s, c3, "oneOf", path);
    PropertiesStage(st, c, s, cur, path);
    ItemsStage(st, c, s, c1, path);
    SubsStage(st, c, s, c2, "anyOf", path);
    SubsStage(st, c, s, c3, "oneOf", path);
    SubsOwnKey(st, c, s, c4, cur, "allOf", path);
  }

  lemma AnnotatedStage(st: Settings, c: Caches, fs: seq<(string, Json)>, path: string)
    ensures var a := Annotated(st, c, fs, path);
      && Get(a, "format") == (if FormatApplies(st, c, fs, path) then Some(Str(Sole(c.formats[path]))) else Get(fs, "format"))
      && Get(a, "examples") == (if ExamplesApply(st, c, path) then Some(Arr(Take(c.examples[path], st.limit))) else Get(fs, "examples"))
      && (forall k :: k !in {"format", "examples"} ==> Get(a, k) == Get(fs, k))
      && Keys(a) <= Keys(fs) + {"format", "examples"}
  {
  }

  /** What the walk leaves under `properties` is what the properties descent alone writes over the node's own entry. */
  lemma DescentProperties(st: Settings, c: Caches, s: Json, path: string)
    requires s.Obj?
    ensures var a := Annotated(st, c, s.fields, path);
      && Get(a, "properties") == Get(s.fields, "properties")
      && Get(Injected(st, c, s, path).fields, "properties") == Get(InjectProperties(st, c, s, a, path), "properties")
  {
    var a := Annotated(st, c, s.fields, path);
    AnnotatedStage(st, c, s.fields, path);
    ChildProperties(st, c, s, a, path);
  }

  /** The same for `items`. */
  lemma DescentItems(st: Settings, c: Caches, s: Json, path: string)
    requires s.Obj?
    ensures var a := Annotated(st, c, s.fields, path);
      && Get(a, "items") == Get(s.fields, "items")
      && Get(Injected(st, c, s, path).fields, "items") == Get(InjectItems(st, c, s, a, path), "items")
  {
    var a := Annotated(st, c, s.fields, path);
    AnnotatedStage(st, c, s.fields, path);
    ChildItems(st, c, s, a, path);
  }

  /** The same for each combinator keyword. */
  lemma DescentSubs(st: Settings, c: Caches, s: Json, path: string, keyword: string)
    requires s.Obj? && keyword in {"anyOf", "oneOf", "allOf"}
    ensures var a := Annotated(st, c, s.fields, path);
      && Get(a, keyword) == Get(s.fields, keyword)
      && Get(Injected(st, c, s, path).fields, keyword) == Get(InjectSubs(st, c, s, a, keyword, path), keyword)
  {
    var a := Annotated(st, c, s.fields, path);
    AnnotatedStage(st, c, s.fields, path);
    if keyword == "anyOf" {
      ChildAnyOf(st, c, s, a, path);
    } else if keyword == "oneOf" {
      ChildOneOf(st, c, s, a, path);
    } else {
      ChildAllOf(st, c, s, a, path);
    }
  }

  /**
   * At a node: `format` is set to the single detected format of a `string` node,
   * `examples` to the first `limit` collected examples, and every key the walk
   * does not write keeps its value.
   */
  lemma InjectedAnnotations(st: Settings, c: Caches, s: Json, path: string)
    requires s.Obj?
    ensures var r := Injected(st, c, s, path).fields;
      && Get(r, "format") == (if FormatApplies(st, c, s.fields, path) then Some(Str(Sole(c.formats[path]))) else Get(s.fields, "format"))
      && Get(r, "examples") == (if ExamplesApply(st, c, path) then Some(Arr(Take(c.examples[path], st.limit))) else Get(s.fields, "examples"))
      && (forall k :: k !in Touched ==> Get(r, k) == Get(s.fields, k))
      && Keys(r) <= Keys(s.fields) + {"format", "examples"}
  {
    var a := Annotated(st, c, s.fields, path);
    AnnotatedStage(st, c, s.fields, path);
    ChildrenStages(st, c, s, a, path);
    ChildrenKeys(st, c, s, a, path);
    assert "format" !in Descents && "examples" !in Descents;
    assert forall k :: k !in Touched ==> k !in Descents && k !in {"format", "examples"};
  }

  /** Two different formats seen at one path: no `format` is written there. */
  lemma FormatConflict(st: Settings, c: Caches, s: Json, path: string)
    requires s.Obj? && path in c.formats && |c.formats[path]| >= 2
    ensures Get(Injected(st, c, s, path).fields, "format") == Get(s.fields, "format")
  {
    InjectedAnnotations(st, c, s, path);
  }

  /** Detection off: no `format` is ever written, whatever the cache holds. */
  lemma FormatOff(st: Settings, c: Caches, s: Json, path: string)
    requires s.Obj? && st.mode == Off
    ensures Get(Injected(st, c, s, path).fields, "format") == Get(s.fields, "format")
  {
    InjectedAnnotations(st, c, s, path);
  }

  /** A written `format` is the one tag the detector returned for that path. */
  lemma FormatIsDetected(st: Settings, c: Caches, s: Json, path: string)
    requires s.Obj? && CachesValid(st, c) && FormatApplies(st, c, s.fields, path)
    ensures var f := Get(Injected(st, c, s, path).fields, "format");
      f.Some? && f.value.Str? && c.formats[path] == {f.value.s} && FormatDetector.IsTag(f.value.s)
  {
    InjectedAnnotations(st, c, s, path);
  }

  /** Written `examples` are 1 to `limit` distinct values, in the order they were first collected. */
  lemma ExamplesEmitted(st: Settings, c: Caches, s: Json, path: string)
    requires s.Obj? && CachesValid(st, c) && ExamplesApply(st, c, path)
    ensures var e := Get(Injected(st, c, s, path).fields, "examples");
      && e.Some? && e.value.Arr?
      && 1 <= |e.value.elems| <= st.limit
      && e.value.elems <= c.examples[path]
      && NoDups(e.value.elems)
  {
    InjectedAnnotations(st, c, s, path);
    var xs := c.examples[path];
    var e := Take(xs, st.limit);
    assert e == xs;
  }

  /** An `object` node's properties keep their names and order; each is walked at `path.name`. */
  lemma InjectedProperties(st: Settings, c: Caches, s: Json, path: string)
    requires s.Obj?
    ensures var r := Injected(st, c, s, path).fields;
      if HasProperties(s.fields) then
        var ps := Get(s.fields, "properties").value.fields;
        && Get(r, "properties").Some? && Get(r, "properties").value.Obj?
        && var qs := Get(r, "properties").value.fields;
        && |qs| == |ps|
        && forall i :: 0 <= i < |ps| ==> qs[i] == (ps[i].0, Injected(st, c, ps[i].1, FieldPath(path, ps[i].0)))
      else Get(r, "properties") == Get(s.fields, "properties")
  {
    DescentProperties(st, c, s, path);
    if HasProperties(s.fields) {
      NamedAt(st, c, Get(s.fields, "properties").value.fields, path);
    }
  }

  /** An `array` node's `items`: a single schema is walked at `path[0]`, a list element-wise at `path[i]`. */
  lemma InjectedItems(st: Settings, c: Caches, s: Json, path: string)
    requires s.Obj?
    ensures var r := Injected(st, c, s, path).fields;
      var items := Get(s.fields, "items");
      if Get(s.fields, "type") == Some(Str("array")) && items.Some? && items.value.Obj? then
        Get(r, "items") == Some(Injected(st, c, items.value, path + "[0]"))
      else if Get(s.fields, "type") == Some(Str("array")) && items.Some? && items.value.Arr? then
        && Get(r, "items").Some? && Get(r, "items").value.Arr?
        && |Get(r, "items").value.elems| == |items.value.elems|
        && forall i :: 0 <= i < |items.value.elems| ==>
             Get(r, "items").value.elems[i] == Injected(st, c, items.value.elems[i], IndexPath(path, i))
      else Get(r, "items") == Get(s.fields, "items")
  {
    DescentItems(st, c, s, path);
    ItemsDescent(st, c, s, Annotated(st, c, s.fields, path), path);
  }

  lemma ItemsDescent(st: Settings, c: Caches, s: Json, cur: seq<(string, Json)>, path: string)
    requires s.Obj?
    ensures var r := InjectItems(st, c, s, cur, path);
      var items := Get(s.fields, "items");
      if Get(s.fields, "type") == Some(Str("array")) && items.Some? && items.value.Obj? then
        Get(r, "items") == Some(Injected(st, c, items.value, path + "[0]"))
      else if Get(s.fields, "type") == Some(Str("array")) && items.Some? && items.value.Arr? then
        && Get(r, "items").Some? && Get(r, "items").value.Arr?
        && |Get(r, "items").value.elems| == |items.value.elems|
        && forall i :: 0 <= i < |items.value.elems| ==>
             Get(r, "items").value.elems[i] == Injected(st, c, items.value.elems[i], IndexPath(path, i))
      else Get(r, "items") == Get(cur, "items")
  {
    var items := Get(s.fields, "items");
    if Get(s.fields, "type") == Some(Str("array")) && items.Some? {
      match items.value
      case Obj(_) =>
        assert IndexPath(path, 0) == path + "[0]";
      case Arr(es) =>
        IndexedAt(st, c, es, path);
      case _ =>
    }
  }

  /** `anyOf`, `oneOf` and `allOf` alternatives are each walked at the node's own path. */
  lemma InjectedSubs(st: Settings, c: Caches, s: Json, path: string, keyword: string)
    requires s.Obj? && keyword in {"anyOf", "oneOf", "allOf"}
    ensures var r := Injected(st, c, s, path).fields;
      var subs := Get(s.fields, keyword);
      if subs.Some? && subs.value.Arr? then
        && Get(r, keyword).Some? && Get(r, keyword).value.Arr?
        && |Get(r, keyword).value.elems| == |subs.value.elems|
        && forall i :: 0 <= i < |subs.value.elems| ==>
             Get(r, keyword).value.elems[i] == Injected(st, c, subs.value.elems[i], path)
      else Get(r, keyword) == Get(s.fields, keyword)
  {
    DescentSubs(st, c, s, path, keyword);
    var subs := Get(s.fields, keyword);
    if subs.Some? && subs.value.Arr? {
      SameAt(st, c, subs.value.elems, path);
    }
  }

  /**
   * Safe mode keeps an existing `$schema`, otherwise declares draft 2020-12, and
   * sets `$vocabulary` so that formats are annotations and never assertions; the
   * other modes leave both keys as the base schema had them.
   */
  lemma SafeModeRoot(st: Settings, c: Caches, base: seq<(string, Json)>)
    ensures var r := Injected(st, c, Obj(SafeBlock(st.mode, base)), "root").fields;
      if st.mode == Safe then
        && Get(r, "$schema") == (if "$schema" in Keys(base) then Get(base, "$schema") else Some(Str(Draft202012)))
        && Get(r, "$vocabulary") == Some(Vocabulary())
        && Get(Vocabulary().fields, VocabPrefix + "format-assertion") == Some(Bool(false))
        && Get(Vocabulary().fields, VocabPrefix + "format-annotation") == Some(Bool(true))
      else
        Get(r, "$schema") == Get(base, "$schema") && Get(r, "$vocabulary") == Get(base, "$vocabulary")
  {
    var root := Obj(SafeBlock(st.mode, base));
    InjectedAnnotations(st, c, root, "root");
    assert "$schema" !in Touched && "$vocabulary" !in Touched;
    SafeBlockKeys(st.mode, base);
    VocabularyFlags();
  }

  /** The two format flags of the vocabulary the safe mode declares. */
  lemma VocabularyFlags()
    ensures Get(Vocabulary().fields, VocabPrefix + "format-assertion") == Some(Bool(false))
    ensures Get(Vocabulary().fields, VocabPrefix + "format-annotation") == Some(Bool(true))
  {
    var vs := Vocabulary().fields;
    FindIs(vs, VocabPrefix + "format-assertion", 5);
    FindIs(vs, VocabPrefix + "format-annotation", 4);
  }

  /** The root keys the safe block writes, before the walk. */
  lemma SafeBlockKeys(mode: FormatMode, base: seq<(string, Json)>)
    ensures var b := SafeBlock(mode, base);
      if mode == Safe then
        && Get(b, "$schema") == (if "$schema" in Keys(base) then Get(base, "$schema") else Some(Str(Draft202012)))
        && Get(b, "$vocabulary") == Some(Vocabulary())
      else
        b == base
  {
  }

}
