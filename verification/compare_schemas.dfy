/**
 * The structural schema differ of the typed snapshot tool (`SchemaComparator`):
 * a lock-step walk over the root `properties` trees of two schema documents that
 * lists `(path, old, new)` entries, and the rendering of those entries as text.
 */
module CompareSchemas {
  import opened Wrappers
  import opened Text
  import opened JsonValues

  /** One difference; a side the key is missing from holds `Null`, as Python's `None` does. */
  datatype Diff = Diff(path: seq<string>, before: Json, after: Json)

  // ------------------------------------------------------------ finding differences

  /** Both sides are lists, or both are dicts: the inputs `_find_differences` can walk. */
  predicate Walkable(before: Json, after: Json) {
    (before.Arr? && after.Arr?) || (before.Obj? && after.Obj?)
  }

  /** The keys of either dict, each once: those of the old dict first, then the new ones. */
  function UnionKeys(of: seq<(string, Json)>, nf: seq<(string, Json)>): (ks: seq<string>)
    ensures NoDups(ks)
    ensures forall k :: k in ks <==> k in Keys(of) || k in Keys(nf)
  {
    KeyListKeys(of);
    KeyListKeys(nf);
    var ks := Dedup(KeyList(of) + KeyList(nf));
    assert forall k :: k in ks <==> k in KeyList(of) + KeyList(nf) by {
      forall k ensures k in ks <==> k in KeyList(of) + KeyList(nf) {
        DedupMember(KeyList(of) + KeyList(nf), k);
      }
    }
    ks
  }

  /** `_find_differences(old, new, path)`: the entries found below `path`, in walk order. */
  function Differences(before: Json, after: Json, path: seq<string>): (r: seq<Diff>)
    requires Walkable(before, after)
    ensures before.Arr? ==> |r| <= 1 && (r == [] <==> before == after)
    decreases before, 2, 0
  {
    if before.Arr? then
      if before != after then [Diff(path, before, after)] else []
    else
      KeyDifferences(before.fields, after.fields, UnionKeys(before.fields, after.fields), path)
  }

  /** The entries for the keys `keys`, visited in order. */
  function KeyDifferences(of: seq<(string, Json)>, nf: seq<(string, Json)>, keys: seq<string>, path: seq<string>)
    : seq<Diff>
    requires forall k :: k in keys ==> k in Keys(of) || k in Keys(nf)
    decreases Obj(of), 1, |keys|
  {
    if keys == [] then []
    else
      var k := keys[|keys| - 1];
      KeyDifferences(of, nf, keys[..|keys| - 1], path) + EntryDifferences(of, nf, k, path)
  }

  /**
   * The entries for one key: an added or a removed key gives one entry, two dicts
   * are walked recursively, any other pair gives an entry exactly when it differs.
   */
  function EntryDifferences(of: seq<(string, Json)>, nf: seq<(string, Json)>, k: string, path: seq<string>)
    : seq<Diff>
    requires k in Keys(of) || k in Keys(nf)
    decreases Obj(of), 0, 0
  {
    var here := path + [k];
    var ov, nv := Get(of, k), Get(nf, k);
    if ov.None? then [Diff(here, Null, nv.value)]
    else if nv.None? then [Diff(here, ov.value, Null)]
    else if ov.value.Obj? && nv.value.Obj? then
      GetBelow(of, k);
      Differences(ov.value, nv.value, here)
    else if ov.value != nv.value then [Diff(here, ov.value, nv.value)]
    else []
  }

  /** `_find_differences`: collects the entries in a list while walking both dicts. */
  method FindDifferences(before: Json, after: Json, path: seq<string>) returns (diffs: seq<Diff>)
    requires Walkable(before, after)
    ensures diffs == Differences(before, after, path)
    decreases before, 2
  {
    diffs := [];
    if before.Arr? && after.Arr? {
      if before != after {
        diffs := diffs + [Diff(path, before, after)];
      }
      return;
    }
    var of, nf := before.fields, after.fields;
    var keys := UnionKeys(of, nf);
    for i := 0 to |keys|
      invariant diffs == KeyDifferences(of, nf, keys[..i], path)
    {
      var key := keys[i];
      assert keys[..i + 1][..i] == keys[..i];
      var here := path + [key];
      var ov, nv := Get(of, key), Get(nf, key);
      if ov.None? {
        diffs := diffs + [Diff(here, Null, nv.value)];
      } else if nv.None? {
        diffs := diffs + [Diff(here, ov.value, Null)];
      } else if ov.value.Obj? && nv.value.Obj? {
        GetBelow(of, key);
        var nested := FindDifferences(ov.value, nv.value, here);
        diffs := diffs + nested;
      } else if ov.value != nv.value {
        diffs := diffs + [Diff(here, ov.value, nv.value)];
      }
    }
    assert keys[..|keys|] == keys;
  }

  // ------------------------------------------------------------ properties of the walk

  /** Walking a value against itself finds nothing. */
  lemma {:induction false} NoDifferencesWhenEqual(v: Json, path: seq<string>)
    requires Walkable(v, v)
    ensures Differences(v, v, path) == []
    decreases v, 2, 0
  {
    if v.Obj? {
      KeyNoDifferences(v.fields, UnionKeys(v.fields, v.fields), path);
    }
  }

  lemma {:induction false} KeyNoDifferences(fs: seq<(string, Json)>, keys: seq<string>, path: seq<string>)
    requires forall k :: k in keys ==> k in Keys(fs)
    ensures KeyDifferences(fs, fs, keys, path) == []
    decreases Obj(fs), 1, |keys|
  {
    if keys != [] {
      var k := keys[|keys| - 1];
      KeyNoDifferences(fs, keys[..|keys| - 1], path);
      var v := Get(fs, k).value;
      if v.Obj? {
        GetBelow(fs, k);
        NoDifferencesWhenEqual(v, path + [k]);
      }
    }
  }

  /**
   * Every entry's path extends the path the walk started from; below a dict it is
   * strictly longer and continues with one of the two dicts' keys.
   */
  lemma {:induction false} DifferencesExtendPath(before: Json, after: Json, path: seq<string>)
    requires Walkable(before, after)
    ensures forall d :: d in Differences(before, after, path) ==> path <= d.path
    ensures before.Obj? ==> forall d :: d in Differences(before, after, path) ==>
      |path| < |d.path| && (d.path[|path|] in Keys(before.fields) || d.path[|path|] in Keys(after.fields))
    decreases before, 2, 0
  {
    if before.Obj? {
      KeyDifferencesPaths(before.fields, after.fields, UnionKeys(before.fields, after.fields), path);
    }
  }

  lemma {:induction false} KeyDifferencesPaths(
    of: seq<(string, Json)>, nf: seq<(string, Json)>, keys: seq<string>, path: seq<string>)
    requires forall k :: k in keys ==> k in Keys(of) || k in Keys(nf)
    ensures forall d :: d in KeyDifferences(of, nf, keys, path) ==>
      path <= d.path && |path| < |d.path| && d.path[|path|] in keys
    decreases Obj(of), 1, |keys|
  {
    if keys != [] {
      var k := keys[|keys| - 1];
      KeyDifferencesPaths(of, nf, keys[..|keys| - 1], path);
      EntryDifferencesPaths(of, nf, k, path);
    }
  }

  lemma {:induction false} EntryDifferencesPaths(of: seq<(string, Json)>, nf: seq<(string, Json)>, k: string, path: seq<string>)
    requires k in Keys(of) || k in Keys(nf)
    ensures forall d :: d in EntryDifferences(of, nf, k, path) ==> path + [k] <= d.path
    decreases Obj(of), 0, 0
  {
    var ov, nv := Get(of, k), Get(nf, k);
    if ov.Some? && nv.Some? && ov.value.Obj? && nv.value.Obj? {
      GetBelow(of, k);
      DifferencesExtendPath(ov.value, nv.value, path + [k]);
    }
  }

  /** The entries whose path continues from the first `n` segments with `k`. */
  function Under(ds: seq<Diff>, n: nat, k: string): (r: seq<Diff>)
    ensures forall d :: d in r <==> d in ds && n < |d.path| && d.path[n] == k
  {
    if ds == [] then []
    else
      var rest := Under(ds[..|ds| - 1], n, k);
      var d := ds[|ds| - 1];
      assert ds == ds[..|ds| - 1] + [d];
      if n < |d.path| && d.path[n] == k then rest + [d] else rest
  }

  lemma {:induction false} UnderAppend(xs: seq<Diff>, ys: seq<Diff>, n: nat, k: string)
    ensures Under(xs + ys, n, k) == Under(xs, n, k) + Under(ys, n, k)
    decreases |ys|
  {
    if ys != [] {
      var zs := ys[..|ys| - 1];
      assert (xs + ys)[..|xs + ys| - 1] == xs + zs;
      assert (xs + ys)[|xs + ys| - 1] == ys[|ys| - 1];
      UnderAppend(xs, zs, n, k);
    } else {
      assert xs + ys == xs;
    }
  }

  lemma {:induction false} UnderAll(ds: seq<Diff>, n: nat, k: string)
    requires forall d :: d in ds ==> n < |d.path| && d.path[n] == k
    ensures Under(ds, n, k) == ds
  {
    if ds != [] {
      assert forall d :: d in ds[..|ds| - 1] ==> d in ds;
      UnderAll(ds[..|ds| - 1], n, k);
    }
  }

  lemma UnderNone(ds: seq<Diff>, n: nat, k: string)
    requires forall d :: d in ds ==> n < |d.path| && d.path[n] != k
    ensures Under(ds, n, k) == []
  {
  }

  lemma {:induction false} KeyDifferencesUnder(
    of: seq<(string, Json)>, nf: seq<(string, Json)>, keys: seq<string>, path: seq<string>, k: string)
    requires forall k' :: k' in keys ==> k' in Keys(of) || k' in Keys(nf)
    requires NoDups(keys)
    ensures Under(KeyDifferences(of, nf, keys, path), |path|, k)
      == if k in keys then EntryDifferences(of, nf, k, path) else []
  {
    if keys != [] {
      var last := keys[|keys| - 1];
      var init := keys[..|keys| - 1];
      assert keys == init + [last];
      KeyDifferencesUnder(of, nf, init, path, k);
      UnderAppend(KeyDifferences(of, nf, init, path), EntryDifferences(of, nf, last, path), |path|, k);
      EntryUnder(of, nf, last, path, k);
      if last == k {
        assert k !in init;
      }
    }
  }

  /** The entries reported for one key all sit under that key, and under no other. */
  lemma EntryUnder(of: seq<(string, Json)>, nf: seq<(string, Json)>, key: string, path: seq<string>, k: string)
    requires key in Keys(of) || key in Keys(nf)
    ensures Under(EntryDifferences(of, nf, key, path), |path|, k)
      == if key == k then EntryDifferences(of, nf, key, path) else []
  {
    var e := EntryDifferences(of, nf, key, path);
    EntryDifferencesPaths(of, nf, key, path);
    assert forall d :: d in e ==> |path| < |d.path| && d.path[|path|] == key by {
      forall d | d in e ensures |path| < |d.path| && d.path[|path|] == key {
        assert (path + [key])[|path|] == key;
      }
    }
    if key == k {
      UnderAll(e, |path|, k);
    } else {
      UnderNone(e, |path|, k);
    }
  }

  /**
   * The entries the walk of two dicts reports under one key: an added key gives one
   * entry with `None` as the old value, a removed key one with `None` as the new
   * value, two dicts are compared recursively, any other pair gives one entry
   * exactly when the values differ, and a key neither dict holds gives nothing.
   */
  lemma DifferencesUnderKey(of: seq<(string, Json)>, nf: seq<(string, Json)>, path: seq<string>, k: string)
    ensures var ds := Under(Differences(Obj(of), Obj(nf), path), |path|, k);
      var ov, nv := Get(of, k), Get(nf, k);
      && (ov.None? && nv.None? ==> ds == [])
      && (ov.None? && nv.Some? ==> ds == [Diff(path + [k], Null, nv.value)])
      && (ov.Some? && nv.None? ==> ds == [Diff(path + [k], ov.value, Null)])
      && (ov.Some? && nv.Some? && ov.value.Obj? && nv.value.Obj? ==>
            ds == Differences(ov.value, nv.value, path + [k]))
      && (ov.Some? && nv.Some? && !(ov.value.Obj? && nv.value.Obj?) ==>
            ds == if ov.value != nv.value then [Diff(path + [k], ov.value, nv.value)] else [])
  {
    KeyDifferencesUnder(of, nf, UnionKeys(of, nf), path, k);
  }

  // ------------------------------------------------------------ paths

  /**
   * The text of `path[i]`: nothing for `properties` and `items`, `.name` for
   * `type`, `required` and `format` unless they name a property, and the
   * JSON-quoted name in brackets otherwise.
   */
  function Segment(path: seq<string>, i: nat): string
    requires i < |path|
  {
    var p := path[i];
    if p == "properties" || p == "items" then ""
    else if (p == "type" || p == "required" || p == "format") && (i == 0 || path[i - 1] != "properties") then "." + p
    else "[" + Quote(p) + "]"
  }

  /** The rendered path: its segments' texts in order. */
  function PathText(path: seq<string>): (r: string)
    ensures r == "" <==> forall i :: 0 <= i < |path| ==> path[i] == "properties" || path[i] == "items"
  {
    if path == [] then "" else PathText(path[..|path| - 1]) + Segment(path, |path| - 1)
  }

  /** `_format_path`: collects the segment texts and joins them. */
  method FormatPath(path: seq<string>) returns (text: string)
    ensures text == PathText(path)
  {
    var segments: seq<string> := [];
    for i := 0 to |path|
      invariant Join(segments, "") == PathText(path[..i])
    {
      ghost var done := PathText(path[..i]);
      PathTextStep(path, i);
      var p := path[i];
      if p == "properties" || p == "items" {
        assert done + Segment(path, i) == done;
        continue;
      }
      var segment;
      if (p == "type" || p == "required" || p == "format") && (i == 0 || path[i - 1] != "properties") {
        segment := "." + p;
      } else {
        segment := "[" + Quote(p) + "]";
      }
      assert segment == Segment(path, i);
      ConcatSnoc(segments, segment);
      segments := segments + [segment];
    }
    assert path[..|path|] == path;
    text := Join(segments, "");
  }

  lemma PathTextStep(path: seq<string>, i: nat)
    requires i < |path|
    ensures PathText(path[..i + 1]) == PathText(path[..i]) + Segment(path, i)
  {
    assert path[..i + 1][..i] == path[..i];
    assert Segment(path[..i + 1], i) == Segment(path, i);
  }

  lemma AppendSegment(path: seq<string>, x: string)
    ensures PathText(path + [x]) == PathText(path) + Segment(path + [x], |path|)
  {
    assert (path + [x])[..|path|] == path;
  }

  /** A `properties` or `items` step adds nothing to the rendered path. */
  lemma PathSkipsContainers(path: seq<string>, x: string)
    requires x == "properties" || x == "items"
    ensures PathText(path + [x]) == PathText(path)
  {
    AppendSegment(path, x);
  }

  /** A property name is rendered quoted in brackets, even when it is `type`, `required` or `format`. */
  lemma PathNamesProperty(path: seq<string>, k: string)
    requires k != "properties" && k != "items"
    ensures PathText(path + ["properties", k]) == PathText(path) + "[" + Quote(k) + "]"
  {
    var p := path + ["properties"];
    var q := p + [k];
    var seg := "[" + Quote(k) + "]";
    assert path + ["properties", k] == q;
    PathSkipsContainers(path, "properties");
    AppendSegment(p, k);
    assert q[|path|] == "properties" && q[|path| + 1] == k;
    SegmentUnderProperties(q, |path| + 1);
    assert PathText(q) == PathText(path) + seg;
    ConcatAssoc(PathText(path), "[" + Quote(k), "]");
    ConcatAssoc(PathText(path), "[", Quote(k));
  }

  lemma SegmentUnderProperties(path: seq<string>, i: nat)
    requires 0 < i < |path| && path[i - 1] == "properties"
    requires path[i] != "properties" && path[i] != "items"
    ensures Segment(path, i) == "[" + Quote(path[i]) + "]"
  {
  }

  /** A `type`, `required` or `format` keyword not under `properties` is rendered as `.keyword`. */
  lemma PathNamesKeyword(path: seq<string>, k: string)
    requires k == "type" || k == "required" || k == "format"
    requires path == [] || path[|path| - 1] != "properties"
    ensures PathText(path + [k]) == PathText(path) + "." + k
  {
    AppendSegment(path, k);
    SegmentKeywordAfter(path, k);
    ConcatAssoc(PathText(path), ".", k);
  }

  lemma SegmentKeywordAfter(path: seq<string>, k: string)
    requires k == "type" || k == "required" || k == "format"
    requires path == [] || path[|path| - 1] != "properties"
    ensures Segment(path + [k], |path|) == "." + k
  {
    var q := path + [k];
    assert q[|path|] == k;
    if path != [] {
      assert q[|path| - 1] == path[|path| - 1];
    }
    SegmentKeyword(q, |path|);
  }

  lemma ConcatAssoc(a: string, b: string, c: string)
    ensures a + (b + c) == a + b + c
  {
  }

  lemma SegmentKeyword(path: seq<string>, i: nat)
    requires i < |path| && (path[i] == "type" || path[i] == "required" || path[i] == "format")
    requires i == 0 || path[i - 1] != "properties"
    ensures Segment(path, i) == "." + path[i]
  {
    var p := path[i];
    assert |p| == 4 || |p| == 8 || |p| == 6;
    assert p != "properties" && p != "items";
  }

  // ------------------------------------------------------------ list differences

  /** The elements of `xs` that `ys` does not hold, in order. */
  function Missing(xs: seq<Json>, ys: seq<Json>): (r: seq<Json>)
    ensures forall x :: x in r <==> x in xs && x !in ys
  {
    if xs == [] then []
    else
      var rest := Missing(xs[..|xs| - 1], ys);
      var x := xs[|xs| - 1];
      assert xs == xs[..|xs| - 1] + [x];
      if x in ys then rest else rest + [x]
  }

  /**
   * The order `_format_list_diff` lists items in: each distinct item once, those of
   * the new list by their first position in it, then the old-only ones by their
   * first position in the old list.
   */
  function ListOrder(oldItems: seq<Json>, newItems: seq<Json>): seq<Json> {
    Dedup(newItems) + Missing(Dedup(oldItems), newItems)
  }

  /** Python's `xs.index(x)`. */
  function IndexOf(xs: seq<Json>, x: Json): (i: nat)
    requires x in xs
    ensures i < |xs| && xs[i] == x && x !in xs[..i]
  {
    if xs[0] == x then 0
    else
      assert x in xs[1..] by { var k :| 0 <= k < |xs| && xs[k] == x; assert xs[1..][k - 1] == x; }
      var j := IndexOf(xs[1..], x);
      assert xs[..j + 1] == [xs[0]] + xs[1..][..j];
      j + 1
  }

  lemma IndexOfIs(xs: seq<Json>, x: Json, i: nat)
    requires i < |xs| && xs[i] == x && x !in xs[..i]
    ensures IndexOf(xs, x) == i
  {
    var j := IndexOf(xs, x);
    assert xs[..j + 1][j] == x;
    assert xs[..i + 1][i] == x;
  }

  /** The sort key of `_format_list_diff`: `(0, index in new)`, else `(1, index in old)`. */
  function SortKey(x: Json, oldItems: seq<Json>, newItems: seq<Json>): (int, int)
    requires x in oldItems || x in newItems
  {
    if x in newItems then (0, IndexOf(newItems, x)) else (1, IndexOf(oldItems, x))
  }

  predicate KeyBefore(a: (int, int), b: (int, int)) {
    a.0 < b.0 || (a.0 == b.0 && a.1 < b.1)
  }

  /** Keeping first occurrences keeps them in the order of their first positions. */
  lemma {:induction false} DedupByFirstIndex(xs: seq<Json>)
    ensures forall i, j :: 0 <= i < j < |Dedup(xs)| ==> IndexOf(xs, Dedup(xs)[i]) < IndexOf(xs, Dedup(xs)[j])
  {
    if xs != [] {
      var init := xs[..|xs| - 1];
      var l := xs[|xs| - 1];
      DedupByFirstIndex(init);
      var d := Dedup(init);
      forall y | y in init ensures IndexOf(xs, y) == IndexOf(init, y) {
        var i := IndexOf(init, y);
        assert xs[..i] == init[..i];
        IndexOfIs(xs, y, i);
      }
      if l !in d {
        DedupMember(init, l);
        assert xs[..|init|] == init;
        IndexOfIs(xs, l, |init|);
      }
    }
  }

  lemma {:induction false} MissingKeepsOrder(xs: seq<Json>, ys: seq<Json>, zs: seq<Json>)
    requires forall x :: x in xs ==> x in zs
    requires forall i, j :: 0 <= i < j < |xs| ==> IndexOf(zs, xs[i]) < IndexOf(zs, xs[j])
    ensures forall i, j :: 0 <= i < j < |Missing(xs, ys)| ==>
      IndexOf(zs, Missing(xs, ys)[i]) < IndexOf(zs, Missing(xs, ys)[j])
  {
    if xs != [] {
      var init := xs[..|xs| - 1];
      MissingKeepsOrder(init, ys, zs);
      var m := Missing(init, ys);
      var l := xs[|xs| - 1];
      if l !in ys {
        forall i | 0 <= i < |m| ensures m[i] in zs && IndexOf(zs, m[i]) < IndexOf(zs, l) {
          assert m[i] in m;
          var k :| 0 <= k < |init| && init[k] == m[i];
          assert xs[k] == m[i];
        }
      }
    }
  }

  /**
   * The listing holds every item of either list exactly once, ordered by the sort
   * key: the new list's items first by position, then the old-only ones by position.
   */
  lemma ListOrderSpec(oldItems: seq<Json>, newItems: seq<Json>)
    ensures var r := ListOrder(oldItems, newItems);
      && NoDups(r)
      && (forall x :: x in r <==> x in oldItems || x in newItems)
      && forall i, j :: 0 <= i < j < |r| ==>
           KeyBefore(SortKey(r[i], oldItems, newItems), SortKey(r[j], oldItems, newItems))
  {
    var r := ListOrder(oldItems, newItems);
    var dn, dold := Dedup(newItems), Dedup(oldItems);
    var m := Missing(dold, newItems);
    forall x ensures x in r <==> x in oldItems || x in newItems {
      DedupMember(newItems, x);
      DedupMember(oldItems, x);
    }
    DedupByFirstIndex(newItems);
    DedupByFirstIndex(oldItems);
    MissingKeepsOrder(dold, newItems, oldItems);
    forall i, j | 0 <= i < j < |r|
      ensures r[i] != r[j]
      ensures KeyBefore(SortKey(r[i], oldItems, newItems), SortKey(r[j], oldItems, newItems))
    {
      if j < |dn| {
        assert r[i] == dn[i] && r[j] == dn[j];
      } else if i < |dn| {
        assert r[j] == m[j - |dn|];
        assert r[j] !in newItems;
      } else {
        assert r[i] == m[i - |dn|] && r[j] == m[j - |dn|];
      }
    }
  }

  /** The marker of an item: `-` when only the old list has it, `+` when only the new one does. */
  function Marker(x: Json, oldItems: seq<Json>, newItems: seq<Json>): string {
    if x in oldItems && x !in newItems then "-    "
    else if x !in oldItems && x in newItems then "+    "
    else "     "
  }

  function ItemLines(items: seq<Json>, oldItems: seq<Json>, newItems: seq<Json>): (r: seq<string>)
    ensures |r| == |items|
    ensures forall i :: 0 <= i < |items| ==> r[i] == Marker(items[i], oldItems, newItems) + Dumps(items[i]) + ","
  {
    if items == [] then []
    else
      var n := |items| - 1;
      ItemLines(items[..n], oldItems, newItems) + [Marker(items[n], oldItems, newItems) + Dumps(items[n]) + ","]
  }

  function Header(path: string): string {
    "  " + path + ":"
  }

  /** Index of the last `c` in `s`. */
  function LastIndexOf(s: string, c: char): (i: nat)
    requires c in s
    ensures i < |s| && s[i] == c && forall j :: i < j < |s| ==> s[j] != c
  {
    if s[|s| - 1] == c then |s| - 1
    else
      assert c in s[..|s| - 1] by { var k :| 0 <= k < |s| && s[k] == c; assert s[..|s| - 1][k] == c; }
      LastIndexOf(s[..|s| - 1], c)
  }

  /** `head + tail` of `s.rpartition(',')`: the last comma removed, if there is one. */
  function DropLastComma(s: string): string {
    if ',' !in s then s
    else
      var i := LastIndexOf(s, ',');
      s[..i] + s[i + 1..]
  }

  lemma DropTrailingComma(s: string)
    ensures DropLastComma(s + ",") == s
  {
    assert (s + ",")[|s|] == ',';
    assert (s + ",")[..|s|] == s;
  }

  /** `_format_list_diff` as written: the comma removal also applies when the header is the only line. */
  function ListDiffAsWritten(path: string, oldItems: seq<Json>, newItems: seq<Json>): (r: seq<string>)
    ensures |r| == 1 + |ListOrder(oldItems, newItems)|
  {
    var lines := [Header(path)] + ItemLines(ListOrder(oldItems, newItems), oldItems, newItems);
    lines[..|lines| - 1] + [DropLastComma(lines[|lines| - 1])]
  }

  /** With two empty lists a comma inside the path is deleted from the header. */
  lemma ListDiffAsWrittenBreaksHeader()
    ensures ListDiffAsWritten("[\"a,b\"]", [], []) == ["  [\"ab\"]:"]
    ensures ListDiffAsWritten("[\"a,b\"]", [], [])[0] != Header("[\"a,b\"]")
  {
    var h := Header("[\"a,b\"]");
    assert ListOrder([], []) == [];
    assert h[5] == ',';
    assert forall j :: 5 < j < |h| ==> h[j] != ',';
    assert DropLastComma(h) == h[..5] + h[6..];
    assert h[..5] + h[6..] == "  [\"ab\"]:";
    assert ItemLines(ListOrder([], []), [], []) == [];
  }

  /**
   * `_format_list_diff` with the comma removed only from the last item line: the
   * header, then one line per listed item carrying its marker, the last without
   * its comma.
   */
  function ListDiffLines(path: string, oldItems: seq<Json>, newItems: seq<Json>): (r: seq<string>)
    ensures r != [] && r[0] == Header(path)
  {
    var items := ItemLines(ListOrder(oldItems, newItems), oldItems, newItems);
    if items == [] then [Header(path)]
    else [Header(path)] + items[..|items| - 1] + [DropLastComma(items[|items| - 1])]
  }

  /** The header is kept whatever the lists, and each item gets one line, ending in a comma except the last. */
  lemma ListDiffLinesShape(path: string, oldItems: seq<Json>, newItems: seq<Json>)
    ensures var items := ListOrder(oldItems, newItems);
      var r := ListDiffLines(path, oldItems, newItems);
      && |r| == 1 + |items|
      && r[0] == Header(path)
      && forall i :: 0 <= i < |items| ==>
           r[i + 1] == Marker(items[i], oldItems, newItems) + Dumps(items[i]) + (if i == |items| - 1 then "" else ",")
  {
    var items := ListOrder(oldItems, newItems);
    var lines := ItemLines(items, oldItems, newItems);
    var r := ListDiffLines(path, oldItems, newItems);
    if items != [] {
      var n := |items| - 1;
      var body := Marker(items[n], oldItems, newItems) + Dumps(items[n]);
      assert lines[n] == body + ",";
      DropTrailingComma(body);
      assert r == [Header(path)] + lines[..n] + [body];
      forall i | 0 <= i < |items|
        ensures r[i + 1] == Marker(items[i], oldItems, newItems) + Dumps(items[i]) + (if i == n then "" else ",")
      {
        if i < n {
          InnerIndex(Header(path), lines[..n], body, i);
        }
      }
    }
  }

  lemma InnerIndex<T>(h: T, xs: seq<T>, y: T, i: nat)
    requires i < |xs|
    ensures ([h] + xs + [y])[i + 1] == xs[i]
  {
  }

  /** `_format_list_diff`: builds the header and item lines, then rewrites the last item line. */
  method FormatListDiff(path: string, oldItems: seq<Json>, newItems: seq<Json>) returns (result: seq<string>)
    ensures result == ListDiffLines(path, oldItems, newItems)
  {
    result := [Header(path)];
    var allItems := ListOrder(oldItems, newItems);
    var lines := FormatItems(allItems, oldItems, newItems);
    result := result + lines;
    ListDiffLinesFromAll(path, oldItems, newItems);
    if |result| > 1 {
      result := result[..|result| - 1] + [DropLastComma(result[|result| - 1])];
    }
  }

  /** `ListDiffLines` as the rewrite of the last line of header-plus-items. */
  lemma ListDiffLinesFromAll(path: string, oldItems: seq<Json>, newItems: seq<Json>)
    ensures var all := [Header(path)] + ItemLines(ListOrder(oldItems, newItems), oldItems, newItems);
      ListDiffLines(path, oldItems, newItems) ==
        if |all| > 1 then all[..|all| - 1] + [DropLastComma(all[|all| - 1])] else all
  {
    var lines := ItemLines(ListOrder(oldItems, newItems), oldItems, newItems);
    if lines != [] {
      DropLastOfCons(Header(path), lines);
    }
  }

  /** The loop of `_format_list_diff` over the ordered items. */
  method FormatItems(allItems: seq<Json>, oldItems: seq<Json>, newItems: seq<Json>) returns (lines: seq<string>)
    ensures lines == ItemLines(allItems, oldItems, newItems)
  {
    lines := [];
    for i := 0 to |allItems|
      invariant lines == ItemLines(allItems[..i], oldItems, newItems)
    {
      var line := FormatItem(allItems[i], oldItems, newItems);
      assert allItems[..i + 1][..i] == allItems[..i];
      lines := lines + [line];
    }
    assert allItems[..|allItems|] == allItems;
  }

  /** One item line of `_format_list_diff`, with its `-`, `+` or blank marker. */
  method FormatItem(item: Json, oldItems: seq<Json>, newItems: seq<Json>) returns (line: string)
    ensures line == Marker(item, oldItems, newItems) + Dumps(item) + ","
  {
    var itemStr := Dumps(item);
    if item in oldItems && item !in newItems {
      line := "-    " + itemStr + ",";
    } else if item !in oldItems && item in newItems {
      line := "+    " + itemStr + ",";
    } else {
      line := "     " + itemStr + ",";
    }
  }

  lemma DropLastOfCons<T>(h: T, xs: seq<T>)
    requires xs != []
    ensures ([h] + xs)[..|xs|] == [h] + xs[..|xs| - 1]
    ensures ([h] + xs)[|xs|] == xs[|xs| - 1]
  {
  }

  // ------------------------------------------------------------ the report

  predicate IsContainer(v: Json) {
    v.Arr? || v.Obj?
  }

  function Indented(lines: seq<string>): (r: seq<string>)
    ensures |r| == |lines| && forall i :: 0 <= i < |lines| ==> r[i] == "  " + lines[i]
  {
    seq(|lines|, i requires 0 <= i < |lines| => "  " + lines[i])
  }

  /**
   * The lines written for one entry: a list diff for two lists and for a list
   * against a missing value, `+`/`-` lines for an added or removed value, an
   * `r old -> new` line for two scalars, and `-`/`+` blocks of indented JSON for
   * anything else.
   */
  function Block(d: Diff): (r: seq<string>)
    ensures r != []
  {
    var p := PathText(d.path);
    var o, n := d.before, d.after;
    if o.Arr? && n.Arr? then ListDiffLines(p, o.elems, n.elems)
    else if o.Null? then
      if n.Arr? then ListDiffLines(p, [], n.elems) else ["+ " + p + ": " + Dumps(n)]
    else if n.Null? then
      if o.Arr? then ListDiffLines(p, o.elems, []) else ["- " + p + ": " + Dumps(o)]
    else if !IsContainer(o) && !IsContainer(n) then ["r " + p + ": " + Dumps(o) + " -> " + Dumps(n)]
    else ["- " + p + ":"] + Indented(PrettyLines(o, 0)) + ["+ " + p + ":"] + Indented(PrettyLines(n, 0))
  }

  /** Every entry's lines followed by a blank separator line. */
  function ReportLines(diffs: seq<Diff>): seq<string> {
    if diffs == [] then [] else ReportLines(diffs[..|diffs| - 1]) + Block(diffs[|diffs| - 1]) + [""]
  }

  /** The report text: the lines joined by newlines, trailing whitespace removed. */
  function Report(diffs: seq<Diff>): (r: string)
    ensures NoTrailingSpace(r)
  {
    RStrip(Join(ReportLines(diffs), "\n"))
  }

  /** The two loops of `_format_differences` that copy pretty-printed JSON lines, indented. */
  method AppendIndented(output: seq<string>, lines: seq<string>) returns (result: seq<string>)
    ensures result == output + Indented(lines)
  {
    result := output;
    for j := 0 to |lines|
      invariant result == output + Indented(lines[..j])
    {
      assert Indented(lines[..j + 1]) == Indented(lines[..j]) + ["  " + lines[j]];
      result := result + ["  " + lines[j]];
    }
    assert lines[..|lines|] == lines;
  }

  /** `_format_differences`: the lines of every entry, then the joined and stripped text. */
  method FormatDifferences(diffs: seq<Diff>) returns (text: string)
    ensures text == Report(diffs)
  {
    var output: seq<string> := [];
    for i := 0 to |diffs|
      invariant output == ReportLines(diffs[..i])
    {
      assert diffs[..i + 1][..i] == diffs[..i];
      var lines := FormatEntry(diffs[i]);
      output := output + lines + [""];
    }
    assert diffs[..|diffs|] == diffs;
    text := RStrip(Join(output, "\n"));
  }

  /** The body of the loop of `_format_differences`: the lines for one entry. */
  method FormatEntry(d: Diff) returns (output: seq<string>)
    ensures output == Block(d)
  {
    var p := FormatPath(d.path);
    var oldVal, newVal := d.before, d.after;
    if oldVal.Arr? && newVal.Arr? {
      output := FormatListDiff(p, oldVal.elems, newVal.elems);
    } else if oldVal.Null? {
      if newVal.Arr? {
        output := FormatListDiff(p, [], newVal.elems);
      } else {
        output := ["+ " + p + ": " + Dumps(newVal)];
      }
    } else if newVal.Null? {
      if oldVal.Arr? {
        output := FormatListDiff(p, oldVal.elems, []);
      } else {
        output := ["- " + p + ": " + Dumps(oldVal)];
      }
    } else if !IsContainer(oldVal) && !IsContainer(newVal) {
      output := ["r " + p + ": " + Dumps(oldVal) + " -> " + Dumps(newVal)];
    } else {
      var oldJson := PrettyLines(oldVal, 0);
      var newJson := PrettyLines(newVal, 0);
      output := ["- " + p + ":"];
      output := AppendIndented(output, oldJson);
      output := output + ["+ " + p + ":"];
      output := AppendIndented(output, newJson);
    }
  }

  /** The first line written for an entry always shows something. */
  lemma BlockVisible(d: Diff)
    ensures Block(d) != [] && !IsBlank(Block(d)[0])
  {
    var p := PathText(d.path);
    var o, n := d.before, d.after;
    if o.Arr? && n.Arr? {
      ListBlockVisible(p, o.elems, n.elems);
    } else if o.Null? {
      if n.Arr? {
        ListBlockVisible(p, [], n.elems);
      } else {
        LeadVisible("+ ", p);
        NotBlankExtend("+ " + p, ": ");
        NotBlankExtend("+ " + p + ": ", Dumps(n));
      }
    } else if n.Null? {
      if o.Arr? {
        ListBlockVisible(p, o.elems, []);
      } else {
        LeadVisible("- ", p);
        NotBlankExtend("- " + p, ": ");
        NotBlankExtend("- " + p + ": ", Dumps(o));
      }
    } else if !IsContainer(o) && !IsContainer(n) {
      LeadVisible("r ", p);
      NotBlankExtend("r " + p, ": ");
      NotBlankExtend("r " + p + ": ", Dumps(o));
      NotBlankExtend("r " + p + ": " + Dumps(o), " -> ");
      NotBlankExtend("r " + p + ": " + Dumps(o) + " -> ", Dumps(n));
    } else {
      LeadVisible("- ", p);
      NotBlankExtend("- " + p, ":");
    }
  }

  /** A list diff starts with its header, which ends in a colon. */
  lemma ListBlockVisible(p: string, oldItems: seq<Json>, newItems: seq<Json>)
    ensures ListDiffLines(p, oldItems, newItems) != []
    ensures !IsBlank(ListDiffLines(p, oldItems, newItems)[0])
  {
    ListDiffLinesShape(p, oldItems, newItems);
    var h := Header(p);
    assert h[|h| - 1] == ':';
  }

  lemma NotBlankExtend(a: string, b: string)
    requires !IsBlank(a)
    ensures !IsBlank(a + b)
  {
    var k :| 0 <= k < |a| && !IsSpace(a[k]);
    assert (a + b)[k] == a[k];
  }

  /** A line opening with a marker character is not blank. */
  lemma LeadVisible(marker: string, rest: string)
    requires marker == "+ " || marker == "- " || marker == "r "
    ensures !IsBlank(marker + rest)
  {
    assert (marker + rest)[0] == marker[0];
  }

  /** The report is empty exactly when there is nothing to report. */
  lemma ReportEmpty(diffs: seq<Diff>)
    ensures Report(diffs) == "" <==> diffs == []
  {
    RStripEmpty(Join(ReportLines(diffs), "\n"));
    if diffs != [] {
      var init := ReportLines(diffs[..|diffs| - 1]);
      var b := Block(diffs[|diffs| - 1]);
      BlockVisible(diffs[|diffs| - 1]);
      assert ReportLines(diffs)[|init|] == b[0];
      JoinNotBlank(ReportLines(diffs), "\n", |init|);
    }
  }

  // ------------------------------------------------------------ compare

  /** `schema.get("properties", {})`. */
  function RootProperties(schema: seq<(string, Json)>): Json {
    Get(schema, "properties").GetOr(Obj([]))
  }

  /** `{"properties": schema.get("properties", {})}`: the only part of a schema that is compared. */
  function PropertiesOnly(schema: seq<(string, Json)>): Json {
    Obj([("properties", RootProperties(schema))])
  }

  function CompareDiffs(oldSchema: seq<(string, Json)>, newSchema: seq<(string, Json)>): seq<Diff> {
    Differences(PropertiesOnly(oldSchema), PropertiesOnly(newSchema), [])
  }

  /** `SchemaComparator(old, new).compare()`: walks the root properties and renders the entries. */
  method Compare(oldSchema: seq<(string, Json)>, newSchema: seq<(string, Json)>) returns (text: string)
    ensures text == Report(CompareDiffs(oldSchema, newSchema))
  {
    var differences := FindDifferences(PropertiesOnly(oldSchema), PropertiesOnly(newSchema), []);
    text := FormatDifferences(differences);
  }

  /** Comparing a schema with itself reports nothing. */
  lemma CompareSame(schema: seq<(string, Json)>)
    ensures CompareDiffs(schema, schema) == []
    ensures Report(CompareDiffs(schema, schema)) == ""
  {
    NoDifferencesWhenEqual(PropertiesOnly(schema), []);
    ReportEmpty([]);
  }

  /**
   * Every entry lies under the root `properties` member, so root-level keywords
   * such as `type` or `required` never produce one.
   */
  lemma CompareOnlyProperties(oldSchema: seq<(string, Json)>, newSchema: seq<(string, Json)>)
    ensures forall d :: d in CompareDiffs(oldSchema, newSchema) ==> |d.path| >= 1 && d.path[0] == "properties"
  {
    var a, b := PropertiesOnly(oldSchema), PropertiesOnly(newSchema);
    DifferencesExtendPath(a, b, []);
    assert Keys(a.fields) == {"properties"} by { assert a.fields[0].0 == "properties"; }
    assert Keys(b.fields) == {"properties"} by { assert b.fields[0].0 == "properties"; }
  }
}
