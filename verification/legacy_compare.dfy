/**
 * The first-generation schema differ of the typed snapshot tool
 * (`SchemaShot._compare_schemas`): a walk over the nested `properties` of two
 * schemas that reports a changed `type`, removed and added properties, one line
 * each, and descends into the properties both schemas hold.
 */
module LegacyCompare {
  import opened Wrappers
  import opened Text
  import opened JsonValues

  /** The members of `node.get('properties', {})`; `[]` when there is none. */
  function PropFields(node: Json): seq<(string, Json)>
    requires node.Obj?
  {
    var p := Get(node.fields, "properties");
    if p.Some? && p.value.Obj? then p.value.fields else []
  }

  /** A property schema is structurally smaller than the node holding it. */
  lemma PropBelow(node: Json, k: string)
    requires node.Obj? && Get(PropFields(node), k).Some?
    ensures Get(PropFields(node), k).value < node
  {
    GetBelow(node.fields, "properties");
    GetBelow(PropFields(node), k);
  }

  /**
   * The walk can run: both nodes are dicts, their `properties` (when present) are
   * dicts, and the same holds for the property schemas both of them hold.
   */
  predicate Walkable(before: Json, after: Json)
    decreases before, 1
  {
    && before.Obj? && after.Obj?
    && (Get(before.fields, "properties").None? || Get(before.fields, "properties").value.Obj?)
    && (Get(after.fields, "properties").None? || Get(after.fields, "properties").value.Obj?)
    && SharedWalkable(before, after, KeyList(PropFields(before)))
  }

  predicate SharedWalkable(before: Json, after: Json, keys: seq<string>)
    requires before.Obj? && after.Obj?
    decreases before, 0, |keys|
  {
    if keys == [] then true
    else
      var k := keys[0];
      var bp, ap := Get(PropFields(before), k), Get(PropFields(after), k);
      && (bp.Some? && ap.Some? ==> (PropBelow(before, k); Walkable(bp.value, ap.value)))
      && SharedWalkable(before, after, keys[1..])
  }

  /** The line reporting a changed `type`; a missing type prints as `None`. */
  function TypeLine(path: string, before: Option<Json>, after: Option<Json>): string {
    path + ": изменение типа с " + PyStr(before) + " на " + PyStr(after)
  }

  function RemovedLine(path: string, k: string): string {
    path + "/" + k + ": удалено"
  }

  function AddedLine(path: string, k: string): string {
    path + "/" + k + ": добавлено"
  }

  /** The keys of `xs` that `ys` does not hold (each once, in `xs`'s order), one line each. */
  function MissingLines(xs: seq<(string, Json)>, ys: seq<(string, Json)>, path: string, removed: bool)
    : seq<string>
  {
    OneLinePerKey(Dedup(KeyList(xs)), ys, path, removed)
  }

  function OneLinePerKey(ks: seq<string>, ys: seq<(string, Json)>, path: string, removed: bool)
    : seq<string>
  {
    if ks == [] then []
    else
      var k := ks[|ks| - 1];
      var rest := OneLinePerKey(ks[..|ks| - 1], ys, path, removed);
      if k in Keys(ys) then rest
      else rest + [KeyLine(path, k, removed)]
  }

  /** The removed line or the added line of key `k`. */
  function KeyLine(path: string, k: string, removed: bool): string {
    if removed then RemovedLine(path, k) else AddedLine(path, k)
  }

  /** Different keys give different lines: the key is the text between `path/` and the suffix. */
  lemma KeyLineInjective(path: string, k1: string, k2: string, removed: bool)
    requires KeyLine(path, k1, removed) == KeyLine(path, k2, removed)
    ensures k1 == k2
  {
    var suffix := if removed then ": удалено" else ": добавлено";
    var l1, l2 := KeyLine(path, k1, removed), KeyLine(path, k2, removed);
    assert l1 == (path + "/") + k1 + suffix && l2 == (path + "/") + k2 + suffix;
    var n := |path| + 1;
    assert |k1| == |k2|;
    assert l1[n..n + |k1|] == k1;
    assert l2[n..n + |k2|] == k2;
  }

  /**
   * `set(xs) - set(ys)`: each key of `xs` that `ys` lacks gets its line exactly
   * once, every line is such a key's line, and every line lies below `path`.
   */
  lemma MissingLinesSpec(xs: seq<(string, Json)>, ys: seq<(string, Json)>, path: string, removed: bool)
    ensures forall k :: k in Keys(xs) && k !in Keys(ys) ==> KeyLine(path, k, removed) in MissingLines(xs, ys, path, removed)
    ensures forall line :: line in MissingLines(xs, ys, path, removed) ==>
      exists k :: k in Keys(xs) && k !in Keys(ys) && line == KeyLine(path, k, removed)
    ensures NoDups(MissingLines(xs, ys, path, removed))
    ensures forall line :: line in MissingLines(xs, ys, path, removed) ==> path + "/" <= line
  {
    var ks := Dedup(KeyList(xs));
    KeyListKeys(xs);
    OneLinePerKeySpec(ks, ys, path, removed);
    OneLinePerKeyNoDups(ks, ys, path, removed);
    forall k | k in Keys(xs) && k !in Keys(ys)
      ensures KeyLine(path, k, removed) in MissingLines(xs, ys, path, removed)
    {
      DedupMember(KeyList(xs), k);
    }
    forall line | line in MissingLines(xs, ys, path, removed)
      ensures exists k :: k in Keys(xs) && k !in Keys(ys) && line == KeyLine(path, k, removed)
    {
      var k :| k in ks && k !in Keys(ys) && line == KeyLine(path, k, removed);
      DedupMember(KeyList(xs), k);
    }
  }

  /** One line per key of `ks` that `ys` lacks, and no other line. */
  lemma {:induction false} OneLinePerKeySpec(ks: seq<string>, ys: seq<(string, Json)>, path: string, removed: bool)
    ensures forall k :: k in ks && k !in Keys(ys) ==> KeyLine(path, k, removed) in OneLinePerKey(ks, ys, path, removed)
    ensures forall line :: line in OneLinePerKey(ks, ys, path, removed) ==>
      exists k :: k in ks && k !in Keys(ys) && line == KeyLine(path, k, removed)
    ensures |OneLinePerKey(ks, ys, path, removed)| <= |ks|
    ensures forall line :: line in OneLinePerKey(ks, ys, path, removed) ==> path + "/" <= line
  {
    if ks != [] {
      OneLinePerKeySpec(ks[..|ks| - 1], ys, path, removed);
      assert forall k' :: k' in ks ==> k' in ks[..|ks| - 1] || k' == ks[|ks| - 1];
      assert forall k' :: k' in ks[..|ks| - 1] ==> k' in ks;
    }
  }

  /** Keys without duplicates give lines without duplicates. */
  lemma {:induction false} OneLinePerKeyNoDups(ks: seq<string>, ys: seq<(string, Json)>, path: string, removed: bool)
    requires NoDups(ks)
    ensures NoDups(OneLinePerKey(ks, ys, path, removed))
  {
    if ks != [] {
      var init, k := ks[..|ks| - 1], ks[|ks| - 1];
      var rest := OneLinePerKey(init, ys, path, removed);
      assert NoDups(init);
      OneLinePerKeyNoDups(init, ys, path, removed);
      if k !in Keys(ys) {
        assert k !in init;
        OneLinePerKeySpec(init, ys, path, removed);
        forall line | line in rest
          ensures line != KeyLine(path, k, removed)
        {
          var k' :| k' in init && k' !in Keys(ys) && line == KeyLine(path, k', removed);
          if line == KeyLine(path, k, removed) {
            KeyLineInjective(path, k', k, removed);
          }
        }
        var out := rest + [KeyLine(path, k, removed)];
        assert OneLinePerKey(ks, ys, path, removed) == out;
        forall i, j | 0 <= i < j < |out|
          ensures out[i] != out[j]
        {
          if j < |rest| {
            assert out[i] == rest[i] && out[j] == rest[j];
          } else {
            assert out[i] == rest[i] && rest[i] in rest;
          }
        }
      }
    }
  }

  /** `compare_recursive(old, new, path)`: the lines this node and the shared properties below it report. */
  function Lines(before: Json, after: Json, path: string): (r: seq<string>)
    requires Walkable(before, after)
    ensures TypeOf(before) != TypeOf(after) ==> r != []
    ensures TypeOf(before) == TypeOf(after) && PropFields(before) == [] && PropFields(after) == [] ==> r == []
    decreases before, 3, 0
  {
    TypeLines(before, after, path) + ChildLines(before, after, path)
  }

  /** `node.get('type')`: a missing `type` and an explicit `null` both read as `None`. */
  function TypeOf(node: Json): (t: Option<Json>)
    requires node.Obj?
    ensures t.None? <==> Get(node.fields, "type").None? || Get(node.fields, "type") == Some(Null)
    ensures t.Some? ==> t == Get(node.fields, "type")
  {
    var t := Get(node.fields, "type");
    if t == Some(Null) then None else t
  }

  /** The `type` check: one line when the two `type` values differ as `dict.get` reads them. */
  function TypeLines(before: Json, after: Json, path: string): seq<string>
    requires before.Obj? && after.Obj?
  {
    var bt, at := TypeOf(before), TypeOf(after);
    if bt != at then [TypeLine(path, bt, at)] else []
  }

  /** The removed properties, then the added ones, then the lines of the shared ones. */
  function ChildLines(before: Json, after: Json, path: string): (r: seq<string>)
    requires Walkable(before, after)
    ensures PropFields(before) == [] && PropFields(after) == [] ==> r == []
    decreases before, 2, 0
  {
    var bp, ap := PropFields(before), PropFields(after);
    assert bp == [] ==> KeyList(bp) == [] && Dedup(KeyList(bp)) == [];
    MissingLines(bp, ap, path, true) + MissingLines(ap, bp, path, false)
    + SharedLines(before, after, Dedup(KeyList(bp)), path)
  }

  /** The lines of the shared properties among `keys`, visited in order. */
  function SharedLines(before: Json, after: Json, keys: seq<string>, path: string): seq<string>
    requires before.Obj? && after.Obj?
    requires SharedWalkable(before, after, KeyList(PropFields(before)))
    decreases before, 1, |keys|
  {
    if keys == [] then []
    else
      var k := keys[|keys| - 1];
      var rest := SharedLines(before, after, keys[..|keys| - 1], path);
      var bp, ap := Get(PropFields(before), k), Get(PropFields(after), k);
      if bp.Some? && ap.Some? then
        PropBelow(before, k);
        SharedWalkableAt(before, after, KeyList(PropFields(before)), k);
        rest + Lines(bp.value, ap.value, path + "/" + k)
      else rest
  }

  lemma {:induction false} SharedWalkableAt(before: Json, after: Json, keys: seq<string>, k: string)
    requires before.Obj? && after.Obj?
    requires SharedWalkable(before, after, keys)
    requires k in keys && Get(PropFields(before), k).Some? && Get(PropFields(after), k).Some?
    ensures Get(PropFields(before), k).value < before
    ensures Walkable(Get(PropFields(before), k).value, Get(PropFields(after), k).value)
  {
    PropBelow(before, k);
    if keys[0] != k {
      SharedWalkableAt(before, after, keys[1..], k);
    }
  }

  /** `_compare_schemas`: the lines of the walk from the root, whose path is empty, joined by newlines. */
  function CompareText(before: Json, after: Json): string
    requires Walkable(before, after)
  {
    Join(Lines(before, after, ""), "\n")
  }

  /** `compare_recursive`: appends this node's lines to `differences`, then recurses into shared properties. */
  method CompareRecursive(before: Json, after: Json, path: string, differences: seq<string>)
    returns (result: seq<string>)
    requires Walkable(before, after)
    ensures result == differences + Lines(before, after, path)
    decreases before, 2
  {
    result := differences;
    var bt, at := TypeOf(before), TypeOf(after);
    if bt != at {
      result := result + [TypeLine(path, bt, at)];
    }
    ghost var r0 := result;
    var oldProps, newProps := PropFields(before), PropFields(after);
    result := AppendMissing(result, Dedup(KeyList(oldProps)), newProps, path, true);
    ghost var r1, removed := result, MissingLines(oldProps, newProps, path, true);
    result := AppendMissing(result, Dedup(KeyList(newProps)), oldProps, path, false);
    ghost var r2, added := result, MissingLines(newProps, oldProps, path, false);
    result := AppendShared(before, after, path, result);
    ghost var shared := SharedLines(before, after, Dedup(KeyList(oldProps)), path);
    assert ChildLines(before, after, path) == removed + added + shared;
    assert r0 == differences + TypeLines(before, after, path);
    assert r1 == r0 + removed;
    assert r2 == r1 + added;
    assert result == r2 + shared;
    assert Lines(before, after, path) == TypeLines(before, after, path) + (removed + added + shared);
    SeqAssoc(differences, TypeLines(before, after, path), removed, added, shared);
  }

  lemma SeqAssoc(a: seq<string>, b: seq<string>, c: seq<string>, d: seq<string>, e: seq<string>)
    ensures a + b + c + d + e == a + (b + (c + d + e))
  {
  }

  /** The loops over `set(old) - set(new)` and `set(new) - set(old)`: one line per key the other side lacks. */
  method AppendMissing(differences: seq<string>, keys: seq<string>, others: seq<(string, Json)>, path: string, removed: bool)
    returns (result: seq<string>)
    ensures result == differences + OneLinePerKey(keys, others, path, removed)
  {
    result := differences;
    for i := 0 to |keys|
      invariant result == differences + OneLinePerKey(keys[..i], others, path, removed)
    {
      assert keys[..i + 1][..i] == keys[..i];
      if keys[i] !in Keys(others) {
        result := result + [if removed then RemovedLine(path, keys[i]) else AddedLine(path, keys[i])];
      }
    }
    assert keys[..|keys|] == keys;
  }

  /** The loop over the shared properties: recurses into each with the path extended by `/key`. */
  method AppendShared(before: Json, after: Json, path: string, differences: seq<string>)
    returns (result: seq<string>)
    requires before.Obj? && after.Obj?
    requires SharedWalkable(before, after, KeyList(PropFields(before)))
    ensures result == differences + SharedLines(before, after, Dedup(KeyList(PropFields(before))), path)
    decreases before, 1
  {
    result := differences;
    var keys := Dedup(KeyList(PropFields(before)));
    for i := 0 to |keys|
      invariant result == differences + SharedLines(before, after, keys[..i], path)
    {
      result := AppendSharedKey(before, after, keys, i, path, differences, result);
    }
    assert keys[..|keys|] == keys;
  }

  /** One turn of that loop: descends into `keys[i]` when both schemas hold it. */
  method AppendSharedKey(before: Json, after: Json, keys: seq<string>, i: int, path: string,
                         differences: seq<string>, done: seq<string>)
    returns (result: seq<string>)
    requires before.Obj? && after.Obj?
    requires SharedWalkable(before, after, KeyList(PropFields(before)))
    requires 0 <= i < |keys|
    requires done == differences + SharedLines(before, after, keys[..i], path)
    ensures result == differences + SharedLines(before, after, keys[..i + 1], path)
    decreases before, 0
  {
    var prop := keys[i];
    var bp, ap := Get(PropFields(before), prop), Get(PropFields(after), prop);
    if bp.Some? && ap.Some? {
      SharedLinesDescend(before, after, keys, i, path);
      ghost var nested := Lines(bp.value, ap.value, path + "/" + prop);
      result := CompareRecursive(bp.value, ap.value, path + "/" + prop, done);
      ghost var prior := SharedLines(before, after, keys[..i], path);
      assert result == differences + prior + nested;
      assert SharedLines(before, after, keys[..i + 1], path) == prior + nested;
      SeqAssoc3(differences, prior, nested);
    } else {
      SharedLinesSkip(before, after, keys, i, path);
      result := done;
    }
  }

  /** One step of `SharedLines` over a key both schemas hold. */
  lemma SharedLinesDescend(before: Json, after: Json, keys: seq<string>, i: int, path: string)
    requires before.Obj? && after.Obj?
    requires SharedWalkable(before, after, KeyList(PropFields(before)))
    requires 0 <= i < |keys|
    requires Get(PropFields(before), keys[i]).Some? && Get(PropFields(after), keys[i]).Some?
    ensures Get(PropFields(before), keys[i]).value < before
    ensures Walkable(Get(PropFields(before), keys[i]).value, Get(PropFields(after), keys[i]).value)
    ensures SharedLines(before, after, keys[..i + 1], path)
      == SharedLines(before, after, keys[..i], path)
      + Lines(Get(PropFields(before), keys[i]).value, Get(PropFields(after), keys[i]).value, path + "/" + keys[i])
  {
    KeyListKeys(PropFields(before));
    SharedWalkableAt(before, after, KeyList(PropFields(before)), keys[i]);
    assert keys[..i + 1][..i] == keys[..i];
  }

  /** One step of `SharedLines` over a key one of the schemas lacks. */
  lemma SharedLinesSkip(before: Json, after: Json, keys: seq<string>, i: int, path: string)
    requires before.Obj? && after.Obj?
    requires SharedWalkable(before, after, KeyList(PropFields(before)))
    requires 0 <= i < |keys|
    requires Get(PropFields(before), keys[i]).None? || Get(PropFields(after), keys[i]).None?
    ensures SharedLines(before, after, keys[..i + 1], path) == SharedLines(before, after, keys[..i], path)
  {
    assert keys[..i + 1][..i] == keys[..i];
  }

  /** `_compare_schemas`: runs the walk from the root with an empty path and joins the lines. */
  method CompareSchemas(before: Json, after: Json) returns (text: string)
    requires Walkable(before, after)
    ensures text == CompareText(before, after)
  {
    var differences: seq<string> := [];
    differences := CompareRecursive(before, after, "", differences);
    assert differences == Lines(before, after, "");
    text := Join(differences, "\n");
  }

  // ------------------------------------------------------------ properties

  /** Walking a schema against itself reports nothing. */
  lemma {:induction false} LinesSame(node: Json, path: string)
    requires Walkable(node, node)
    ensures Lines(node, node, path) == []
    decreases node, 2, 0
  {
    var ps := PropFields(node);
    var ks := Dedup(KeyList(ps));
    NoneMissing(ks, ps, path, true);
    NoneMissing(ks, ps, path, false);
    SharedLinesSame(node, ks, path);
  }

  lemma {:induction false} NoneMissing(ks: seq<string>, ys: seq<(string, Json)>, path: string, removed: bool)
    requires forall k :: k in ks ==> k in KeyList(ys)
    ensures OneLinePerKey(ks, ys, path, removed) == []
  {
    KeyListKeys(ys);
    if ks != [] {
      NoneMissing(ks[..|ks| - 1], ys, path, removed);
    }
  }

  lemma {:induction false} SharedLinesSame(node: Json, keys: seq<string>, path: string)
    requires Walkable(node, node)
    ensures SharedLines(node, node, keys, path) == []
    decreases node, 1, |keys|
  {
    if keys != [] {
      var k := keys[|keys| - 1];
      SharedLinesSame(node, keys[..|keys| - 1], path);
      var p := Get(PropFields(node), k);
      if p.Some? {
        SharedWalkableAt(node, node, KeyList(PropFields(node)), k);
        LinesSame(p.value, path + "/" + k);
      }
    }
  }

  /**
   * A changed `type` gives exactly one line at the node's own path, and it comes
   * first; every other line lies below the node (`path/...`).
   */
  lemma {:induction false} LinesAtPath(before: Json, after: Json, path: string)
    requires Walkable(before, after)
    ensures var lines := Lines(before, after, path);
      var bt, at := TypeOf(before), TypeOf(after);
      && (bt != at <==> lines != [] && lines[0] == TypeLine(path, bt, at))
      && (forall i :: 0 <= i < |lines| ==> path <= lines[i])
      && (forall i :: 0 <= i < |lines| && (bt != at ==> i > 0) ==> path + "/" <= lines[i])
    decreases before, 3, 0
  {
    var bt, at := TypeOf(before), TypeOf(after);
    ChildLinesBelow(before, after, path);
    TypeLineAt(path, bt, at);
    HeadLine(Lines(before, after, path), TypeLines(before, after, path), ChildLines(before, after, path),
      path, TypeLine(path, bt, at));
  }

  /** `{"type": null}` against `{}` reports nothing: both read `type` as `None`. */
  lemma NullTypeIsMissingType()
    ensures Lines(Obj([("type", Null)]), Obj([]), "") == []
  {
    var before, after := Obj([("type", Null)]), Obj([]);
    assert Get(before.fields, "type") == Some(Null);
    assert TypeOf(before) == None && TypeOf(after) == None;
    assert PropFields(before) == [] && PropFields(after) == [];
  }

  /** The type line starts with `path:`. */
  lemma TypeLineAt(path: string, bt: Option<Json>, at: Option<Json>)
    ensures |path| < |TypeLine(path, bt, at)| && path <= TypeLine(path, bt, at)
    ensures TypeLine(path, bt, at)[|path|] == ':'
  {
    var rest := ": изменение типа с " + PyStr(bt) + " на " + PyStr(at);
    assert TypeLine(path, bt, at) == path + rest;
  }

  /** Every removal, addition and nested line lies below the node (`path/...`). */
  lemma ChildLinesBelow(before: Json, after: Json, path: string)
    requires Walkable(before, after)
    ensures forall line :: line in ChildLines(before, after, path) ==> path + "/" <= line
    decreases before, 2, 0
  {
    var bp, ap := PropFields(before), PropFields(after);
    SharedLinesBelow(before, after, Dedup(KeyList(bp)), path);
    MissingLinesSpec(bp, ap, path, true);
    MissingLinesSpec(ap, bp, path, false);
    BelowConcat(MissingLines(bp, ap, path, true), MissingLines(ap, bp, path, false),
      SharedLines(before, after, Dedup(KeyList(bp)), path), path + "/");
  }

  lemma SeqAssoc3(a: seq<string>, b: seq<string>, c: seq<string>)
    ensures a + b + c == a + (b + c)
  {
  }

  lemma BelowConcat(a: seq<string>, b: seq<string>, c: seq<string>, prefix: string)
    requires forall line :: line in a ==> prefix <= line
    requires forall line :: line in b ==> prefix <= line
    requires forall line :: line in c ==> prefix <= line
    ensures forall line :: line in a + b + c ==> prefix <= line
  {
  }

  /** An optional `path: ...` line followed by lines below `path/`. */
  lemma HeadLine(lines: seq<string>, head: seq<string>, rest: seq<string>, path: string, line: string)
    requires lines == head + rest
    requires head == [] || head == [line]
    requires |path| < |line| && path <= line && line[|path|] == ':'
    requires forall l :: l in rest ==> path + "/" <= l
    ensures
      && (head != [] <==> lines != [] && lines[0] == line)
      && (forall i :: 0 <= i < |lines| ==> path <= lines[i])
      && (forall i :: 0 <= i < |lines| && (head != [] ==> i > 0) ==> path + "/" <= lines[i])
  {
    if head == [] && lines != [] {
      assert lines[0] in rest;
      assert lines[0][|path|] == '/';
    }
    forall i | 0 <= i < |lines| ensures path <= lines[i] {
      if i >= |head| {
        assert lines[i] in rest;
      }
    }
    forall i | 0 <= i < |lines| && (head != [] ==> i > 0) ensures path + "/" <= lines[i] {
      assert lines[i] == rest[i - |head|];
      assert rest[i - |head|] in rest;
    }
  }

  lemma {:induction false} SharedLinesBelow(before: Json, after: Json, keys: seq<string>, path: string)
    requires before.Obj? && after.Obj?
    requires SharedWalkable(before, after, KeyList(PropFields(before)))
    ensures forall line :: line in SharedLines(before, after, keys, path) ==> path + "/" <= line
    decreases before, 1, |keys|
  {
    if keys != [] {
      var k := keys[|keys| - 1];
      SharedLinesBelow(before, after, keys[..|keys| - 1], path);
      var bp, ap := Get(PropFields(before), k), Get(PropFields(after), k);
      if bp.Some? && ap.Some? {
        NestedBelow(before, after, k, path);
        var nested := Lines(bp.value, ap.value, path + "/" + k);
        BelowConcat(SharedLines(before, after, keys[..|keys| - 1], path), nested, [], path + "/");
        assert SharedLines(before, after, keys, path) == SharedLines(before, after, keys[..|keys| - 1], path) + nested + [];
      }
    }
  }

  /** The lines of a shared property `k` lie below `path/`. */
  lemma NestedBelow(before: Json, after: Json, k: string, path: string)
    requires before.Obj? && after.Obj?
    requires SharedWalkable(before, after, KeyList(PropFields(before)))
    requires Get(PropFields(before), k).Some? && Get(PropFields(after), k).Some?
    ensures Get(PropFields(before), k).value < before
    ensures Walkable(Get(PropFields(before), k).value, Get(PropFields(after), k).value)
    ensures forall line | line in Lines(Get(PropFields(before), k).value, Get(PropFields(after), k).value, path + "/" + k)
              :: path + "/" <= line
    decreases before, 0, 0
  {
    KeyListKeys(PropFields(before));
    SharedWalkableAt(before, after, KeyList(PropFields(before)), k);
    var bp, ap := Get(PropFields(before), k).value, Get(PropFields(after), k).value;
    var lines := Lines(bp, ap, path + "/" + k);
    LinesAtPath(bp, ap, path + "/" + k);
    BelowChild(lines, path, k);
  }

  /** Lines below `path/k` lie below `path/`. */
  lemma BelowChild(lines: seq<string>, path: string, k: string)
    requires forall i :: 0 <= i < |lines| ==> path + "/" + k <= lines[i]
    ensures forall line :: line in lines ==> path + "/" <= line
  {
    assert path + "/" <= path + "/" + k;
  }

  /** A property only the old schema holds, or only the new one, gives its removal or addition line. */
  lemma RemovedAndAdded(before: Json, after: Json, path: string, k: string)
    requires Walkable(before, after)
    ensures k in Keys(PropFields(before)) && k !in Keys(PropFields(after)) ==>
      RemovedLine(path, k) in Lines(before, after, path)
    ensures k in Keys(PropFields(after)) && k !in Keys(PropFields(before)) ==>
      AddedLine(path, k) in Lines(before, after, path)
    ensures var removed := MissingLines(PropFields(before), PropFields(after), path, true);
      var added := MissingLines(PropFields(after), PropFields(before), path, false);
      TypeLines(before, after, path) + (removed + added) <= Lines(before, after, path)
      && NoDups(removed) && NoDups(added)
      && (forall line :: line in removed ==>
            exists k' :: k' in Keys(PropFields(before)) && k' !in Keys(PropFields(after)) && line == KeyLine(path, k', true))
      && (forall line :: line in added ==>
            exists k' :: k' in Keys(PropFields(after)) && k' !in Keys(PropFields(before)) && line == KeyLine(path, k', false))
  {
    var bp, ap := PropFields(before), PropFields(after);
    MissingLinesSpec(bp, ap, path, true);
    MissingLinesSpec(ap, bp, path, false);
    LinesSections(before, after, path);
    assert KeyLine(path, k, true) == RemovedLine(path, k) && KeyLine(path, k, false) == AddedLine(path, k);
  }

  /** The type line, the removed section and the added section open the lines of a node. */
  lemma LinesSections(before: Json, after: Json, path: string)
    requires Walkable(before, after)
    ensures TypeLines(before, after, path) + (MissingLines(PropFields(before), PropFields(after), path, true)
      + MissingLines(PropFields(after), PropFields(before), path, false)) <= Lines(before, after, path)
  {
    var bp, ap := PropFields(before), PropFields(after);
    var t, removed, added := TypeLines(before, after, path), MissingLines(bp, ap, path, true), MissingLines(ap, bp, path, false);
    ChildSections(before, after, path);
    var c := ChildLines(before, after, path);
    assert Lines(before, after, path) == t + c;
    PrefixAfter(t, removed + added, c);
  }

  /** A prefix stays a prefix behind a common head. */
  lemma PrefixAfter(t: seq<string>, a: seq<string>, b: seq<string>)
    requires a <= b
    ensures t + a <= t + b
  {
    assert (t + b)[..|t| + |a|] == t + a;
  }

  /** The removed section, then the added section, open the lines of the children. */
  lemma ChildSections(before: Json, after: Json, path: string)
    requires Walkable(before, after)
    ensures MissingLines(PropFields(before), PropFields(after), path, true)
      + MissingLines(PropFields(after), PropFields(before), path, false) <= ChildLines(before, after, path)
  {
  }

  /** Identical schemas give the empty text. */
  lemma CompareTextSame(node: Json)
    requires Walkable(node, node)
    ensures CompareText(node, node) == ""
  {
    LinesSame(node, "");
  }
}
