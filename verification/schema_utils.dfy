/**
 * Schema inference of the typed snapshot tool: the classification of a value into
 * a schema kind, the recursive `RawSchema` record, inference from one value, the
 * recursive union of two schemas and the translation into a JSON Schema document.
 */
module SchemaUtils {
  import opened Wrappers
  import opened Text
  import opened JsonValues

  /** The closed set of kinds a value can be classified into. */
  datatype Kind = NullType | BooleanType | IntegerType | NumberType | StringType | ArrayType | ObjectType {
    /** The JSON Schema type name of the kind. */
    function Name(): string {
      match this
      case NullType => "null"
      case BooleanType => "boolean"
      case IntegerType => "integer"
      case NumberType => "number"
      case StringType => "string"
      case ArrayType => "array"
      case ObjectType => "object"
    }
  }

  const UnsupportedPrefix: string := "Неподдерживаемый тип: "

  /** Classifies a value; any value outside the JSON kinds is an error. */
  function TypeName(v: Json): (r: Result<Kind, string>)
    ensures r.Failure? <==> v.Unsupported?
    ensures r.Failure? ==> r.error == UnsupportedPrefix + v.pyType
    ensures r == Success(NullType) <==> v.Null?
    ensures r == Success(BooleanType) <==> v.Bool?
    ensures r == Success(IntegerType) <==> v.Int?
    ensures r == Success(NumberType) <==> v.Float?
    ensures r == Success(StringType) <==> v.Str?
    ensures r == Success(ArrayType) <==> v.Arr?
    ensures r == Success(ObjectType) <==> v.Obj?
  {
    match v
    case Null => Success(NullType)
    case Bool(_) => Success(BooleanType)
    case Int(_) => Success(IntegerType)
    case Float(_) => Success(NumberType)
    case Str(_) => Success(StringType)
    case Arr(_) => Success(ArrayType)
    case Obj(_) => Success(ObjectType)
    case Unsupported(t) => Failure(UnsupportedPrefix + t)
  }

  /**
   * The intermediate schema: the list of type names seen, and for objects and
   * arrays their property schemas and item schemas.
   */
  datatype RawSchema = RawSchema(
    typeNames: seq<Kind>,
    properties: PropsField,
    items: ItemsField,
    required: Option<seq<string>>,
    format: Option<string>)

  /** The optional property map of a schema (`None` or a dict). */
  datatype PropsField = NoProps | Props(entries: seq<(string, RawSchema)>)

  /** The optional item list of a schema (`None` or a list). */
  datatype ItemsField = NoItems | Items(schemas: seq<RawSchema>)

  /** A schema of one kind and nothing else. */
  function Leaf(k: Kind): RawSchema {
    RawSchema([k], NoProps, NoItems, None, None)
  }

  /** `s.properties or {}`. */
  function PropsOf(s: RawSchema): seq<(string, RawSchema)> {
    if s.properties.Props? then s.properties.entries else []
  }

  /** `s.items or []`. */
  function ItemsOf(s: RawSchema): seq<RawSchema> {
    if s.items.Items? then s.items.schemas else []
  }

  // ------------------------------------------------------------ nesting depth

  function Max(a: int, b: int): int {
    if a >= b then a else b
  }

  /** Nesting depth of a schema: the measure under which merging terminates. */
  ghost function Depth(s: RawSchema): nat
    decreases s, 1
  {
    var pd := match s.properties
      case NoProps => 0
      case Props(ps) => PropsDepth(ps);
    var id := match s.items
      case NoItems => 0
      case Items(its) => MaxDepth(its);
    1 + Max(pd, id)
  }

  /** The greatest depth of the schemas of a property map (0 when empty). */
  ghost function PropsDepth(ps: seq<(string, RawSchema)>): nat
    decreases ps, 0
  {
    if ps == [] then 0
    else
      assert ps[0].1 < ps[0];
      Max(Depth(ps[0].1), PropsDepth(ps[1..]))
  }

  /** The greatest depth of a list of schemas (0 when empty). */
  ghost function MaxDepth(xs: seq<RawSchema>): nat
    decreases xs, 0
  {
    if xs == [] then 0 else Max(Depth(xs[0]), MaxDepth(xs[1..]))
  }

  ghost function DepthOpt(o: Option<RawSchema>): nat {
    if o.Some? then Depth(o.value) else 0
  }

  lemma {:induction false} MaxDepthElem(xs: seq<RawSchema>, i: nat)
    requires i < |xs|
    ensures Depth(xs[i]) <= MaxDepth(xs)
  {
    if i > 0 {
      MaxDepthElem(xs[1..], i - 1);
    }
  }

  lemma {:induction false} MaxDepthAppend(xs: seq<RawSchema>, ys: seq<RawSchema>)
    ensures MaxDepth(xs + ys) == Max(MaxDepth(xs), MaxDepth(ys))
  {
    if xs != [] {
      assert (xs + ys)[1..] == xs[1..] + ys;
      MaxDepthAppend(xs[1..], ys);
    } else {
      assert xs + ys == ys;
    }
  }

  lemma {:induction false} PropsDepthElem(ps: seq<(string, RawSchema)>, i: nat)
    requires i < |ps|
    ensures Depth(ps[i].1) <= PropsDepth(ps)
  {
    if i > 0 {
      PropsDepthElem(ps[1..], i - 1);
    }
  }

  lemma GetDepth(ps: seq<(string, RawSchema)>, k: string)
    ensures Get(ps, k).Some? ==> Depth(Get(ps, k).value) <= PropsDepth(ps)
  {
    var i := Find(ps, k);
    if i >= 0 {
      PropsDepthElem(ps, i);
    }
  }

  /** A property map whose schemas are all below the bound has its depth below it. */
  lemma {:induction false} PropsDepthBelow(ps: seq<(string, RawSchema)>, bound: nat)
    requires bound >= 1
    requires forall i :: 0 <= i < |ps| ==> Depth(ps[i].1) < bound
    ensures PropsDepth(ps) < bound
  {
    if ps != [] {
      PropsDepthBelow(ps[1..], bound);
    }
  }

  /** A list of schemas all below the bound has its depth below it. */
  lemma {:induction false} MaxDepthBelow(xs: seq<RawSchema>, bound: nat)
    requires bound >= 1
    requires forall i :: 0 <= i < |xs| ==> Depth(xs[i]) < bound
    ensures MaxDepth(xs) < bound
  {
    if xs != [] {
      MaxDepthBelow(xs[1..], bound);
    }
  }

  /** A node is no deeper than the bound when all its children are below it. */
  lemma DepthAtMost(s: RawSchema, bound: nat)
    requires bound >= 1
    requires forall i :: 0 <= i < |PropsOf(s)| ==> Depth(PropsOf(s)[i].1) < bound
    requires forall i :: 0 <= i < |ItemsOf(s)| ==> Depth(ItemsOf(s)[i]) < bound
    ensures Depth(s) <= bound
  {
    PropsDepthBelow(PropsOf(s), bound);
    MaxDepthBelow(ItemsOf(s), bound);
  }

  lemma PropsBelow(s: RawSchema)
    ensures PropsDepth(PropsOf(s)) < Depth(s)
  {
  }

  /** Both operands' item lists together stay below the deeper operand. */
  lemma BothItemsBelow(a: RawSchema, b: RawSchema)
    ensures MaxDepth(ItemsOf(a) + ItemsOf(b)) < Max(Depth(a), Depth(b))
  {
    MaxDepthAppend(ItemsOf(a), ItemsOf(b));
  }

  // ------------------------------------------------------------ merging

  /** Every property key of either operand, each once, `a`'s first. */
  function AllKeys(pa: seq<(string, RawSchema)>, pb: seq<(string, RawSchema)>): (ks: seq<string>)
    ensures NoDups(ks)
    ensures forall k :: k in ks <==> k in Keys(pa) || k in Keys(pb)
  {
    var ks := Dedup(KeyList(pa) + KeyList(pb));
    KeyListKeys(pa);
    KeyListKeys(pb);
    forall k ensures k in ks <==> k in KeyList(pa) + KeyList(pb) {
      if k in ks {
        var i :| 0 <= i < |ks| && ks[i] == k;
      }
      if k in KeyList(pa) + KeyList(pb) {
        var i :| 0 <= i < |KeyList(pa) + KeyList(pb)| && (KeyList(pa) + KeyList(pb))[i] == k;
      }
    }
    ks
  }

  /** The keys of `keys`, in order, that both property maps hold. */
  function Shared(pa: seq<(string, RawSchema)>, pb: seq<(string, RawSchema)>, keys: seq<string>): (r: seq<string>)
    ensures forall k :: k in r <==> k in keys && k in Keys(pa) && k in Keys(pb)
    ensures NoDups(keys) ==> NoDups(r)
  {
    if keys == [] then []
    else
      var k := keys[|keys| - 1];
      var init := Shared(pa, pb, keys[..|keys| - 1]);
      assert forall x :: x in keys <==> x in keys[..|keys| - 1] || x == k by {
        assert keys == keys[..|keys| - 1] + [k];
      }
      if k in Keys(pa) && k in Keys(pb) then init + [k] else init
  }

  /**
   * The merged schema under key `k`: the union of both children when both maps
   * hold `k`, otherwise the one child present.
   */
  function MergeEntry(pa: seq<(string, RawSchema)>, pb: seq<(string, RawSchema)>, k: string): (r: RawSchema)
    requires k in Keys(pa) || k in Keys(pb)
    ensures Depth(r) <= Max(PropsDepth(pa), PropsDepth(pb))
    decreases Max(PropsDepth(pa), PropsDepth(pb)) + 1, 1, 0
  {
    var ga, gb := Get(pa, k), Get(pb, k);
    GetDepth(pa, k);
    GetDepth(pb, k);
    if ga.Some? && gb.Some? then Merge(ga.value, gb.value)
    else if ga.Some? then ga.value
    else gb.value
  }

  /** The merged property map over `keys`, in that order. */
  function MergeProps(pa: seq<(string, RawSchema)>, pb: seq<(string, RawSchema)>, keys: seq<string>): (r: seq<(string, RawSchema)>)
    requires forall k :: k in keys ==> k in Keys(pa) || k in Keys(pb)
    ensures |r| == |keys|
    ensures forall i :: 0 <= i < |keys| ==> r[i] == (keys[i], MergeEntry(pa, pb, keys[i]))
    decreases Max(PropsDepth(pa), PropsDepth(pb)) + 1, 1, |keys|
  {
    if keys == [] then []
    else
      var k, init := keys[|keys| - 1], keys[..|keys| - 1];
      assert forall i :: 0 <= i < |init| ==> init[i] == keys[i];
      assert forall k' :: k' in init ==> k' in keys;
      var rest := MergeProps(pa, pb, init);
      var r := rest + [(k, MergeEntry(pa, pb, k))];
      assert forall i :: 0 <= i < |init| ==> r[i] == rest[i];
      r
  }

  /** Left fold of `Merge` over `xs`, starting from `acc` (`None` before the first schema). */
  function Fold(acc: Option<RawSchema>, xs: seq<RawSchema>): (r: Option<RawSchema>)
    ensures r.Some? <==> acc.Some? || xs != []
    ensures DepthOpt(r) <= Max(DepthOpt(acc), MaxDepth(xs))
    decreases Max(DepthOpt(acc), MaxDepth(xs)) + 1, 0, |xs|
  {
    if xs == [] then acc
    else
      MaxDepthElem(xs, 0);
      var next := if acc.None? then xs[0] else Merge(acc.value, xs[0]);
      Fold(Some(next), xs[1..])
  }

  /** The property map of the merged node: present only when `object` is among the merged types. */
  function MergedProps(a: RawSchema, b: RawSchema): (r: PropsField)
    ensures r.Props? ==> forall i :: 0 <= i < |r.entries| ==> Depth(r.entries[i].1) < Max(Depth(a), Depth(b))
    decreases Max(Depth(a), Depth(b)), 2, 0
  {
    if ObjectType in Dedup(a.typeNames + b.typeNames) then
      var pa, pb := PropsOf(a), PropsOf(b);
      PropsBelow(a);
      PropsBelow(b);
      var bound := Max(PropsDepth(pa), PropsDepth(pb));
      assert bound < Max(Depth(a), Depth(b));
      var m := MergeProps(pa, pb, AllKeys(pa, pb));
      assert forall i :: 0 <= i < |m| ==> Depth(m[i].1) <= bound;
      Props(m)
    else NoProps
  }

  /** The `required` list of the merged node: the sorted shared keys, `None` when there are none. */
  function MergedRequired(a: RawSchema, b: RawSchema): Option<seq<string>> {
    var shared := SharedSorted(PropsOf(a), PropsOf(b));
    if ObjectType in Dedup(a.typeNames + b.typeNames) && shared != [] then Some(shared) else None
  }

  /** The item list of the merged node: the fold of both operands' items into at most one schema. */
  function MergedItems(a: RawSchema, b: RawSchema): (r: ItemsField)
    ensures r.Items? ==> |r.schemas| <= 1 && forall i :: 0 <= i < |r.schemas| ==> Depth(r.schemas[i]) < Max(Depth(a), Depth(b))
    decreases Max(Depth(a), Depth(b)), 2, 0
  {
    if ArrayType in Dedup(a.typeNames + b.typeNames) then
      BothItemsBelow(a, b);
      var combined := Fold(None, ItemsOf(a) + ItemsOf(b));
      Items(if combined.Some? then [combined.value] else [])
    else NoItems
  }

  /**
   * The recursive union of two schemas. Only the type names, the property maps
   * and the item lists of the operands are read; `format` is never carried over.
   */
  function Merge(a: RawSchema, b: RawSchema): (r: RawSchema)
    ensures Depth(r) <= Max(Depth(a), Depth(b))
    decreases Max(Depth(a), Depth(b)), 3, 0
  {
    var r := RawSchema(Dedup(a.typeNames + b.typeNames), MergedProps(a, b), MergedItems(a, b), MergedRequired(a, b), None);
    DepthAtMost(r, Max(Depth(a), Depth(b)));
    r
  }

  /**
   * The merged type names are `a`'s names followed by `b`'s names not already
   * present: each name once, exactly the names of either operand.
   */
  lemma MergeTypeNames(a: RawSchema, b: RawSchema)
    ensures var names := Merge(a, b).typeNames;
      && (forall k :: k in names <==> k in a.typeNames || k in b.typeNames)
      && NoDups(names)
      && Dedup(a.typeNames) <= names
  {
    forall k ensures k in Merge(a, b).typeNames <==> k in a.typeNames + b.typeNames {
      DedupMember(a.typeNames + b.typeNames, k);
    }
    DedupPrefix(a.typeNames, b.typeNames);
  }

  /**
   * A merged node has a property map exactly when `object` is among its types and
   * an item list exactly when `array` is; the item list holds at most one schema
   * and is empty only when neither operand has items; `format` is always dropped.
   */
  lemma MergeShape(a: RawSchema, b: RawSchema)
    ensures var r := Merge(a, b);
      && (r.properties.Props? <==> ObjectType in r.typeNames)
      && (r.required.Some? ==> r.properties.Props?)
      && (r.items.Items? <==> ArrayType in r.typeNames)
      && (r.items.Items? ==> |r.items.schemas| <= 1 && (r.items.schemas == [] <==> ItemsOf(a) + ItemsOf(b) == []))
      && r.format == None
  {
  }

  /** Where `Get` finds a key of a merged property map. */
  lemma MergePropsGet(pa: seq<(string, RawSchema)>, pb: seq<(string, RawSchema)>, keys: seq<string>, i: nat)
    requires forall k :: k in keys ==> k in Keys(pa) || k in Keys(pb)
    requires NoDups(keys) && i < |keys|
    ensures Get(MergeProps(pa, pb, keys), keys[i]) == Some(MergeEntry(pa, pb, keys[i]))
  {
    FindIs(MergeProps(pa, pb, keys), keys[i], i);
  }

  /** `object` is among the merged types exactly when it is among either operand's. */
  lemma MergedKindIn(a: RawSchema, b: RawSchema, k: Kind)
    ensures k in Dedup(a.typeNames + b.typeNames) <==> k in a.typeNames || k in b.typeNames
  {
    DedupMember(a.typeNames + b.typeNames, k);
  }

  /** With `object` among the operands' types, the merged property map is built over all keys. */
  lemma MergedPropsOf(a: RawSchema, b: RawSchema)
    requires ObjectType in a.typeNames || ObjectType in b.typeNames
    ensures Merge(a, b).properties == Props(MergeProps(PropsOf(a), PropsOf(b), AllKeys(PropsOf(a), PropsOf(b))))
  {
    MergedKindIn(a, b, ObjectType);
    assert Merge(a, b).properties == MergedProps(a, b);
  }

  /** The merged property map has exactly the keys of both operands, each once. */
  lemma MergePropertyKeys(a: RawSchema, b: RawSchema)
    requires ObjectType in a.typeNames || ObjectType in b.typeNames
    ensures Merge(a, b).properties.Props?
    ensures var ps := Merge(a, b).properties.entries;
      Keys(ps) == Keys(PropsOf(a)) + Keys(PropsOf(b)) && DistinctKeys(ps)
  {
    MergedPropsOf(a, b);
    var pa, pb := PropsOf(a), PropsOf(b);
    MergePropsKeys(pa, pb, AllKeys(pa, pb));
  }

  /**
   * A key of one operand only is carried over unchanged, a shared key holds the
   * recursive merge of both children, and no other key appears.
   */
  lemma MergeProperties(a: RawSchema, b: RawSchema, k: string)
    requires ObjectType in a.typeNames || ObjectType in b.typeNames
    ensures Merge(a, b).properties.Props?
    ensures var ps, pa, pb := Merge(a, b).properties.entries, PropsOf(a), PropsOf(b);
      && (k in Keys(pa) && k in Keys(pb) ==> Get(ps, k) == Some(Merge(Get(pa, k).value, Get(pb, k).value)))
      && (k in Keys(pa) && k !in Keys(pb) ==> Get(ps, k) == Get(pa, k))
      && (k !in Keys(pa) && k in Keys(pb) ==> Get(ps, k) == Get(pb, k))
      && (k !in Keys(pa) && k !in Keys(pb) ==> Get(ps, k) == None)
  {
    MergedPropsOf(a, b);
    var pa, pb := PropsOf(a), PropsOf(b);
    var keys := AllKeys(pa, pb);
    MergePropsKeys(pa, pb, keys);
    if k in keys {
      var i :| 0 <= i < |keys| && keys[i] == k;
      MergePropsGet(pa, pb, keys, i);
    }
  }

  /** The merged property map lists exactly `keys`, in order. */
  lemma MergePropsKeys(pa: seq<(string, RawSchema)>, pb: seq<(string, RawSchema)>, keys: seq<string>)
    requires forall k :: k in keys ==> k in Keys(pa) || k in Keys(pb)
    ensures KeyList(MergeProps(pa, pb, keys)) == keys
    ensures forall k :: k in Keys(MergeProps(pa, pb, keys)) <==> k in keys
  {
    var ps := MergeProps(pa, pb, keys);
    assert KeyList(ps) == keys;
    KeyListKeys(ps);
  }

  /** The sorted keys present in both property maps. */
  function SharedSorted(pa: seq<(string, RawSchema)>, pb: seq<(string, RawSchema)>): seq<string> {
    Sort(Shared(pa, pb, AllKeys(pa, pb)))
  }

  lemma SharedSortedSpec(pa: seq<(string, RawSchema)>, pb: seq<(string, RawSchema)>)
    ensures Sorted(SharedSorted(pa, pb))
    ensures forall k :: k in SharedSorted(pa, pb) <==> k in Keys(pa) && k in Keys(pb)
    ensures SharedSorted(pa, pb) == [] <==> Keys(pa) * Keys(pb) == {}
  {
    var sh := Shared(pa, pb, AllKeys(pa, pb));
    var sorted := Sort(sh);
    forall k ensures k in sorted <==> k in sh {
      assert k in sorted <==> k in multiset(sorted);
      assert k in sh <==> k in multiset(sh);
    }
    assert sorted == [] <==> sh == [] by {
      assert |sorted| == |multiset(sorted)| == |multiset(sh)| == |sh|;
    }
    if Keys(pa) * Keys(pb) != {} {
      var k :| k in Keys(pa) * Keys(pb);
      assert k in sh;
    }
    if sh != [] {
      assert sh[0] in Keys(pa) * Keys(pb);
    }
  }

  /**
   * The merged `required` is the sorted list of the keys both operands' property
   * maps hold, or absent when they share none; the operands' own `required` lists
   * play no part.
   */
  lemma MergeRequired(a: RawSchema, b: RawSchema)
    requires ObjectType in a.typeNames || ObjectType in b.typeNames
    ensures Merge(a, b).required.None? <==> Keys(PropsOf(a)) * Keys(PropsOf(b)) == {}
    ensures var req := Merge(a, b).required;
      req.Some? ==> Sorted(req.value) && forall k :: k in req.value <==> k in Keys(PropsOf(a)) && k in Keys(PropsOf(b))
  {
    MergedKindIn(a, b, ObjectType);
    assert Merge(a, b).required == MergedRequired(a, b);
    SharedSortedSpec(PropsOf(a), PropsOf(b));
  }

  /** Swapping the operands changes neither the merged property keys nor `required`. */
  lemma MergeSymmetric(a: RawSchema, b: RawSchema)
    requires ObjectType in a.typeNames || ObjectType in b.typeNames
    ensures Merge(a, b).properties.Props? && Merge(b, a).properties.Props?
    ensures Keys(Merge(a, b).properties.entries) == Keys(Merge(b, a).properties.entries)
    ensures Merge(a, b).required == Merge(b, a).required
  {
    MergePropertyKeys(a, b);
    MergePropertyKeys(b, a);
    assert Merge(a, b).required == Merge(b, a).required by {
      assert Merge(a, b).required == MergedRequired(a, b);
      assert Merge(b, a).required == MergedRequired(b, a);
      MergedKindIn(a, b, ObjectType);
      MergedKindIn(b, a, ObjectType);
      SharedSortedSymmetric(PropsOf(a), PropsOf(b));
    }
  }

  lemma SharedSortedSymmetric(pa: seq<(string, RawSchema)>, pb: seq<(string, RawSchema)>)
    ensures SharedSorted(pa, pb) == SharedSorted(pb, pa)
  {
    var s1 := Shared(pa, pb, AllKeys(pa, pb));
    var s2 := Shared(pb, pa, AllKeys(pb, pa));
    NoDupsSameElements(s1, s2);
    SortPermutationInvariant(s1, s2);
  }

  /** Every type name of the schemas in `xs`, in order. */
  function AllTypeNames(xs: seq<RawSchema>): seq<Kind> {
    if xs == [] then [] else xs[0].typeNames + AllTypeNames(xs[1..])
  }

  lemma FoldStep(acc: RawSchema, xs: seq<RawSchema>)
    requires xs != []
    ensures Fold(Some(acc), xs) == Fold(Some(Merge(acc, xs[0])), xs[1..])
  {
  }

  lemma MergeTypeNamesDef(a: RawSchema, b: RawSchema)
    ensures Merge(a, b).typeNames == Dedup(a.typeNames + b.typeNames)
  {
  }

  /** Folding a list of schemas collects their type names in first-seen order. */
  lemma {:induction false} FoldTypeNames(acc: RawSchema, xs: seq<RawSchema>)
    requires NoDups(acc.typeNames)
    ensures Fold(Some(acc), xs).value.typeNames == Dedup(acc.typeNames + AllTypeNames(xs))
    decreases xs
  {
    if xs == [] {
      assert acc.typeNames + AllTypeNames(xs) == acc.typeNames;
      DedupOfNoDups(acc.typeNames);
    } else {
      var next := Merge(acc, xs[0]);
      FoldStep(acc, xs);
      MergeTypeNamesDef(acc, xs[0]);
      FoldTypeNames(next, xs[1..]);
      DedupRegroup(acc.typeNames, xs[0].typeNames, AllTypeNames(xs[1..]));
    }
  }

  /** `_merge_schemas`: builds the merged node field by field. */
  method MergeSchemas(a: RawSchema, b: RawSchema) returns (merged: RawSchema)
    ensures merged == Merge(a, b)
    decreases Max(Depth(a), Depth(b)), 2
  {
    merged := RawSchema(Dedup(a.typeNames + b.typeNames), NoProps, NoItems, None, None);
    MergeFields(a, b);
    if ObjectType in merged.typeNames {
      var pa, pb := PropsOf(a), PropsOf(b);
      PropsBelow(a);
      PropsBelow(b);
      var props, required := MergePropertyMaps(pa, pb);
      var sorted := Sort(required);
      merged := merged.(properties := Props(props), required := if sorted == [] then None else Some(sorted));
    }
    if ArrayType in merged.typeNames {
      BothItemsBelow(a, b);
      var combined := CombineItems(ItemsOf(a) + ItemsOf(b));
      merged := merged.(items := Items(if combined.Some? then [combined.value] else []));
    }
  }

  /** The fields of `Merge(a, b)`, spelled out by the presence of `object` and `array`. */
  lemma MergeFields(a: RawSchema, b: RawSchema)
    ensures var names := Dedup(a.typeNames + b.typeNames);
      var pa, pb := PropsOf(a), PropsOf(b);
      var sorted := Sort(Shared(pa, pb, AllKeys(pa, pb)));
      var combined := Fold(None, ItemsOf(a) + ItemsOf(b));
      && Merge(a, b).typeNames == names
      && Merge(a, b).format == None
      && Merge(a, b).properties == (if ObjectType in names then Props(MergeProps(pa, pb, AllKeys(pa, pb))) else NoProps)
      && Merge(a, b).required == (if ObjectType in names && sorted != [] then Some(sorted) else None)
      && Merge(a, b).items == (if ArrayType in names then Items(if combined.Some? then [combined.value] else []) else NoItems)
  {
    assert Merge(a, b).properties == MergedProps(a, b);
    assert Merge(a, b).required == MergedRequired(a, b);
    assert Merge(a, b).items == MergedItems(a, b);
  }

  /**
   * The property loop of `_merge_schemas`: one entry per key of either map, and the
   * list of keys both maps hold, in iteration order.
   */
  method MergePropertyMaps(pa: seq<(string, RawSchema)>, pb: seq<(string, RawSchema)>)
    returns (props: seq<(string, RawSchema)>, required: seq<string>)
    ensures props == MergeProps(pa, pb, AllKeys(pa, pb))
    ensures required == Shared(pa, pb, AllKeys(pa, pb))
    decreases Max(PropsDepth(pa), PropsDepth(pb)) + 1, 1
  {
    var keys := AllKeys(pa, pb);
    props, required := [], [];
    for i := 0 to |keys|
      invariant props == MergeProps(pa, pb, keys[..i])
      invariant required == Shared(pa, pb, keys[..i])
    {
      var key := keys[i];
      MergePropsStep(pa, pb, keys, i);
      var ga, gb := Get(pa, key), Get(pb, key);
      MergeEntryOf(pa, pb, key);
      var prop;
      if ga.Some? && gb.Some? {
        GetDepth(pa, key);
        GetDepth(pb, key);
        prop := MergeSchemas(ga.value, gb.value);
        required := required + [key];
      } else {
        prop := if ga.Some? then ga.value else gb.value;
      }
      assert prop == MergeEntry(pa, pb, key);
      // `key` is new to the map, so assigning it appends an entry
      props := props + [(key, prop)];
    }
    assert keys[..|keys|] == keys;
  }

  lemma MergePropsStep(pa: seq<(string, RawSchema)>, pb: seq<(string, RawSchema)>, keys: seq<string>, i: nat)
    requires forall k :: k in keys ==> k in Keys(pa) || k in Keys(pb)
    requires i < |keys|
    ensures MergeProps(pa, pb, keys[..i + 1]) == MergeProps(pa, pb, keys[..i]) + [(keys[i], MergeEntry(pa, pb, keys[i]))]
    ensures Shared(pa, pb, keys[..i + 1]) ==
      Shared(pa, pb, keys[..i]) + if keys[i] in Keys(pa) && keys[i] in Keys(pb) then [keys[i]] else []
  {
    assert keys[..i + 1][..i] == keys[..i];
  }

  lemma MergeEntryOf(pa: seq<(string, RawSchema)>, pb: seq<(string, RawSchema)>, k: string)
    requires k in Keys(pa) || k in Keys(pb)
    ensures Get(pa, k).Some? && Get(pb, k).Some? ==> MergeEntry(pa, pb, k) == Merge(Get(pa, k).value, Get(pb, k).value)
    ensures Get(pa, k).Some? && Get(pb, k).None? ==> MergeEntry(pa, pb, k) == Get(pa, k).value
    ensures Get(pa, k).None? ==> Get(pb, k).Some? && MergeEntry(pa, pb, k) == Get(pb, k).value
  {
  }

  /** The item loop of `_merge_schemas`: folds the schemas left to right. */
  method CombineItems(all: seq<RawSchema>) returns (combined: Option<RawSchema>)
    ensures combined == Fold(None, all)
    decreases MaxDepth(all) + 1, 1
  {
    combined := None;
    for i := 0 to |all|
      invariant Fold(combined, all[i..]) == Fold(None, all)
      invariant DepthOpt(combined) <= MaxDepth(all)
    {
      MaxDepthElem(all, i);
      assert all[i..][1..] == all[i + 1..];
      if combined.None? {
        combined := Some(all[i]);
      } else {
        var m := MergeSchemas(combined.value, all[i]);
        combined := Some(m);
      }
    }
  }

  /** The loop of `gen_schema` folding the element schemas of a non-empty list. */
  method MergeItemSchemas(schemas: seq<RawSchema>) returns (merged: RawSchema)
    requires schemas != []
    ensures Some(merged) == Fold(Some(schemas[0]), schemas[1..])
  {
    merged := schemas[0];
    for i := 1 to |schemas|
      invariant Fold(Some(merged), schemas[i..]) == Fold(Some(schemas[0]), schemas[1..])
    {
      assert schemas[i..][1..] == schemas[i + 1..];
      merged := MergeSchemas(merged, schemas[i]);
    }
  }

  // ------------------------------------------------------------ format detection

  /**
   * The library parsers `_detect_format` consults, as predicates on the string:
   * `datetime.strptime` with `%Y-%m-%dT%H:%M:%S%z`, with `%Y-%m-%dT%H:%M:%SZ` and
   * with `%Y-%m-%d`, `urlparse` yielding scheme `http`/`https` and a non-empty
   * network location, and `ipaddress.ip_address` yielding an IPv4 address.
   * `urlparseError` is the message of the `ValueError` that `urlparse` raises,
   * if it raises: CPython's `urlsplit` does so when the network location holds
   * an unmatched `[` or `]` ("Invalid IPv6 URL", as for `http://[x`). Unlike the
   * other parsers, this call is not inside a `try`.
   */
  datatype Parsers = Parsers(
    dateTimeWithOffset: string -> bool,
    dateTimeZulu: string -> bool,
    date: string -> bool,
    urlparseError: string -> Option<string>,
    httpUri: string -> bool,
    ipv4: string -> bool)

  /** One or more characters, none of them `@` or whitespace (`[^@\s]+`). */
  predicate EmailPart(t: string) {
    |t| > 0 && forall i :: 0 <= i < |t| ==> t[i] != '@' && !IsSpace(t[i])
  }

  /** The whole string is `[^@\s]+@[^@\s]+\.[^@\s]+`. */
  predicate EmailShape(s: string) {
    exists i, j :: 0 < i < j < |s| && s[i] == '@' && s[j] == '.'
      && EmailPart(s[..i]) && EmailPart(s[i + 1..j]) && EmailPart(s[j + 1..])
  }

  /** `re.match` of the anchored e-mail pattern, whose `$` also matches before a final newline. */
  predicate IsEmail(s: string) {
    MatchesAnchored(EmailShape, s)
  }

  /** Either date-time layout; the `Z` layout is tried only on strings ending in `Z`. */
  predicate IsDateTime(p: Parsers, s: string) {
    p.dateTimeWithOffset(s) || (|s| > 0 && s[|s| - 1] == 'Z' && p.dateTimeZulu(s))
  }

  /** The detectors in the order `_detect_format` tries them. */
  function FormatRules(p: Parsers): seq<(string, string -> bool)> {
    [("date-time", s => IsDateTime(p, s)), ("date", p.date), ("email", IsEmail),
     ("uri", s => p.urlparseError(s).None? && p.httpUri(s)), ("ipv4", p.ipv4)]
  }

  /** The string gets past the date-time, date and e-mail steps to the unguarded `urlparse`. */
  predicate ReachesUrlparse(p: Parsers, s: string) {
    !IsDateTime(p, s) && !p.date(s) && !IsEmail(s)
  }

  /**
   * `_detect_format`: the name of the first format that recognises the string,
   * or the `ValueError` of `urlparse` when the string reaches it and it raises.
   */
  function DetectFormat(p: Parsers, s: string): (r: Result<Option<string>, string>)
    ensures r.Failure? <==> ReachesUrlparse(p, s) && p.urlparseError(s).Some?
    ensures r.Failure? ==> r.error == p.urlparseError(s).value
    ensures r.Success? ==> FirstMatch(FormatRules(p), s, r.value)
    ensures r.Success? && r.value.Some? ==> r.value.value != ""
  {
    var rules := FormatRules(p);
    if IsDateTime(p, s) then
      assert rules[0].1(s);
      Success(Some("date-time"))
    else if p.date(s) then
      assert rules[1].1(s);
      Success(Some("date"))
    else if IsEmail(s) then
      assert rules[2].1(s);
      Success(Some("email"))
    else if p.urlparseError(s).Some? then
      Failure(p.urlparseError(s).value)
    else if p.httpUri(s) then
      assert rules[3].1(s);
      Success(Some("uri"))
    else if p.ipv4(s) then
      assert rules[4].1(s);
      Success(Some("ipv4"))
    else
      Success(None)
  }

  // ------------------------------------------------------------ inference

  /** The value and everything nested in it is of a JSON kind. */
  predicate Supported(v: Json)
    decreases v, 1
  {
    match v
    case Unsupported(_) => false
    case Arr(es) => SupportedElems(es)
    case Obj(fs) => SupportedFields(fs)
    case _ => true
  }

  predicate SupportedElems(es: seq<Json>)
    decreases es, 0
  {
    es == [] || (Supported(es[0]) && SupportedElems(es[1..]))
  }

  predicate SupportedFields(fs: seq<(string, Json)>)
    decreases fs, 0
  {
    fs == [] || (assert fs[0].1 < fs[0]; Supported(fs[0].1) && SupportedFields(fs[1..]))
  }

  /** No string anywhere in the value makes `_detect_format` raise. */
  predicate UrlsParse(p: Parsers, v: Json)
    decreases v, 1
  {
    match v
    case Str(s) => DetectFormat(p, s).Success?
    case Arr(es) => UrlsParseElems(p, es)
    case Obj(fs) => UrlsParseFields(p, fs)
    case _ => true
  }

  predicate UrlsParseElems(p: Parsers, es: seq<Json>)
    decreases es, 0
  {
    es == [] || (UrlsParse(p, es[0]) && UrlsParseElems(p, es[1..]))
  }

  predicate UrlsParseFields(p: Parsers, fs: seq<(string, Json)>)
    decreases fs, 0
  {
    fs == [] || (assert fs[0].1 < fs[0]; UrlsParse(p, fs[0].1) && UrlsParseFields(p, fs[1..]))
  }

  /** `gen_schema` returns rather than raises. */
  predicate Generates(p: Parsers, v: Json) {
    Supported(v) && UrlsParse(p, v)
  }

  /**
   * `gen_schema`: the schema of one value. The first unsupported value, or the
   * first string on which `urlparse` raises, aborts generation with its error.
   */
  function GenSchema(p: Parsers, v: Json): (r: Result<RawSchema, string>)
    ensures r.Success? <==> Supported(v) && UrlsParse(p, v)
    ensures r.Failure? && UrlsParse(p, v) ==> UnsupportedPrefix <= r.error
    ensures r.Failure? && v.Str? ==> r.error == p.urlparseError(v.s).value
    ensures r.Success? ==> r.value.typeNames == [TypeName(v).value]
    ensures r.Success? ==> (r.value.properties.Props? <==> v.Obj?) && (r.value.required.Some? <==> v.Obj?)
    ensures r.Success? && v.Obj? ==>
      KeyList(r.value.properties.entries) == KeyList(v.fields) && r.value.required == Some(KeyList(v.fields))
    ensures r.Success? ==> (r.value.items.Items? <==> v.Arr? && v.elems != [])
    ensures r.Success? && r.value.items.Items? ==> |r.value.items.schemas| == 1
    ensures r.Success? ==> (r.value.format.Some? ==> v.Str?) && (v.Str? ==> r.value.format == DetectFormat(p, v.s).value)
    decreases v, 1
  {
    match v
    case Obj(fs) =>
      var props :- GenFields(p, fs);
      Success(RawSchema([ObjectType], Props(props), NoItems, Some(KeyList(fs)), None))
    case Arr(es) =>
      if es == [] then Success(Leaf(ArrayType))
      else
        var schemas :- GenElems(p, es);
        var merged := Fold(Some(schemas[0]), schemas[1..]);
        Success(RawSchema([ArrayType], NoProps, Items([merged.value]), None, None))
    case Str(s) =>
      var format :- DetectFormat(p, s);
      Success(RawSchema([StringType], NoProps, NoItems, None, format))
    case Unsupported(t) => Failure(UnsupportedPrefix + t)
    case _ => Success(Leaf(TypeName(v).value))
  }

  /** The element schemas of a list, in order; the first unsupported element raises. */
  function GenElems(p: Parsers, es: seq<Json>): (r: Result<seq<RawSchema>, string>)
    ensures r.Success? <==> SupportedElems(es) && UrlsParseElems(p, es)
    ensures r.Failure? && UrlsParseElems(p, es) ==> UnsupportedPrefix <= r.error
    ensures r.Success? ==> |r.value| == |es| && forall i :: 0 <= i < |es| ==> GenSchema(p, es[i]) == Success(r.value[i])
    decreases es, 0
  {
    if es == [] then Success([])
    else
      var head :- GenSchema(p, es[0]);
      var tail :- GenElems(p, es[1..]);
      assert forall i :: 1 <= i < |es| ==> es[i] == es[1..][i - 1];
      Success([head] + tail)
  }

  /** The property schemas of a dict, key by key in insertion order. */
  function GenFields(p: Parsers, fs: seq<(string, Json)>): (r: Result<seq<(string, RawSchema)>, string>)
    ensures r.Success? <==> SupportedFields(fs) && UrlsParseFields(p, fs)
    ensures r.Failure? && UrlsParseFields(p, fs) ==> UnsupportedPrefix <= r.error
    ensures r.Success? ==> KeyList(r.value) == KeyList(fs)
    decreases fs, 0
  {
    if fs == [] then Success([])
    else
      assert fs[0].1 < fs[0];
      var head :- GenSchema(p, fs[0].1);
      var tail :- GenFields(p, fs[1..]);
      Success([(fs[0].0, head)] + tail)
  }

  /** The schema generated under the `i`-th key is the schema of the `i`-th value. */
  lemma {:induction false} GenFieldsAt(p: Parsers, fs: seq<(string, Json)>, i: nat)
    requires SupportedFields(fs) && UrlsParseFields(p, fs) && i < |fs|
    ensures GenSchema(p, fs[i].1) == Success(GenFields(p, fs).value[i].1)
  {
    assert fs[0].1 < fs[0];
    if i > 0 {
      GenFieldsAt(p, fs[1..], i - 1);
    }
  }

  /** Each property of an inferred object schema is the schema of the value under that key. */
  lemma GenSchemaProperty(p: Parsers, fs: seq<(string, Json)>, k: string)
    requires Generates(p, Obj(fs))
    ensures var ps := GenSchema(p, Obj(fs)).value.properties.entries;
      (Get(ps, k).Some? <==> Get(fs, k).Some?)
      && (Get(fs, k).Some? ==> Success(Get(ps, k).value) == GenSchema(p, Get(fs, k).value))
  {
    var ps := GenSchema(p, Obj(fs)).value.properties.entries;
    KeyListKeys(ps);
    KeyListKeys(fs);
    var i := Find(fs, k);
    if i >= 0 {
      assert KeyList(ps)[i] == k;
      FindIs(ps, k, i);
      GenFieldsAt(p, fs, i);
    }
  }

  /** A string without `@` is never an e-mail address. */
  lemma NoAtNoEmail(s: string)
    requires '@' !in s
    ensures !IsEmail(s)
  {
    if s != [] {
      assert '@' !in s[..|s| - 1];
    }
  }

  /**
   * A string that reaches `urlparse` and makes it raise aborts `gen_schema` with
   * that error, on its own, as a list element and as the value under a key.
   */
  lemma UrlparseErrorAborts(p: Parsers, s: string, k: string)
    requires ReachesUrlparse(p, s) && p.urlparseError(s).Some?
    ensures GenSchema(p, Str(s)) == Failure(p.urlparseError(s).value)
    ensures GenSchema(p, Arr([Str(s)])) == Failure(p.urlparseError(s).value)
    ensures GenSchema(p, Obj([(k, Str(s))])) == Failure(p.urlparseError(s).value)
  {
    var fs := [(k, Str(s))];
    assert GenFields(p, fs) == Failure(p.urlparseError(s).value) by {
      assert fs[0].1 == Str(s);
    }
  }

  /**
   * `gen_schema({"link": "http://[x"})` raises: the string is neither a date-time
   * nor a date, holds no `@`, and its `[` is unmatched, so `urlparse` raises.
   */
  lemma UnmatchedBracketAborts(p: Parsers)
    requires !IsDateTime(p, "http://[x") && !p.date("http://[x")
    requires p.urlparseError("http://[x").Some?
    ensures GenSchema(p, Obj([("link", Str("http://[x"))])).Failure?
  {
    var s := "http://[x";
    assert '@' !in s;
    NoAtNoEmail(s);
    UrlparseErrorAborts(p, s, "link");
  }

  /** The kinds of the elements of a supported list, in order. */
  function ElementKinds(es: seq<Json>): (ks: seq<Kind>)
    requires SupportedElems(es)
    ensures |ks| == |es|
  {
    if es == [] then []
    else
      assert Supported(es[0]);
      assert !es[0].Unsupported?;
      [TypeName(es[0]).value] + ElementKinds(es[1..])
  }

  lemma {:induction false} AllTypeNamesOfElems(p: Parsers, es: seq<Json>)
    requires SupportedElems(es) && UrlsParseElems(p, es)
    ensures AllTypeNames(GenElems(p, es).value) == ElementKinds(es)
  {
    if es != [] {
      AllTypeNamesOfElems(p, es[1..]);
      var xs := GenElems(p, es).value;
      assert xs[1..] == GenElems(p, es[1..]).value;
    }
  }

  /**
   * The single item schema of a non-empty list lists the kinds of its elements,
   * each once, in the order they first occur.
   */
  lemma GenSchemaItemKinds(p: Parsers, es: seq<Json>)
    requires es != [] && Generates(p, Arr(es))
    ensures GenSchema(p, Arr(es)).value.items.schemas[0].typeNames == Dedup(ElementKinds(es))
  {
    var xs := GenElems(p, es).value;
    AllTypeNamesOfElems(p, es);
    assert xs[0].typeNames == [TypeName(es[0]).value];
    FoldTypeNames(xs[0], xs[1..]);
    assert xs == [xs[0]] + xs[1..];
    assert AllTypeNames(xs) == xs[0].typeNames + AllTypeNames(xs[1..]);
  }

  /**
   * The single item schema of a non-empty list is the left fold, by `merge`, of
   * the schemas of its elements, starting from the first element's schema.
   */
  lemma GenSchemaItems(p: Parsers, es: seq<Json>)
    requires es != [] && Generates(p, Arr(es))
    ensures var xs := GenElems(p, es).value;
      |xs| == |es| && (forall i :: 0 <= i < |es| ==> GenSchema(p, es[i]) == Success(xs[i]))
      && GenSchema(p, Arr(es)).value.items.schemas == [Fold(Some(xs[0]), xs[1..]).value]
  {
  }

  /** The item schema of a two-element list is the merge of the two elements' schemas. */
  lemma PairItems(p: Parsers, x: Json, y: Json)
    requires Generates(p, Arr([x, y]))
    ensures Generates(p, x) && Generates(p, y)
    ensures GenSchema(p, Arr([x, y])).value.items.schemas[0] == Merge(GenSchema(p, x).value, GenSchema(p, y).value)
  {
    var es := [x, y];
    GenSchemaItems(p, es);
    var xs := GenElems(p, es).value;
    assert xs[1..] == [xs[1]];
    assert Fold(Some(xs[0]), [xs[1]]) == Some(Merge(xs[0], xs[1]));
  }

  /** The property keys of an object's schema are the object's keys. */
  lemma ObjectSchemaKeys(p: Parsers, fs: seq<(string, Json)>)
    requires Generates(p, Obj(fs))
    ensures ObjectType in GenSchema(p, Obj(fs)).value.typeNames
    ensures Keys(PropsOf(GenSchema(p, Obj(fs)).value)) == Keys(fs)
  {
    var ps := PropsOf(GenSchema(p, Obj(fs)).value);
    KeyListKeys(ps);
    KeyListKeys(fs);
  }

  /** `[{"a": 1}, {"a": 2, "b": null}]` holds no string, so generation cannot raise on it. */
  lemma PairGenerates(p: Parsers, f1: seq<(string, Json)>, f2: seq<(string, Json)>)
    requires f1 == [("a", Int(1))] && f2 == [("a", Int(2)), ("b", Null)]
    ensures Generates(p, Arr([Obj(f1), Obj(f2)]))
  {
    assert SupportedFields(f2[1..][1..]) && Supported(f2[1..][0].1);
    assert SupportedFields(f2[1..]) && Supported(f2[0].1);
    assert Supported(Obj(f2));
    assert SupportedFields(f1[1..]) && Supported(f1[0].1);
    assert Supported(Obj(f1));
    assert UrlsParseFields(p, f2[1..][1..]) && UrlsParse(p, f2[1..][0].1);
    assert UrlsParseFields(p, f2[1..]) && UrlsParse(p, f2[0].1);
    assert UrlsParse(p, Obj(f2));
    assert UrlsParseFields(p, f1[1..]) && UrlsParse(p, f1[0].1);
    assert UrlsParse(p, Obj(f1));
    var es := [Obj(f1), Obj(f2)];
    assert es[1..][1..] == [] && es[1..][0] == Obj(f2);
    assert SupportedElems(es[1..]) && UrlsParseElems(p, es[1..]);
  }

  /** Two objects in a list: the item schema requires exactly the keys both objects have. */
  lemma PairRequiresShared(p: Parsers, f1: seq<(string, Json)>, f2: seq<(string, Json)>)
    requires Generates(p, Arr([Obj(f1), Obj(f2)]))
    requires Keys(f1) * Keys(f2) != {}
    ensures var req := GenSchema(p, Arr([Obj(f1), Obj(f2)])).value.items.schemas[0].required;
      req.Some? && forall k :: k in req.value <==> k in Keys(f1) && k in Keys(f2)
  {
    PairItems(p, Obj(f1), Obj(f2));
    ObjectSchemaKeys(p, f1);
    ObjectSchemaKeys(p, f2);
    MergeRequired(GenSchema(p, Obj(f1)).value, GenSchema(p, Obj(f2)).value);
  }

  /**
   * `[{"a": 1}, {"a": 2, "b": null}]`: the merged item schema requires only the
   * key both elements share.
   */
  lemma ObjectListItemsRequireShared(p: Parsers)
    ensures var req := GenSchema(p, Arr([Obj([("a", Int(1))]), Obj([("a", Int(2)), ("b", Null)])])).value.items.schemas[0].required;
      req.Some? && forall k :: k in req.value <==> k == "a"
  {
    var f1, f2 := [("a", Int(1))], [("a", Int(2)), ("b", Null)];
    PairGenerates(p, f1, f2);
    assert Keys(f1) == {"a"} by { assert f1[0].0 == "a"; }
    assert Keys(f2) == {"a", "b"} by { assert f2[0].0 == "a" && f2[1].0 == "b"; }
    assert "a" in Keys(f1) * Keys(f2);
    PairRequiresShared(p, f1, f2);
  }

  /**
   * `[1, 1.0, "one"]` gets one item schema of type `[integer, number, string]`
   * (`urlparse` accepts `one`, as it does any text without brackets).
   */
  lemma MixedListItemKinds(p: Parsers)
    requires p.urlparseError("one").None?
    ensures GenSchema(p, Arr([Int(1), Float("1.0"), Str("one")])).value.items.schemas[0].typeNames
      == [IntegerType, NumberType, StringType]
  {
    var es := [Int(1), Float("1.0"), Str("one")];
    var kinds := [IntegerType, NumberType, StringType];
    assert Supported(Arr(es)) by {
      assert SupportedElems(es[3..]);
      assert SupportedElems(es[2..]);
      assert SupportedElems(es[1..]);
    }
    assert UrlsParse(p, Arr(es)) by {
      assert UrlsParse(p, Str("one"));
      assert UrlsParseElems(p, es[3..]);
      assert UrlsParseElems(p, es[2..]);
      assert UrlsParseElems(p, es[1..]);
    }
    assert ElementKinds(es) == kinds by {
      assert ElementKinds(es[2..]) == [StringType];
      assert ElementKinds(es[1..]) == [NumberType, StringType];
    }
    assert NoDups(kinds);
    GenSchemaItemKinds(p, es);
    DedupOfNoDups(kinds);
  }

  // ------------------------------------------------------------ JSON Schema output

  /** `raw.type_names[0]` when there is exactly one name, else the whole list. */
  function TypeValue(names: seq<Kind>): (r: Json)
    ensures |names| == 1 ==> r == Str(names[0].Name())
    ensures |names| != 1 ==>
      r.Arr? && |r.elems| == |names| && forall i :: 0 <= i < |names| ==> r.elems[i] == Str(names[i].Name())
  {
    if |names| == 1 then Str(names[0].Name())
    else Arr(seq(|names|, i requires 0 <= i < |names| => Str(names[i].Name())))
  }

  function StrArray(xs: seq<string>): (r: Json)
    ensures r.Arr? && |r.elems| == |xs| && forall i :: 0 <= i < |xs| ==> r.elems[i] == Str(xs[i])
  {
    Arr(seq(|xs|, i requires 0 <= i < |xs| => Str(xs[i])))
  }

  /** `d[k] = v` when `cond` holds, otherwise `d` unchanged. */
  function PutIf(fields: seq<(string, Json)>, cond: bool, k: string, v: Json): (r: seq<(string, Json)>)
    ensures Get(r, k) == if cond then Some(v) else Get(fields, k)
    ensures Keys(r) == if cond then Keys(fields) + {k} else Keys(fields)
    ensures forall k' :: k' != k ==> Get(r, k') == Get(fields, k')
  {
    if cond then Put(fields, k, v) else fields
  }

  /** The `properties` member is written (`if raw.properties:`). */
  predicate HasProps(raw: RawSchema) {
    raw.properties.Props? && raw.properties.entries != []
  }

  /** The `required` member is written (`if raw.required:` inside the properties branch). */
  predicate HasRequired(raw: RawSchema) {
    HasProps(raw) && raw.required.Some? && raw.required.value != []
  }

  /** The `format` member is written (`if raw.format:`). */
  predicate HasFormat(raw: RawSchema) {
    raw.format.Some? && raw.format.value != ""
  }

  /** The `items` member is written (`if raw.items:`). */
  predicate HasItems(raw: RawSchema) {
    raw.items.Items? && raw.items.schemas != []
  }

  /** `to_json_schema`: the JSON Schema document of a raw schema. */
  function ToJsonSchema(raw: RawSchema): (r: Json)
    ensures r.Obj?
    ensures Get(r.fields, "items").Some? ==> HasItems(raw) && Get(r.fields, "items").value.Obj?
    decreases raw, 2
  {
    var items := if HasItems(raw) then ToJsonSchema(raw.items.schemas[0]) else Null;
    Obj(PutIf(ObjectMembers(raw), HasItems(raw), "items", items))
  }

  /** The `type` member, then `format` when the raw schema has one. */
  function TypeAndFormat(raw: RawSchema): (r: seq<(string, Json)>)
    ensures Keys(r) <= {"type", "format"}
    ensures Get(r, "type") == Some(TypeValue(raw.typeNames))
    ensures Get(r, "format").Some? <==> HasFormat(raw)
    ensures HasFormat(raw) ==> Get(r, "format") == Some(Str(raw.format.value))
  {
    var typed := [("type", TypeValue(raw.typeNames))];
    assert Keys(typed) == {"type"} by { assert typed[0].0 == "type"; }
    FindIs(typed, "type", 0);
    PutIf(typed, HasFormat(raw), "format", Str(raw.format.GetOr("")))
  }

  /** The members before `items`: adds `properties`, `additionalProperties` and `required` for objects. */
  function ObjectMembers(raw: RawSchema): (r: seq<(string, Json)>)
    ensures Keys(r) <= {"type", "format", "properties", "additionalProperties", "required"}
    ensures Get(r, "type") == Get(TypeAndFormat(raw), "type")
    ensures Get(r, "format") == Get(TypeAndFormat(raw), "format")
    ensures Get(r, "properties").Some? <==> HasProps(raw)
    ensures Get(r, "additionalProperties").Some? <==> HasProps(raw)
    ensures HasProps(raw) ==> Get(r, "properties") == Some(Obj(ToJsonProps(raw.properties.entries)))
    ensures HasProps(raw) ==> Get(r, "additionalProperties") == Some(Bool(false))
    ensures Get(r, "required").Some? <==> HasRequired(raw)
    ensures HasRequired(raw) ==> Get(r, "required") == Some(StrArray(raw.required.value))
    decreases raw, 1
  {
    var described := PropertyMembers(raw);
    PutIf(described, HasRequired(raw), "required", StrArray(raw.required.GetOr([])))
  }

  /** `type` and `format`, then `properties` and `additionalProperties` when there are properties. */
  function PropertyMembers(raw: RawSchema): (r: seq<(string, Json)>)
    ensures Keys(r) <= {"type", "format", "properties", "additionalProperties"}
    ensures forall k :: k != "properties" && k != "additionalProperties" ==> Get(r, k) == Get(TypeAndFormat(raw), k)
    ensures Get(r, "properties").Some? <==> HasProps(raw)
    ensures Get(r, "additionalProperties").Some? <==> HasProps(raw)
    ensures HasProps(raw) ==> Get(r, "properties") == Some(Obj(ToJsonProps(raw.properties.entries)))
    ensures HasProps(raw) ==> Get(r, "additionalProperties") == Some(Bool(false))
    decreases raw, 0
  {
    var base := TypeAndFormat(raw);
    var props := if HasProps(raw) then Obj(ToJsonProps(raw.properties.entries)) else Null;
    var withProps := PutIf(base, HasProps(raw), "properties", props);
    PutIf(withProps, HasProps(raw), "additionalProperties", Bool(false))
  }

  /** The document has a `type` member, holding the type name or list, and no member outside the six it may write. */
  lemma ToJsonSchemaKeys(raw: RawSchema)
    ensures Keys(ToJsonSchema(raw).fields) <= {"type", "format", "properties", "additionalProperties", "required", "items"}
    ensures Get(ToJsonSchema(raw).fields, "type") == Some(TypeValue(raw.typeNames))
  {
  }

  /** Each optional member is written exactly when the raw schema has a non-empty value for it. */
  lemma ToJsonSchemaMembers(raw: RawSchema)
    ensures Get(ToJsonSchema(raw).fields, "format").Some? <==> HasFormat(raw)
    ensures Get(ToJsonSchema(raw).fields, "properties").Some? <==> HasProps(raw)
    ensures Get(ToJsonSchema(raw).fields, "additionalProperties").Some? <==> HasProps(raw)
    ensures Get(ToJsonSchema(raw).fields, "required").Some? <==> HasRequired(raw)
    ensures Get(ToJsonSchema(raw).fields, "items").Some? <==> HasItems(raw)
  {
    ToJsonSchemaItems(raw);
    ToJsonSchemaOther(raw, "format");
    ToJsonSchemaOther(raw, "properties");
    ToJsonSchemaOther(raw, "additionalProperties");
    ToJsonSchemaOther(raw, "required");
  }

  lemma ToJsonSchemaItems(raw: RawSchema)
    ensures Get(ToJsonSchema(raw).fields, "items").Some? <==> HasItems(raw)
  {
    var members := ObjectMembers(raw);
    var items := if HasItems(raw) then ToJsonSchema(raw.items.schemas[0]) else Null;
    assert ToJsonSchema(raw).fields == PutIf(members, HasItems(raw), "items", items);
    MembersWithoutItems(raw);
  }

  /** `items` is written last: the members before it never hold it. */
  lemma MembersWithoutItems(raw: RawSchema)
    ensures Get(ObjectMembers(raw), "items").None?
  {
    var described := PropertyMembers(raw);
    assert ObjectMembers(raw) == PutIf(described, HasRequired(raw), "required", StrArray(raw.required.GetOr([])));
    assert Get(ObjectMembers(raw), "items") == Get(described, "items");
    assert Get(described, "items") == Get(TypeAndFormat(raw), "items");
    assert "items" !in Keys(TypeAndFormat(raw));
  }

  /** Every member other than `items` is the one `ObjectMembers` wrote. */
  lemma ToJsonSchemaOther(raw: RawSchema, k: string)
    requires k != "items"
    ensures Get(ToJsonSchema(raw).fields, k) == Get(ObjectMembers(raw), k)
  {
  }

  /** The optional members carry the raw schema's own data. */
  lemma ToJsonSchemaValues(raw: RawSchema)
    ensures HasFormat(raw) ==> Get(ToJsonSchema(raw).fields, "format") == Some(Str(raw.format.value))
    ensures HasProps(raw) ==>
      Get(ToJsonSchema(raw).fields, "properties") == Some(Obj(ToJsonProps(raw.properties.entries)))
      && Get(ToJsonSchema(raw).fields, "additionalProperties") == Some(Bool(false))
    ensures HasRequired(raw) ==> Get(ToJsonSchema(raw).fields, "required") == Some(StrArray(raw.required.value))
    ensures HasItems(raw) ==> Get(ToJsonSchema(raw).fields, "items") == Some(ToJsonSchema(raw.items.schemas[0]))
  {
  }

  /** The `properties` member: each property's document under its key, in order. */
  function ToJsonProps(ps: seq<(string, RawSchema)>): (r: seq<(string, Json)>)
    ensures KeyList(r) == KeyList(ps)
    decreases ps, 0
  {
    if ps == [] then []
    else
      assert ps[0].1 < ps[0];
      [(ps[0].0, ToJsonSchema(ps[0].1))] + ToJsonProps(ps[1..])
  }

  /** Each property document is the document of the property's schema, under the same key. */
  lemma {:induction false} ToJsonPropsGet(ps: seq<(string, RawSchema)>, k: string)
    ensures Get(ToJsonProps(ps), k).Some? <==> Get(ps, k).Some?
    ensures Get(ps, k).Some? ==> Get(ToJsonProps(ps), k) == Some(ToJsonSchema(Get(ps, k).value))
  {
    var r := ToJsonProps(ps);
    KeyListKeys(r);
    KeyListKeys(ps);
    var i := Find(ps, k);
    if i >= 0 {
      ToJsonPropsAt(ps, i);
      FindIs(r, k, i);
    }
  }

  lemma {:induction false} ToJsonPropsAt(ps: seq<(string, RawSchema)>, i: nat)
    requires i < |ps|
    ensures ToJsonProps(ps)[i] == (ps[i].0, ToJsonSchema(ps[i].1))
  {
    if i > 0 {
      ToJsonPropsAt(ps[1..], i - 1);
      assert ps[1..][i - 1] == ps[i];
    }
  }
}
