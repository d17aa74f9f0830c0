/**
 * `SchemaStats`: the per-session record of which schemas were created, updated,
 * left uncommitted, deleted or found unused, with the diffs of the updated and
 * uncommitted ones, and the pairing of `<b>.schema.json` with `<b>.json` used
 * when the summary is printed. The diff text is computed by the schema-diff
 * tool, which is not part of this model, so it is a parameter here.
 */
module Stats {
  import opened Wrappers
  import opened Text
  import opened JsonValues

  /** `old_schema and new_schema`: a schema that is given and not an empty dict. */
  predicate Provided(schema: Option<Json>) {
    schema.Some? && Truthy(schema.value)
  }

  /** `diff and diff.strip()`. */
  predicate Meaningful(diff: string) {
    !IsBlank(diff)
  }

  class SchemaStats {
    var created: seq<string>
    var updated: seq<string>
    var updatedDiffs: map<string, string>
    var uncommitted: seq<string>
    var uncommittedDiffs: map<string, string>
    var deleted: seq<string>
    var unused: seq<string>

    /** A stored diff belongs to a listed schema and is never blank. */
    ghost predicate Valid()
      reads this
    {
      && (forall k :: k in updatedDiffs ==> k in updated && Meaningful(updatedDiffs[k]))
      && (forall k :: k in uncommittedDiffs ==> k in uncommitted && Meaningful(uncommittedDiffs[k]))
    }

    constructor()
      ensures Valid()
      ensures created == [] && updated == [] && uncommitted == [] && deleted == [] && unused == []
      ensures updatedDiffs == map[] && uncommittedDiffs == map[]
    {
      created := [];
      updated := [];
      updatedDiffs := map[];
      uncommitted := [];
      uncommittedDiffs := map[];
      deleted := [];
      unused := [];
    }

    /** `has_changes`: something was created, updated or deleted. */
    predicate HasChanges()
      reads this
      ensures HasChanges() <==> |created| + |updated| + |deleted| > 0
    {
      created != [] || updated != [] || deleted != []
    }

    /** `has_any_info`: a change, or an unused or uncommitted schema. */
    predicate HasAnyInfo()
      reads this
      ensures HasChanges() ==> HasAnyInfo()
      ensures HasAnyInfo() && !HasChanges() ==> unused != [] || uncommitted != []
    {
      created != [] || updated != [] || deleted != [] || unused != [] || uncommitted != []
    }

    method AddCreated(name: string)
      requires Valid()
      modifies this
      ensures Valid() && HasChanges()
      ensures created == old(created) + [name]
      ensures updated == old(updated) && updatedDiffs == old(updatedDiffs)
      ensures uncommitted == old(uncommitted) && uncommittedDiffs == old(uncommittedDiffs)
      ensures deleted == old(deleted) && unused == old(unused)
    {
      created := created + [name];
    }

    method AddDeleted(name: string)
      requires Valid()
      modifies this
      ensures Valid() && HasChanges()
      ensures deleted == old(deleted) + [name]
      ensures created == old(created) && updated == old(updated) && updatedDiffs == old(updatedDiffs)
      ensures uncommitted == old(uncommitted) && uncommittedDiffs == old(uncommittedDiffs)
      ensures unused == old(unused)
    {
      deleted := deleted + [name];
    }

    method AddUnused(name: string)
      requires Valid()
      modifies this
      ensures Valid() && HasAnyInfo()
      ensures unused == old(unused) + [name]
      ensures created == old(created) && updated == old(updated) && updatedDiffs == old(updatedDiffs)
      ensures uncommitted == old(uncommitted) && uncommittedDiffs == old(uncommittedDiffs)
      ensures deleted == old(deleted)
      ensures HasChanges() == old(HasChanges())
    {
      unused := unused + [name];
    }

    /**
     * `add_updated`: with both schemas given, the name is listed (and its diff
     * kept) only if the diff says something; without them the update is
     * recorded unconditionally and no diff is kept.
     */
    method AddUpdated(name: string, oldSchema: Option<Json>, newSchema: Option<Json>, diff: string)
      requires Valid()
      modifies this
      ensures Valid()
      ensures Provided(oldSchema) && Provided(newSchema) ==>
        if Meaningful(diff) then updated == old(updated) + [name] && updatedDiffs == old(updatedDiffs)[name := diff]
        else updated == old(updated) && updatedDiffs == old(updatedDiffs)
      ensures !(Provided(oldSchema) && Provided(newSchema)) ==>
        updated == old(updated) + [name] && updatedDiffs == old(updatedDiffs)
      ensures created == old(created) && deleted == old(deleted) && unused == old(unused)
      ensures uncommitted == old(uncommitted) && uncommittedDiffs == old(uncommittedDiffs)
    {
      if Provided(oldSchema) && Provided(newSchema) {
        if Meaningful(diff) {
          updated := updated + [name];
          updatedDiffs := updatedDiffs[name := diff];
        }
      } else {
        updated := updated + [name];
      }
    }

    /** `add_uncommitted`: listed, with its diff, only if the diff says something. */
    method AddUncommitted(name: string, diff: string)
      requires Valid()
      modifies this
      ensures Valid()
      ensures Meaningful(diff) ==>
        uncommitted == old(uncommitted) + [name] && uncommittedDiffs == old(uncommittedDiffs)[name := diff]
      ensures !Meaningful(diff) ==>
        uncommitted == old(uncommitted) && uncommittedDiffs == old(uncommittedDiffs)
      ensures created == old(created) && updated == old(updated) && updatedDiffs == old(updatedDiffs)
      ensures deleted == old(deleted) && unused == old(unused)
    {
      if Meaningful(diff) {
        uncommitted := uncommitted + [name];
        uncommittedDiffs := uncommittedDiffs[name := diff];
      }
    }
  }

  // ------------------------------------------------------------ the summary pairing

  const SchemaSuffix := ".schema.json"
  const JsonSuffix := ".json"
  const OriginalTag := " + original"

  predicate EndsWith(s: string, suffix: string) {
    |suffix| <= |s| && s[|s| - |suffix|..] == suffix
  }

  /** `s[:-len(suffix)]`. */
  function Base(s: string, suffix: string): string
    requires EndsWith(s, suffix)
  {
    s[..|s| - |suffix|]
  }

  predicate IsSchemaFile(n: string) {
    EndsWith(n, SchemaSuffix)
  }

  /** A `.json` name that is not a `.schema.json` name. */
  predicate IsOriginalFile(n: string) {
    EndsWith(n, JsonSuffix) && !EndsWith(n, SchemaSuffix)
  }

  function SchemaBases(names: seq<string>): set<string> {
    set n | n in names && IsSchemaFile(n) :: Base(n, SchemaSuffix)
  }

  function OriginalBases(names: seq<string>): set<string> {
    set n | n in names && IsOriginalFile(n) :: Base(n, JsonSuffix)
  }

  /** What `_iter_merged` yields: the text to show and the schema key (`None` for an original). */
  datatype Entry = Entry(display: string, schemaKey: Option<string>)

  /** The entry (or none) one name contributes, given the bases of the whole list. */
  function MergeStep(n: string, schemaBases: set<string>, originalBases: set<string>): (r: seq<Entry>)
    ensures |r| <= 1
  {
    if IsSchemaFile(n) then
      if Base(n, SchemaSuffix) in originalBases then [Entry(n + OriginalTag, Some(n))] else [Entry(n, Some(n))]
    else if IsOriginalFile(n) then
      if Base(n, JsonSuffix) in schemaBases then [] else [Entry(n, None)]
    else [Entry(n, Some(n))]
  }

  function MergeAll(names: seq<string>, schemaBases: set<string>, originalBases: set<string>): (r: seq<Entry>)
    ensures |r| <= |names|
    ensures forall i :: 0 <= i < |r| && r[i].schemaKey.Some? ==> r[i].schemaKey.value in names
  {
    if names == [] then []
    else MergeStep(names[0], schemaBases, originalBases) + MergeAll(names[1..], schemaBases, originalBases)
  }

  /** `_iter_merged(names)`. */
  function IterMerged(names: seq<string>): (r: seq<Entry>)
    ensures |r| <= |names|
    ensures forall i :: 0 <= i < |r| && r[i].schemaKey.Some? ==> r[i].schemaKey.value in names
  {
    MergeAll(names, SchemaBases(names), OriginalBases(names))
  }

  /** Merging works name by name, so the output keeps the order of the input. */
  lemma {:induction false} MergeAllConcat(a: seq<string>, b: seq<string>, sb: set<string>, ob: set<string>)
    ensures MergeAll(a + b, sb, ob) == MergeAll(a, sb, ob) + MergeAll(b, sb, ob)
    decreases |a|
  {
    if a != [] {
      assert (a + b)[0] == a[0];
      assert (a + b)[1..] == a[1..] + b;
      MergeAllConcat(a[1..], b, sb, ob);
    } else {
      assert a + b == b;
    }
  }

  /** An entry comes from one of the names, and every name's entry is in the output. */
  lemma {:induction false} MergeAllMembers(names: seq<string>, sb: set<string>, ob: set<string>)
    ensures forall i, e :: 0 <= i < |names| && e in MergeStep(names[i], sb, ob) ==> e in MergeAll(names, sb, ob)
    ensures forall e :: e in MergeAll(names, sb, ob) ==> exists i :: 0 <= i < |names| && e in MergeStep(names[i], sb, ob)
    decreases |names|
  {
    if names != [] {
      MergeAllMembers(names[1..], sb, ob);
      forall e | e in MergeAll(names, sb, ob)
        ensures exists i :: 0 <= i < |names| && e in MergeStep(names[i], sb, ob)
      {
        if e !in MergeStep(names[0], sb, ob) {
          var j :| 0 <= j < |names[1..]| && e in MergeStep(names[1..][j], sb, ob);
          assert names[j + 1] == names[1..][j];
        }
      }
      forall i, e | 0 <= i < |names| && e in MergeStep(names[i], sb, ob)
        ensures e in MergeAll(names, sb, ob)
      {
        if i > 0 {
          assert names[1..][i - 1] == names[i];
        }
      }
    }
  }

  lemma SchemaName(b: string)
    ensures IsSchemaFile(b + SchemaSuffix) && Base(b + SchemaSuffix, SchemaSuffix) == b
  {
    assert (b + SchemaSuffix)[|b|..] == SchemaSuffix;
  }

  lemma OriginalName(b: string)
    ensures EndsWith(b + JsonSuffix, JsonSuffix) && Base(b + JsonSuffix, JsonSuffix) == b
  {
    assert (b + JsonSuffix)[|b|..] == JsonSuffix;
  }

  lemma BaseOfSuffixed(n: string, suffix: string)
    requires EndsWith(n, suffix)
    ensures Base(n, suffix) + suffix == n
  {
  }

  /** A schema file whose original is also listed is shown once, as `<b>.schema.json + original`, keyed by the schema. */
  lemma SchemaWithOriginal(names: seq<string>, b: string)
    requires b + SchemaSuffix in names && b + JsonSuffix in names && IsOriginalFile(b + JsonSuffix)
    ensures Entry(b + SchemaSuffix + OriginalTag, Some(b + SchemaSuffix)) in IterMerged(names)
    ensures Entry(b + SchemaSuffix, Some(b + SchemaSuffix)) !in IterMerged(names)
  {
    SchemaName(b);
    OriginalName(b);
    var n := b + SchemaSuffix;
    assert b in OriginalBases(names);
    var i :| 0 <= i < |names| && names[i] == n;
    MergeAllMembers(names, SchemaBases(names), OriginalBases(names));
    NoPlainSchemaEntry(names, n);
  }

  /** A schema whose base has an original never appears without the ` + original` tag. */
  lemma NoPlainSchemaEntry(names: seq<string>, n: string)
    requires IsSchemaFile(n) && Base(n, SchemaSuffix) in OriginalBases(names)
    ensures Entry(n, Some(n)) !in IterMerged(names)
  {
    var sb, ob := SchemaBases(names), OriginalBases(names);
    MergeAllMembers(names, sb, ob);
  }

  /** An original whose schema is also listed is not shown on its own. */
  lemma OriginalWithSchema(names: seq<string>, b: string)
    requires b + SchemaSuffix in names && IsOriginalFile(b + JsonSuffix)
    ensures forall e :: e in IterMerged(names) ==> e.display != b + JsonSuffix
  {
    SchemaName(b);
    var sb, ob := SchemaBases(names), OriginalBases(names);
    assert b in sb;
    MergeAllMembers(names, sb, ob);
    forall e | e in IterMerged(names) ensures e.display != b + JsonSuffix {
      var i :| 0 <= i < |names| && e in MergeStep(names[i], sb, ob);
      StepNotOriginal(names[i], b, sb, ob);
    }
  }

  /** No single name of the list yields the original `<b>.json` once `b` is a schema base. */
  lemma StepNotOriginal(n: string, b: string, sb: set<string>, ob: set<string>)
    requires b in sb && IsOriginalFile(b + JsonSuffix)
    ensures forall e :: e in MergeStep(n, sb, ob) ==> e.display != b + JsonSuffix
  {
    var o := b + JsonSuffix;
    OriginalName(b);
    if IsSchemaFile(n) {
      var t := n + OriginalTag;
      assert t[|t| - 1] == 'l' && o[|o| - 1] == 'n';
    }
  }

  /** An original without its schema is shown as it is, with no schema key. */
  lemma OriginalAlone(names: seq<string>, b: string)
    requires b + JsonSuffix in names && b + SchemaSuffix !in names && IsOriginalFile(b + JsonSuffix)
    ensures Entry(b + JsonSuffix, None) in IterMerged(names)
  {
    OriginalName(b);
    var sb, ob := SchemaBases(names), OriginalBases(names);
    if b in sb {
      var m :| m in names && IsSchemaFile(m) && Base(m, SchemaSuffix) == b;
      BaseOfSuffixed(m, SchemaSuffix);
    }
    var i :| 0 <= i < |names| && names[i] == b + JsonSuffix;
    MergeAllMembers(names, sb, ob);
  }

  /** A name that is neither a schema nor an original is shown unchanged, keyed by itself. */
  lemma OtherName(names: seq<string>, n: string)
    requires n in names && !EndsWith(n, JsonSuffix)
    ensures Entry(n, Some(n)) in IterMerged(names)
  {
    var sb, ob := SchemaBases(names), OriginalBases(names);
    var i :| 0 <= i < |names| && names[i] == n;
    MergeAllMembers(names, sb, ob);
  }
}
