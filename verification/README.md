# Schema snapshot tool: a Dafny model of its algorithmic core

This project models the algorithmic core of a pytest plugin that takes JSON Schema snapshots. The repository holds two generations of the plugin:

- **The typed generation** (`typed_schemashot`). It infers a schema from a value with its own hand-written walker:
  - `gen_schema` classifies each value;
  - `_merge_schemas` merges the schemas of list elements;
  - `to_json_schema` serialises the result.

  It compares two schemas in two ways:
  - the older `SchemaShot._compare_schemas`, one line per changed `type`, removed or added property;
  - the newer `SchemaComparator`, which walks the root `properties` trees in lock-step, collects `(path, old, new)` entries, and renders each one as a `+`/`-`/`r` block or a list diff.
- **The genson generation** (`pytest_jsonschema_snapshot`). Its `JsonToSchemaConverter` keeps two per-path caches while values are added:
  - a bounded, de-duplicated list of examples;
  - the set of string formats that `FormatDetector` recognised.

  It then injects `format` and `examples` into the schema the genson builder produced, and in safe mode adds the `$schema`/`$vocabulary` block. Alongside it:
  - `NameMaker` builds snapshot names from a callable through a `{placeholder}` template language;
  - `NameValidator` refuses names that are empty or contain a character forbidden in file names;
  - `SchemaStats` records what a session created, updated, deleted, left uncommitted or found unused, and pairs `<b>.schema.json` with `<b>.json` for the summary.

The modules are:

- `wrappers.dfy`: `Option` and `Result`.
- `text.dfy`: de-duplication in first-seen order, string order and insertion sort, `join`/`split`, `rstrip`, and anchored matching with Python's `$` (which also matches before a final newline).
- `json_values.dfy`: the JSON value datatype, with objects as insertion-ordered association lists, dictionary access, and `json.dumps` text.
- The remaining files each follow one source file:
  - `schema_utils.dfy`;
  - `compare_schemas.dfy`;
  - `legacy_compare.dfy` (`core.py`'s `_compare_schemas`);
  - `to_schema_converter.dfy`;
  - `format_detector.dfy`;
  - `name_maker.dfy`;
  - `name_validator.dfy`;
  - `stats.dfy`.

Where the source works step by step, the model does too. `_merge_schemas`, the differs' loops, `_format_path`, `_format_list_diff` and `_format_differences` are methods with loop invariants. `JsonToSchemaConverter` and `SchemaStats` are classes whose methods update their fields. Each method that computes a value is proved equal to a specification function. The update methods of `JsonToSchemaConverter` are proved to leave their fields equal to a specification function of the old state. The update methods of `SchemaStats` keep the class invariant `Valid()` and state their new fields directly in terms of the old ones. The properties are proved about those functions and states.

The code and the tests disagree in one place. `tests/test_schema_utils.py:59` leaves `options` out of the expected property keys, but `schema_utils.py:124-131` gives every key of an object a property. The model follows the code.

## Model

| member | source | states |
|---|---|---|
| SchemaUtils.TypeName | src/typed_schemashot/schema_utils.py:20-25 | Each JSON kind maps to exactly its one name (null, boolean, integer, number, string, array, object). Any other value fails with the "unsupported type" message naming its Python type. |
| SchemaUtils.AllKeys | src/typed_schemashot/schema_utils.py:84-86 | The key list of a merged property map has no duplicates and holds exactly the keys of either operand. |
| SchemaUtils.Shared | src/typed_schemashot/schema_utils.py:89-101 | The keys collected for `required` are exactly the listed keys present in both property maps, without duplicates. |
| SchemaUtils.MergeProps | src/typed_schemashot/schema_utils.py:87-101 | One merged entry per key, in key order, each the merge of that key's entries. |
| SchemaUtils.Merge | src/typed_schemashot/schema_utils.py:71-117 | The merge never makes a schema deeper than its deeper operand, which is what lets the recursion terminate. |
| SchemaUtils.Fold | src/typed_schemashot/schema_utils.py:106-115 | Folding yields a schema iff there was a start value or an element, and never deepens. |
| SchemaUtils.MergeTypeNames | src/typed_schemashot/schema_utils.py:79-81 | Merged type names contain the union of both operands' names, have no duplicates, and start with the first operand's names in their order. |
| SchemaUtils.MergeShape | src/typed_schemashot/schema_utils.py:79-115 | `properties` exist iff `object` is a merged type, and `required` only with them. `items` exist iff `array` is a merged type, hold at most one schema, and are empty iff neither operand had items. `format` is always dropped. |
| SchemaUtils.MergeProperties | src/typed_schemashot/schema_utils.py:84-101 | Under `object`: a key on both sides holds the recursive merge of both children, a key on one side is carried over unchanged, and any other key is absent. |
| SchemaUtils.MergePropertyKeys | src/typed_schemashot/schema_utils.py:84-88 | The merged property keys are the union of both operands' keys, each stored once. |
| SchemaUtils.MergeRequired | src/typed_schemashot/schema_utils.py:89-103 | Merged `required` is None iff no property key is shared. Otherwise it is sorted and holds exactly the shared keys. The operands' own `required` lists play no part. |
| SchemaUtils.MergeSymmetric | src/typed_schemashot/schema_utils.py:84-103 | merge(a, b) and merge(b, a) have the same property keys and the same `required`. |
| SchemaUtils.SharedSortedSpec | src/typed_schemashot/schema_utils.py:103 | The sorted shared-key list is sorted, holds exactly the keys in both maps, and is empty iff the key sets are disjoint. |
| SchemaUtils.FoldTypeNames | src/typed_schemashot/schema_utils.py:137-147 | Folding a list of schemas into a start schema gives the de-duplicated concatenation of all their type names. |
| SchemaUtils.MergeSchemas | src/typed_schemashot/schema_utils.py:71-117 | The step-by-step merge, which fills the fields of a fresh node, computes exactly the merge specification. |
| SchemaUtils.MergePropertyMaps | src/typed_schemashot/schema_utils.py:84-101 | The loop over the key union builds the merged property map and the list of shared keys. |
| SchemaUtils.CombineItems | src/typed_schemashot/schema_utils.py:108-113 | The items loop computes the left fold of all item schemas. |
| SchemaUtils.MergeItemSchemas | src/typed_schemashot/schema_utils.py:137-143 | Folding a non-empty list of element schemas yields the left fold of the list starting from its first element. |
| SchemaUtils.DetectFormat | src/typed_schemashot/schema_utils.py:27-69 | Raises iff the string gets past the date-time, date and e-mail steps and the unguarded `urlparse` raises, with that `ValueError`'s message. Otherwise the result is the first of date-time, date, email, uri and ipv4 whose recogniser accepts the string, or None when none does. |
| SchemaUtils.GenSchema | src/typed_schemashot/schema_utils.py:120-158 | Generation succeeds iff the value holds no unsupported value and no string on which `_detect_format` raises. When no string raises, a failure is the unsupported-type error; for a string, a failure is the `urlparse` error. The node's single type name is the value's kind. An object gets properties and `required` equal to its keys in order. A non-empty array gets exactly one item schema and an empty one none. A string gets the detected format. |
| SchemaUtils.GenElems | src/typed_schemashot/schema_utils.py:137-142 | One schema per element, each the element's own schema, or the first error: an unsupported element or a string on which `urlparse` raises. |
| SchemaUtils.GenFields | src/typed_schemashot/schema_utils.py:124-131 | The property map keeps the object's keys in order, or fails on an unsupported value or on a string on which `urlparse` raises. |
| SchemaUtils.GenSchemaProperty | src/typed_schemashot/schema_utils.py:124-131 | A property exists iff the object has that key, and it is the schema of that key's value. |
| SchemaUtils.GenSchemaItems | src/typed_schemashot/schema_utils.py:137-147 | The single item schema of a non-empty list is the left fold by merge of its elements' schemas, starting from the first element's schema. Each of those is the element's own generated schema. |
| SchemaUtils.PairItems | src/typed_schemashot/schema_utils.py:137-147 | For a two-element list the item schema is the merge of the two elements' schemas. |
| SchemaUtils.ObjectSchemaKeys | src/typed_schemashot/schema_utils.py:124-131 | An object's schema is typed `object`, and its property keys are the object's keys. |
| SchemaUtils.PairRequiresShared | src/typed_schemashot/schema_utils.py:89-103 | For a list of two objects that share a key, the item schema's `required` holds exactly the keys both objects have. |
| SchemaUtils.ObjectListItemsRequireShared | src/typed_schemashot/schema_utils.py:137-147 | `[{"a": 1}, {"a": 2, "b": null}]` gives an item schema whose `required` is exactly `["a"]`. |
| SchemaUtils.GenSchemaItemKinds | src/typed_schemashot/schema_utils.py:137-147 | The item schema of a non-empty list has as type names the distinct kinds of the elements in first-seen order. |
| SchemaUtils.MixedListItemKinds | src/typed_schemashot/schema_utils.py:137-147 | `[1, 1.0, "one"]` gives items typed integer, number, string, given that `urlparse` accepts `one`. |
| SchemaUtils.UrlparseErrorAborts | src/typed_schemashot/schema_utils.py:57 | A string that reaches the unguarded `urlparse` and makes it raise aborts generation with that error, alone, as a list element, and as a dict value. |
| SchemaUtils.UnmatchedBracketAborts | src/typed_schemashot/schema_utils.py:51-57 | `{"link": "http://[x"}` fails when `strptime` rejects the string and `urlparse` raises on its unmatched `[`, as CPython's do: having no `@`, the string reaches `urlparse`, and its error aborts `gen_schema`. |
| SchemaUtils.TypeValue | src/typed_schemashot/schema_utils.py:163-165 | `type` is a bare string iff there is exactly one type name. Otherwise it is the list of the names. |
| SchemaUtils.PutIf | src/typed_schemashot/schema_utils.py:166-179 | A conditional assignment sets exactly one key and leaves every other key as it was. |
| SchemaUtils.TypeAndFormat | src/typed_schemashot/schema_utils.py:163-167 | `type` is always written. `format` is written iff the format is non-empty. |
| SchemaUtils.ObjectMembers | src/typed_schemashot/schema_utils.py:169-176 | `properties` and `additionalProperties: false` appear iff the properties are non-empty. `required` appears iff that holds and `required` is non-empty. |
| SchemaUtils.ToJsonSchema | src/typed_schemashot/schema_utils.py:161-181 | The document is always a JSON object. An `items` member appears only when the raw schema has items, and is itself an object schema. |
| SchemaUtils.ToJsonSchemaKeys | src/typed_schemashot/schema_utils.py:161-181 | The document holds only the six schema keywords and always the `type` of the type names. |
| SchemaUtils.ToJsonSchemaMembers | src/typed_schemashot/schema_utils.py:166-179 | Each optional keyword (`format`, `properties`, `additionalProperties`, `required`, `items`) appears iff its condition holds. |
| SchemaUtils.ToJsonSchemaValues | src/typed_schemashot/schema_utils.py:166-179 | Each optional keyword, when present, holds the serialised value. `items` is the serialisation of the first item schema only. |
| SchemaUtils.ToJsonPropsGet | src/typed_schemashot/schema_utils.py:171-173 | Each property of the document is the serialisation of the same property of the raw schema, and no other key appears. |
| CompareSchemas.Differences | src/typed_schemashot/compare_schemas.py:24-56 | Two lists give at most one entry, and none iff they are structurally equal. |
| CompareSchemas.UnionKeys | src/typed_schemashot/compare_schemas.py:39 | Every key of either dictionary is visited exactly once. |
| CompareSchemas.FindDifferences | src/typed_schemashot/compare_schemas.py:24-56 | The loop of `_find_differences`, recursion included, computes the specification of the walk. |
| CompareSchemas.NoDifferencesWhenEqual | src/typed_schemashot/compare_schemas.py:33-56 | Walking a tree against itself reports nothing. |
| CompareSchemas.DifferencesExtendPath | src/typed_schemashot/compare_schemas.py:39-55 | Every reported path extends the path it was reached from. Below a dictionary it extends it strictly, by a key of one of the two dictionaries. |
| CompareSchemas.DifferencesUnderKey | src/typed_schemashot/compare_schemas.py:39-55 | Per key: a key only in the new dict gives one `(path+[k], None, new)` entry, and a key only in the old dict gives `(path+[k], old, None)`. Two dicts are recursed into. Any other pair gives one entry iff the values differ structurally, with lists compared whole. |
| CompareSchemas.Under | src/typed_schemashot/compare_schemas.py:39-55 | Selects exactly the entries whose path has the given key at the given depth. |
| CompareSchemas.PathText | src/typed_schemashot/compare_schemas.py:58-70 | The path text is empty iff every segment is `properties` or `items`. |
| CompareSchemas.FormatPath | src/typed_schemashot/compare_schemas.py:58-70 | The loop over the segments computes the path text. |
| CompareSchemas.PathSkipsContainers | src/typed_schemashot/compare_schemas.py:63-64 | `properties` and `items` segments add nothing to the rendered path. |
| CompareSchemas.PathNamesProperty | src/typed_schemashot/compare_schemas.py:65-69 | A property name under `properties` renders as `["name"]`, even when it is a keyword. |
| CompareSchemas.PathNamesKeyword | src/typed_schemashot/compare_schemas.py:65-67 | `type`, `required` and `format` render as `.name` when not directly under `properties`. |
| CompareSchemas.Missing | src/typed_schemashot/compare_schemas.py:77 | The old-only items are exactly the old items absent from the new list. |
| CompareSchemas.IndexOf | src/typed_schemashot/compare_schemas.py:79-84 | Python's `list.index`: the first position of the item. |
| CompareSchemas.ListOrderSpec | src/typed_schemashot/compare_schemas.py:75-85 | The list-diff items have no structural duplicates and are exactly the items of either list. They are ordered by new-list position first, then old-only items by old-list position. |
| CompareSchemas.ItemLines | src/typed_schemashot/compare_schemas.py:86-93 | One line per item: old-only items get `-`, new-only items `+`, shared items a space, each followed by the item's JSON and a comma. |
| CompareSchemas.ListDiffLines | src/typed_schemashot/compare_schemas.py:72-98 | The corrected list diff is never empty and starts with the header `  <path>:`. |
| CompareSchemas.ListDiffLinesShape | src/typed_schemashot/compare_schemas.py:72-98 | With the evident intent at 95-96: the header line `  <path>:` comes first, then one line per item in list-diff order, and only the last line loses its trailing comma. |
| CompareSchemas.FormatListDiff | src/typed_schemashot/compare_schemas.py:72-98 | The loops of `_format_list_diff` build the corrected list-diff lines. |
| CompareSchemas.ListDiffAsWritten | src/typed_schemashot/compare_schemas.py:72-98 | The code as written yields one header line plus one line per distinct item. |
| CompareSchemas.ListDiffAsWrittenBreaksHeader | src/typed_schemashot/compare_schemas.py:95-96 | For two empty lists at the path `["a,b"]`, the code as written removes the comma from the header, giving `  ["ab"]:`. |
| CompareSchemas.FormatItem | src/typed_schemashot/compare_schemas.py:86-93 | One item line: its marker, its JSON text and a comma. |
| CompareSchemas.Indented | src/typed_schemashot/compare_schemas.py:128-134 | Every pretty-printed line is copied with two leading spaces. |
| CompareSchemas.Block | src/typed_schemashot/compare_schemas.py:105-134 | Every entry produces at least one line. |
| CompareSchemas.FormatEntry | src/typed_schemashot/compare_schemas.py:105-134 | One entry is categorised, with list diffs in their corrected form (`ListDiffLines`): two lists become a list diff. Old None becomes `+` (a list diff from `[]` for a list). New None becomes `-` (a list diff against `[]` for a list). Two scalars become `r old -> new`. Anything else becomes indented `-`/`+` blocks. |
| CompareSchemas.Report | src/typed_schemashot/compare_schemas.py:100-136 | The report never ends in white space. |
| CompareSchemas.FormatDifferences | src/typed_schemashot/compare_schemas.py:100-136 | The loop over the entries produces their blocks, with corrected list diffs, separated by blank lines, joined and right-stripped. |
| CompareSchemas.BlockVisible | src/typed_schemashot/compare_schemas.py:105-134 | Every entry's block begins with a non-blank line. |
| CompareSchemas.ReportEmpty | src/typed_schemashot/compare_schemas.py:100-136 | The report, built with corrected list diffs, is empty iff there are no entries. |
| CompareSchemas.Compare | src/typed_schemashot/compare_schemas.py:16-22 | `compare()` renders, with corrected list diffs, the entries found by walking only the root `properties` of both schemas. |
| CompareSchemas.CompareSame | src/typed_schemashot/compare_schemas.py:16-22 | A schema compared with itself has no entries and an empty report. |
| CompareSchemas.CompareOnlyProperties | src/typed_schemashot/compare_schemas.py:18-21 | Every reported path starts with `properties`, so root-level `type` or `required` never produce an entry. |
| LegacyCompare.TypeOf | src/typed_schemashot/core.py:48 | `node.get('type')`: None iff `type` is missing or `null`, and otherwise the stored value. |
| LegacyCompare.NullTypeIsMissingType | src/typed_schemashot/core.py:48 | `{"type": null}` against `{}` reports nothing. |
| LegacyCompare.Lines | src/typed_schemashot/core.py:47-64 | A changed `type` always reports something. Nodes with equal types and no properties report nothing. |
| LegacyCompare.ChildLines | src/typed_schemashot/core.py:51-64 | Two nodes without properties produce no property lines. |
| LegacyCompare.MissingLinesSpec | src/typed_schemashot/core.py:54-60 | The lines for `set(old) - set(new)` (or the reverse): each one-sided key gives its removed or added line exactly once, every line is the line of such a key, and every line lies under `path/`. |
| LegacyCompare.OneLinePerKeySpec | src/typed_schemashot/core.py:54-60 | At most one line per key. Each missing key yields its line, every line is the line of a missing key, and every line lies under `path/`. |
| LegacyCompare.OneLinePerKeyNoDups | src/typed_schemashot/core.py:54-60 | Keys without duplicates, as a set difference yields them, give lines without duplicates. |
| LegacyCompare.KeyLineInjective | src/typed_schemashot/core.py:55-59 | Two keys with the same removed (or added) line under one path are the same key. |
| LegacyCompare.CompareRecursive | src/typed_schemashot/core.py:47-64 | The recursive closure appends exactly the specified lines to the accumulated differences. As with `dict.get`, an explicit `"type": null` reads the same as a missing `type`. |
| LegacyCompare.AppendMissing | src/typed_schemashot/core.py:54-60 | The loop over one side's keys appends one line per key missing on the other side. |
| LegacyCompare.AppendShared | src/typed_schemashot/core.py:62-64 | The loop recurses into each property present on both sides, extending the path with `/key`. |
| LegacyCompare.SharedLinesDescend | src/typed_schemashot/core.py:62-64 | A property on both sides contributes the lines of comparing its two subschemas at `path/key`. |
| LegacyCompare.SharedLinesSkip | src/typed_schemashot/core.py:62-63 | A property missing on either side is not descended into. |
| LegacyCompare.CompareSchemas | src/typed_schemashot/core.py:41-67 | `_compare_schemas` starts at the root path "" and joins the lines with newlines. A `null` type and a missing type compare equal. |
| LegacyCompare.LinesSame | src/typed_schemashot/core.py:47-64 | A node compared with itself produces no lines. |
| LegacyCompare.CompareTextSame | src/typed_schemashot/core.py:41-67 | Two identical schemas give the empty string. |
| LegacyCompare.LinesAtPath | src/typed_schemashot/core.py:47-64 | The first line is the type-change line iff `type` differs as `dict.get` reads it, where `null` and missing are both `None`. Every line starts with the node's path, and every other line lies under `path/`. |
| LegacyCompare.RemovedAndAdded | src/typed_schemashot/core.py:47-60 | The node's lines open with the type line, then the removed section, then the added section. A property only in the old node has its removed line there exactly once, and one only in the new node its added line. Those sections hold no line for any other key. |
| LegacyCompare.LinesSections | src/typed_schemashot/core.py:47-60 | The type line, the removed section and the added section are a prefix of the node's lines. |
| LegacyCompare.SharedLinesBelow | src/typed_schemashot/core.py:62-64 | Everything the recursion reports lies under `path/`. |
| ToSchemaConverter.ParseMode | pytest_jsonschema_snapshot/tools/genson_addon/to_schema_converter.py:50-51 | Only "off", "on" and "safe" are format modes. |
| ToSchemaConverter.CheckOptions | pytest_jsonschema_snapshot/tools/genson_addon/to_schema_converter.py:50-53 | Construction succeeds iff the mode is valid and the limit is non-negative. A bad mode is reported first, then a negative limit, each with its message. |
| ToSchemaConverter.Converter.Create | pytest_jsonschema_snapshot/tools/genson_addon/to_schema_converter.py:49-60 | The constructor refuses bad options. Otherwise it keeps the options and starts with both caches empty. |
| ToSchemaConverter.AddedExample | pytest_jsonschema_snapshot/tools/genson_addon/to_schema_converter.py:126-140 | With a limit of 0 or less nothing changes. Otherwise only the bucket at `path` changes: it is created if missing, only grows at its end, and afterwards holds the value or is full. |
| ToSchemaConverter.Converter.AddExample | pytest_jsonschema_snapshot/tools/genson_addon/to_schema_converter.py:126-140 | The de-duplicating loop updates only the example cache, as the bucket rule specifies, with duplicates found by structural equality. |
| ToSchemaConverter.AddedExampleValid | pytest_jsonschema_snapshot/tools/genson_addon/to_schema_converter.py:126-140 | No bucket ever exceeds the limit or holds a structurally equal value twice. |
| ToSchemaConverter.Take | pytest_jsonschema_snapshot/tools/genson_addon/to_schema_converter.py:158 | Slicing to the limit keeps a prefix of at most `limit` values, and the whole list when it is short enough. |
| ToSchemaConverter.FillFirstSeen | pytest_jsonschema_snapshot/tools/genson_addon/to_schema_converter.py:126-140 | Adding values one by one leaves the first `limit` structurally distinct values in first-seen order. |
| ToSchemaConverter.FillExample | pytest_jsonschema_snapshot/tools/genson_addon/to_schema_converter.py:126-140 | `x, x, y, z` with limit 2 gives `[x, y]`. |
| ToSchemaConverter.Collect | pytest_jsonschema_snapshot/tools/genson_addon/to_schema_converter.py:102-124 | The cache walk never drops a path from either cache, leaves the examples alone when the limit is not positive, and leaves the formats alone in "off" mode. |
| ToSchemaConverter.Converter.Process | pytest_jsonschema_snapshot/tools/genson_addon/to_schema_converter.py:102-124 | The recursive walk updates the caches exactly as the collection specification says: root first, object children at `path.key`, elements at `path[i]`. |
| ToSchemaConverter.Converter.AddObject | pytest_jsonschema_snapshot/tools/genson_addon/to_schema_converter.py:64-71 | Adding an object walks it from `root`. |
| ToSchemaConverter.CollectPreserves | pytest_jsonschema_snapshot/tools/genson_addon/to_schema_converter.py:102-140 | Collecting keeps both caches valid (bounded, duplicate-free buckets, detector tags only). It only extends them, and never touches the format cache in "off" mode. |
| ToSchemaConverter.RecordsPath | pytest_jsonschema_snapshot/tools/genson_addon/to_schema_converter.py:102-124 | With a positive limit every path the walk visits (`Visited`: the node's path, then `path.key` and `path[i]` for its children, recursively) ends up with a non-empty bucket, `root` included. The example cache's paths become exactly the old ones plus the visited ones. |
| ToSchemaConverter.RecordsFields | pytest_jsonschema_snapshot/tools/genson_addon/to_schema_converter.py:119-121 | The same for the fields of a dictionary, each under `path.key`. |
| ToSchemaConverter.RecordsElems | pytest_jsonschema_snapshot/tools/genson_addon/to_schema_converter.py:122-124 | The same for the elements of a list, each under `path[i]`. |
| ToSchemaConverter.StringFormat | pytest_jsonschema_snapshot/tools/genson_addon/to_schema_converter.py:113-116 | For a string node, its path's format set gains exactly the detector's tag in "on"/"safe" mode when the detector returns one, and the format cache is unchanged otherwise. |
| ToSchemaConverter.FormatsOnlyForStrings | pytest_jsonschema_snapshot/tools/genson_addon/to_schema_converter.py:112-124 | A format is recorded for string nodes only. A node that is not a string leaves its own path's format set as it was, a scalar leaves the whole format cache as it was, and no path outside the visited ones changes. |
| ToSchemaConverter.FormatsWithin | pytest_jsonschema_snapshot/tools/genson_addon/to_schema_converter.py:102-124 | The walk changes the format cache only at the paths it visits. |
| ToSchemaConverter.VisitedLonger | pytest_jsonschema_snapshot/tools/genson_addon/to_schema_converter.py:119-124 | Every visited path is at least as long as the node's path, and every path of a child is strictly longer, so a child never writes to its parent's entry. |
| ToSchemaConverter.Converter.ToSchema | pytest_jsonschema_snapshot/tools/genson_addon/to_schema_converter.py:73-98 | The result is the safe-mode block applied to the base schema, then annotations injected from `root`. |
| ToSchemaConverter.Converter.InjectAnnotations | pytest_jsonschema_snapshot/tools/genson_addon/to_schema_converter.py:142-178 | The step-by-step injection computes the annotated tree. |
| ToSchemaConverter.Converter.Annotate | pytest_jsonschema_snapshot/tools/genson_addon/to_schema_converter.py:149-158 | The node's own annotations, `format` then `examples`. |
| ToSchemaConverter.Converter.InjectPropertiesOf | pytest_jsonschema_snapshot/tools/genson_addon/to_schema_converter.py:161-163 | The properties stage of injection. |
| ToSchemaConverter.Converter.InjectItemsOf | pytest_jsonschema_snapshot/tools/genson_addon/to_schema_converter.py:166-172 | The items stage of injection. |
| ToSchemaConverter.Converter.InjectKeyword | pytest_jsonschema_snapshot/tools/genson_addon/to_schema_converter.py:175-178 | The `anyOf`/`oneOf`/`allOf` stage for one keyword. |
| ToSchemaConverter.Injected | pytest_jsonschema_snapshot/tools/genson_addon/to_schema_converter.py:142-178 | Injection maps an object schema to an object schema, and returns any other node unchanged. |
| ToSchemaConverter.InjectNamed | pytest_jsonschema_snapshot/tools/genson_addon/to_schema_converter.py:161-163 | The properties are rewritten in place: same names, same order. |
| ToSchemaConverter.InjectedAnnotations | pytest_jsonschema_snapshot/tools/genson_addon/to_schema_converter.py:142-178 | `format` is set to the path's sole format iff the mode is not "off", `type` is exactly "string" and exactly one format was seen. `examples` is set to the bucket cut to the limit iff the bucket is non-empty. Keys outside the visited ones are untouched and no other key is added. |
| ToSchemaConverter.FormatConflict | pytest_jsonschema_snapshot/tools/genson_addon/to_schema_converter.py:149-152 | Two or more formats seen at a path give no injected `format`. |
| ToSchemaConverter.FormatOff | pytest_jsonschema_snapshot/tools/genson_addon/to_schema_converter.py:149 | "off" mode never injects `format`. |
| ToSchemaConverter.FormatIsDetected | pytest_jsonschema_snapshot/tools/genson_addon/to_schema_converter.py:149-152 | An injected `format` is the only format seen at that path and one of the detector's tags. |
| ToSchemaConverter.ExamplesEmitted | pytest_jsonschema_snapshot/tools/genson_addon/to_schema_converter.py:155-158 | Injected `examples` hold between one and `limit` structurally distinct values, in the order they were first seen. |
| ToSchemaConverter.InjectedProperties | pytest_jsonschema_snapshot/tools/genson_addon/to_schema_converter.py:161-163 | Each property schema is annotated from the path `path.key`. |
| ToSchemaConverter.InjectedItems | pytest_jsonschema_snapshot/tools/genson_addon/to_schema_converter.py:166-172 | For an array node, dict-valued `items` are annotated from `path[0]` and list-valued `items` from `path[i]`. Otherwise `items` are left alone. |
| ToSchemaConverter.InjectedSubs | pytest_jsonschema_snapshot/tools/genson_addon/to_schema_converter.py:175-178 | `anyOf`/`oneOf`/`allOf` subschemas are annotated from the parent's own path. |
| ToSchemaConverter.SafeModeRoot | pytest_jsonschema_snapshot/tools/genson_addon/to_schema_converter.py:81-96 | In safe mode `$schema` is the 2020-12 URI unless the base had one, and `$vocabulary` turns format assertion off and format annotation on. Other modes leave both as the base had them. |
| ToSchemaConverter.SafeBlock | pytest_jsonschema_snapshot/tools/genson_addon/to_schema_converter.py:81-93 | Outside safe mode the base is returned as it is. In safe mode `$vocabulary` is the six-entry vocabulary, `$schema` keeps the base's value or defaults to the 2020-12 URI, and every other key keeps its base value. |
| ToSchemaConverter.SafeBlockKeys | pytest_jsonschema_snapshot/tools/genson_addon/to_schema_converter.py:81-93 | The safe-mode block only defaults `$schema` and sets `$vocabulary`. In other modes the base is unchanged. |
| ToSchemaConverter.VocabularyFlags | pytest_jsonschema_snapshot/tools/genson_addon/to_schema_converter.py:84-93 | The vocabulary maps format-assertion to false and format-annotation to true. |
| FormatDetector.DetectFormat | pytest_jsonschema_snapshot/tools/genson_addon/format_detector.py:24-51 | A non-string or the empty string gives None, and any result is one of the six tags. |
| FormatDetector.Rules | pytest_jsonschema_snapshot/tools/genson_addon/format_detector.py:37-51 | Six rules, each with a distinct detector tag. |
| FormatDetector.IsEmail | pytest_jsonschema_snapshot/tools/genson_addon/format_detector.py:9 | A match has at least six characters: local part, `@`, domain, `.` and two letters. |
| FormatDetector.IsUuid | pytest_jsonschema_snapshot/tools/genson_addon/format_detector.py:10-13 | A match has at least 36 characters, with dashes at positions 8, 13, 18 and 23. |
| FormatDetector.IsDateTime | pytest_jsonschema_snapshot/tools/genson_addon/format_detector.py:15-17 | A match has at least 20 characters: dashes at 4 and 7, `T` at 10, colons at 13 and 16. |
| FormatDetector.IsDate | pytest_jsonschema_snapshot/tools/genson_addon/format_detector.py:14 | A match has at least ten characters, dashes at 4 and 7, and digits at 0 and 9. |
| FormatDetector.IsUri | pytest_jsonschema_snapshot/tools/genson_addon/format_detector.py:18 | A match has at least nine characters and `://` right after `http` or `https`. |
| FormatDetector.IsIpv4 | pytest_jsonschema_snapshot/tools/genson_addon/format_detector.py:19-21 | A match starts with a digit and holds a dot. |
| FormatDetector.Ipv4Shape | pytest_jsonschema_snapshot/tools/genson_addon/format_detector.py:19-21 | Four dot-separated octets start with a digit and hold a dot. |
| FormatDetector.DetectFormatFirstMatch | pytest_jsonschema_snapshot/tools/genson_addon/format_detector.py:37-51 | The result is the tag of the first pattern that matches, in the order email, uuid, date-time, date, uri, ipv4, or None when none matches. |
| FormatDetector.ImpossibleDateIsDate | pytest_jsonschema_snapshot/tools/genson_addon/format_detector.py:14 | The date pattern checks the shape only, so `9999-99-99` is a date. |
| FormatDetector.UuidOf | pytest_jsonschema_snapshot/tools/genson_addon/format_detector.py:10-13 | Five hex groups of 8-4-4-4-12, with version nibble 1-5 and variant nibble 8, 9, a or b in either case, form a uuid. |
| FormatDetector.NotUuid | pytest_jsonschema_snapshot/tools/genson_addon/format_detector.py:10-13 | A string of any other length (allowing a final newline) is no uuid. |
| FormatDetector.NotDateTime | pytest_jsonschema_snapshot/tools/genson_addon/format_detector.py:15-17 | A date-time needs at least the 20 characters of date, `T`, clock and zone. |
| FormatDetector.NotEmail | pytest_jsonschema_snapshot/tools/genson_addon/format_detector.py:9 | No `@`, no e-mail. |
| FormatDetector.EmailSample | pytest_jsonschema_snapshot/tools/genson_addon/format_detector.py:38-39 | `john.doe@example.com` is an email. |
| FormatDetector.UuidSample | pytest_jsonschema_snapshot/tools/genson_addon/format_detector.py:40-41 | `550e8400-e29b-41d4-a716-446655440000` is a uuid. |
| FormatDetector.DateTimeSample | pytest_jsonschema_snapshot/tools/genson_addon/format_detector.py:42-43 | `2024-12-31T23:59:59Z` is a date-time. |
| FormatDetector.UriSample | pytest_jsonschema_snapshot/tools/genson_addon/format_detector.py:46-47 | `https://example.org` is a uri. |
| FormatDetector.Ipv4Sample | pytest_jsonschema_snapshot/tools/genson_addon/format_detector.py:48-49 | `192.168.0.1` is an ipv4 address. |
| FormatDetector.DottedQuad | pytest_jsonschema_snapshot/tools/genson_addon/format_detector.py:19-21 | Any four octets joined by dots match the ipv4 pattern. |
| FormatDetector.FirstPartNotOctet | pytest_jsonschema_snapshot/tools/genson_addon/format_detector.py:19-21 | A first part that is no octet fails the ipv4 pattern. |
| FormatDetector.OctetBound | pytest_jsonschema_snapshot/tools/genson_addon/format_detector.py:19-21 | `256.1.1.1` is no ipv4 address: octets stop at 255. |
| NameMaker.MetaOf | pytest_jsonschema_snapshot/tools/name_maker.py:71-104 | The module is kept as given. A builtin always has a non-empty module. A missing module has no path parts. The class is never `<locals>`. |
| NameMaker.Expand | pytest_jsonschema_snapshot/tools/name_maker.py:107-129 | An unknown name expands to "". `class_method` without a class is the method alone. `path` is "" when there are no path parts. |
| NameMaker.Substitute | pytest_jsonschema_snapshot/tools/name_maker.py:46-51 | A rule without `{` is copied unchanged. |
| NameMaker.Collapse | pytest_jsonschema_snapshot/tools/name_maker.py:132-138 | Collapsing never lengthens the name, keeps its first character, and leaves no `--`. |
| NameMaker.Format | pytest_jsonschema_snapshot/tools/name_maker.py:35-54 | A rule without placeholders is only collapsed. The result never holds `--`. |
| NameMaker.SplitToken | pytest_jsonschema_snapshot/tools/name_maker.py:48 | A token splits at its first `=` into name and joiner. Without `=` the whole token is the name. |
| NameMaker.SubstituteLiteral | pytest_jsonschema_snapshot/tools/name_maker.py:46-51 | Text outside placeholders is copied unchanged. |
| NameMaker.SubstitutePlaceholder | pytest_jsonschema_snapshot/tools/name_maker.py:46-51 | Each `{token}` is replaced by the expansion of its token. |
| NameMaker.UnknownPlaceholder | pytest_jsonschema_snapshot/tools/name_maker.py:128-129 | An unknown placeholder name expands to "". |
| NameMaker.ClassMethod | pytest_jsonschema_snapshot/tools/name_maker.py:123-127 | `class_method` is class, joiner (default "."), method when a class is known, and else only the method. |
| NameMaker.PackageFull | pytest_jsonschema_snapshot/tools/name_maker.py:111-113 | `package_full` is the module itself, or its segments rejoined with the joiner. |
| NameMaker.PathPlaceholder | pytest_jsonschema_snapshot/tools/name_maker.py:97-101 | `path` is the module segments after the first, joined with the joiner (default "/"). |
| NameMaker.PathOfTopModule | pytest_jsonschema_snapshot/tools/name_maker.py:114-118 | `path` is "" for a one-segment or missing module. |
| NameMaker.QualnameParts | pytest_jsonschema_snapshot/tools/name_maker.py:91-95 | The class is the next-to-last qualname segment unless that is `<locals>` or there is only one segment. The method is the last segment. |
| NameMaker.MethodOfClass | pytest_jsonschema_snapshot/tools/name_maker.py:91-95 | `C.m` gives class `C` and method `m`. |
| NameMaker.LocalFunction | pytest_jsonschema_snapshot/tools/name_maker.py:91-95 | A function defined inside another (`f.<locals>.g`) has no class. |
| NameMaker.CallableInstance | pytest_jsonschema_snapshot/tools/name_maker.py:82-84 | A callable instance is named by its class and `__call__`. |
| NameMaker.BuiltinModule | pytest_jsonschema_snapshot/tools/name_maker.py:77-79 | A builtin without a module belongs to `builtins`. |
| NameMaker.BraceFree | pytest_jsonschema_snapshot/tools/name_maker.py:46-51 | The placeholder scan stops at the first brace. |
| NameMaker.Squeeze | pytest_jsonschema_snapshot/tools/name_maker.py:133-138 | Squeezing one character leaves no doubled occurrence of it and never lengthens the text. |
| NameMaker.CollapseSpec | pytest_jsonschema_snapshot/tools/name_maker.py:132-138 | The collapsed name has no `//`, `..` or `--`, keeps every other character in order, and collapsing twice equals collapsing once. |
| NameMaker.CollapseKeepsUnderscores | pytest_jsonschema_snapshot/tools/name_maker.py:27-29 | A `__` run survives collapsing untouched. |
| NameValidator.CheckValid | pytest_jsonschema_snapshot/tools/name_validator.py:17-23 | The name is accepted iff it is non-empty and contains none of the nine forbidden characters. An empty name raises the empty-name error first, and otherwise a forbidden character raises the invalid-characters error. |
| NameValidator.ForbiddenCharRejected | pytest_schema_snapshot/tools/name_validator.py:21-23 | Any forbidden character anywhere rejects the name. |
| NameValidator.SameCharsSameVerdict | pytest_schema_snapshot/tools/name_validator.py:21-23 | The verdict depends only on which characters occur, so reordering or repeating them changes nothing. |
| NameValidator.DottedJoinValid | pytest_jsonschema_snapshot/core.py:59-64 | `_process_name` joins the parts with "." and then validates the joined name itself. Joining two valid names with "." always passes that check. |
| Stats.SchemaStats.constructor | pytest_jsonschema_snapshot/stats.py:13-22 | All lists and diff maps start empty, and the invariant holds. |
| Stats.SchemaStats.HasChanges | pytest_jsonschema_snapshot/stats.py:60-61 | There are changes iff the created, updated and deleted lists hold at least one name between them. |
| Stats.SchemaStats.HasAnyInfo | pytest_jsonschema_snapshot/stats.py:63-70 | Any change is information. Information without a change means an unused or uncommitted schema. |
| Stats.SchemaStats.AddCreated | pytest_jsonschema_snapshot/stats.py:24-25 | Appends to `created` only, and afterwards there are changes. |
| Stats.SchemaStats.AddDeleted | pytest_jsonschema_snapshot/stats.py:54-55 | Appends to `deleted` only, and afterwards there are changes. |
| Stats.SchemaStats.AddUnused | pytest_jsonschema_snapshot/stats.py:57-58 | Appends to `unused` only. Whether there are changes is unchanged, but there is now information. |
| Stats.SchemaStats.AddUpdated | pytest_jsonschema_snapshot/stats.py:27-42 | With both schemas given and non-empty, the name and its diff are recorded only if the diff is not blank. Otherwise the name is appended unconditionally and no diff is stored. Every stored diff belongs to a listed name. |
| Stats.SchemaStats.AddUncommitted | pytest_jsonschema_snapshot/stats.py:44-52 | The name and its diff are recorded only if the diff is not blank, and nothing else changes. |
| Stats.MergeAllConcat | pytest_jsonschema_snapshot/stats.py:127-142 | Names are handled one at a time, so the output keeps the input order. |
| Stats.MergeAllMembers | pytest_jsonschema_snapshot/stats.py:127-142 | An entry is output iff some input name produces it. |
| Stats.SchemaWithOriginal | pytest_jsonschema_snapshot/stats.py:128-133 | `<b>.schema.json` with `<b>.json` listed is shown as `<b>.schema.json + original`, keyed by the schema name, and not as a plain entry. |
| Stats.OriginalWithSchema | pytest_jsonschema_snapshot/stats.py:134-138 | A plain `<b>.json` is dropped when `<b>.schema.json` is listed. |
| Stats.OriginalAlone | pytest_jsonschema_snapshot/stats.py:134-139 | A plain `<b>.json` without its schema is shown with no key. |
| Stats.OtherName | pytest_jsonschema_snapshot/stats.py:140-142 | Any other name is shown unchanged, keyed by itself. |
| Stats.IterMerged | pytest_jsonschema_snapshot/stats.py:104-142 | The output is never longer than the input, and every schema key it gives is one of the input names. |

## Left out

- Python's dictionary equality ignores key order. The model's structural equality on association lists does not, so two dictionaries with the same members in another order count as different values in `_find_differences` and in the example de-duplication.
- Python's `==` treats `1`, `1.0` and `True` as equal. The model compares values structurally, so they stay distinct. Each member this affects has its own line below.
- DifferencesUnderKey: an entry is made when two values differ structurally. `{"minimum": 1}` against `{"minimum": 1.0}` gives an entry in the model, but none in `_find_differences` (compare_schemas.py:52-55). Differences and EntryDifferences share this gap.
- ListOrderSpec: the list-diff items are de-duplicated structurally. `[1]` against `[True]` lists two items, where the `set()` of compare_schemas.py:76-77 lists one. ListOrder shares this gap.
- ListDiffLines: `set()` at compare_schemas.py:76-77 raises `TypeError` when a list holds dicts or lists. The model renders such lists instead. FormatListDiff, Block and FormatEntry share this gap.
- AddExample: duplicates are found by structural equality, not by the Python `==` of to_schema_converter.py:137-139. Adding `1` and then `1.0` with a limit of 2 keeps both, where Python keeps `[1]`. AddedExample shares this gap.
- AddedExampleValid: "no value twice" means no structurally equal value twice, so `1` and `1.0` may both be stored.
- FillFirstSeen: the first `limit` values are structurally distinct ones, where Python keeps only one of `1`, `1.0` and `True`.
- ExamplesEmitted: the injected examples are structurally distinct, not distinct under Python's `==`.
- Walkable: the legacy walk requires dictionary nodes whose `properties`, if present, is a dictionary. `compare_recursive` raises `AttributeError` on a boolean subschema or on `"properties": null` (core.py:51-64), and the model does not return that error. Lines and LegacyCompare.CompareSchemas share this requirement.
- Injected: a subschema that is not a dictionary is returned unchanged, where `_inject_annotations` would raise `AttributeError` on it. Malformed shapes of the generated schema are skipped rather than raised on:
  - `"properties": null` or a list on an `object` node is left alone, where `.items()` raises `AttributeError` (to_schema_converter.py:161-162).
  - `"anyOf"`, `"oneOf"` or `"allOf"` holding `null` or a number is left alone, where `enumerate` raises `TypeError` (to_schema_converter.py:177).
  - A dictionary under those keywords is left alone, where Python walks its keys and raises `AttributeError` on the first string key (to_schema_converter.py:177-178).

  InjectProperties and InjectSubs share this gap.
- The order in which Python iterates a set is unspecified. The model fixes it in three places:
  - the key union of `_find_differences` takes the old keys, then the new-only keys;
  - `_merge_schemas` takes the keys of the first operand, then the new keys of the second;
  - `compare_recursive` takes each side's keys in insertion order.

  The lemmas state membership, which does not depend on that order.
- `_inject_annotations` changes the schema dictionaries in place. The model rebuilds the tree as a value, so aliasing between subtrees is not captured.
- The genson `SchemaBuilder` base (`super().add_object`, `super().to_schema`) is not part of this model. Its output schema is an input tree of `ToSchema`.
- The recognisers of `schema_utils._detect_format` (`datetime.strptime`, `urlparse`, `ipaddress`) are uninterpreted predicates passed in as `Parsers`. Only their precedence and the e-mail pattern are modelled. Whether `urlparse` raises is one more uninterpreted field, `urlparseError`, so the model does not decide which strings raise (CPython's unmatched-bracket check is named in its comment only). That error aborts generation, while the other recognisers' errors are caught.
- `CONFIG.type_map` is not part of this model. The closed set of seven kinds replaces it, and any other Python value is the `Unsupported` case.
- `json.dumps` text is simplified: strings are wrapped in quotes without escaping, and floats keep their Python text.
- PyRepr: strings are always wrapped in single quotes. Python's `repr` switches to double quotes for a string that holds `'` and no `"`, and escapes backslashes, the quote in use and control characters. The model does not, so a string like `it's` reads `'it's'` instead of `"it's"`.
- `\d` is taken as the ASCII digits; the Unicode digits Python's `re` also accepts are not modelled. `\s` and `str.isspace()` are modelled with Python's Unicode white-space set.
- `click.style` colouring in `_format_differences` is dropped.
- `print_summary` terminal output and the `__str__` texts of `SchemaStats` are not modelled. Only the `_iter_merged` pairing is.
- The schema-diff wrapper (`tools/schema_diff.py`) wraps a foreign library, so it is not part of this model. The diff text that `add_updated` and `add_uncommitted` receive is a parameter.
- `NameMaker._unwrap` and the `inspect` probing in `_meta` are not modelled. A callable is described by its qualified name and module, as strings.
- The `NameMaker.format_callable` call at `pytest_jsonschema_snapshot/core.py:55` names a method that `name_maker.py` does not define. It is not modelled.
- Plugin wiring, the `assert_*` entry points, file reads and writes, and `jsonschema.validate` are not modelled.
- Idempotence and order-independence of `_merge_schemas` do not hold in the source, so they are not stated. `required` is re-sorted and `format` is dropped, and folding `{a:1}, {}, {a:2}` differs from folding `{a:1}, {a:2}, {}`.

## Findings

| source | as written | input that shows it | evidently intended | confidence | as-written member | corrected member |
|---|---|---|---|---|---|---|
| src/typed_schemashot/compare_schemas.py:95-96 | The trailing comma is removed with `rpartition(",")` on the last line. That line is the header when both lists are empty, and a header with a comma in its path loses that comma. | path `["a,b"]`, old list `[]`, new list `[]`: the header becomes `  ["ab"]:` | Only the comma that ends the last item line is removed, and the header is never altered | not executed | CompareSchemas.ListDiffAsWrittenBreaksHeader | CompareSchemas.ListDiffLinesShape |
