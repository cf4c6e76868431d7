# DATAGERRY core rules in Dafny

This project models the pure decision and transformation rules at the core
of the DATAGERRY CMDB.

- **Search pipeline.** `SearchPipelineBuilder.build` turns search-form
  parameters into MongoDB aggregation stages. `get_regex_pipes_values`
  collects the `$regex` patterns used for highlighting.
  `SearcherFramework.aggregate` appends the reference-resolution block and the
  closing `$facet` stage, then unpacks the one-document envelope the store
  returns.
- **Object routes.** The pure fragments of the object REST routes:
  - the semantic-version bump classifier;
  - the merge of submitted fields into the type's field template, with the
    defaults taken from the current object;
  - the comma-list query builders (`_build_query` and delete-by-ids);
  - the data-table search-term coercion and filter;
  - the unstructured-object test and field reconciliation;
  - the active-only cookie flag.
- **Object and type records.** `CmdbObject` and `CmdbType` with their
  accessors: constructor defaults, type-id guard, view counter, field lookup
  by name, log-action validation, label defaulting via `str.title`, Python
  list indexing, and the stable sort of sections by position.
- **User settings.** The `UserSettingType` enumeration and the
  setting ↔ document mapping.
- **Class paths.** The module/class split at the heart of `load_class`.

Documents are a closed JSON-like `Json.Value`. Its `Dict` is an ordered
member list, so Python's dict iteration order is explicit, and `Json.Get` is
`dict.get` (first occurrence). Python's `int()`, `str.split`, `str.title`,
truthiness and negative indexing are written out in `Strings` and beside
their users.

The store, the category lookup, the result renderer, the `CmdbFieldType`
constructor, `datetime.isoformat` and `datetime.today` are function
parameters. Flask requests, responses and cookies become plain arguments
and results.

The aggregation primitives (`match_`, `regex_`, `in_`, `or_`, `lookup_`,
`facet_`, ...) come from a pipeline-builder base class that is not part of
this model. Module `Query` gives them the standard MongoDB aggregation
shapes (`{'$match': c}`, `{f: {'$regex': p, '$options': o}}`,
`{f: {'$in': xs}}`, ...). These are the same shapes the resolve block of
`aggregate` writes out literally.

Modules:

| module | what it holds |
|---|---|
| `Results`, `Json`, `Strings`, `StringOrder`, `Seqs` | `Option`/`Result`, the document values, Python string and integer conversions, `sorted()` on strings, filtering |
| `Query` | the aggregation-stage constructors |
| `RegexScan` | `get_regex_pipes_values` and its reference definition |
| `SearchBuilder` | `SearchPipelineBuilder.build` |
| `Searcher` | `SearcherFramework.aggregate`: assembly and unpacking |
| `ObjectUpdate` | version bump, field merge and the prepared update document |
| `ObjectQueries` | `_build_query`, delete ids, objects by types, the data-table filter, the active flag |
| `ObjectClean` | unstructured detection and reconciliation |
| `Fields` | the by-name field search shared by objects and types |
| `CmdbObject` | `CmdbObject` and `CmdbObjectLog` |
| `CmdbType` | `CmdbType` |
| `UserSettings` | `UserSettingType`, `UserSettingPayload`, `UserSettingModel` |
| `ClassPath` | the split in `load_class` |

## Model

| member | source | states |
|---|---|---|
| SearchBuilder.BuildActiveFirst | cmdb/search/searchers.py:80-84 | with the active flag the first stage is the `active == True` match; without it no stage tests `active` at all |
| SearchBuilder.BuildParts | cmdb/search/searchers.py:76-117 | the type block is one match of its own types per conjunctive type parameter with types, in order, then one `$or` of one `type_id` `$in` per disjunctive parameter with types, present exactly when there is such a parameter; text stages match on `fields.value`, category stages on `type_id`, id stages on `public_id` |
| SearchBuilder.TextStagesMatch | cmdb/search/searchers.py:86-91 | every text/regex stage is a regex match on `fields.value`; a text or regex parameter contributes exactly one `ims` regex match of its own text and any other parameter none; the stages of two parameter lists in a row are their stages in a row |
| SearchBuilder.TypeLoopFacts | cmdb/search/searchers.py:93-103 | every stage the type loop adds is a `type_id` match, and it collects `$or` conditions exactly when some disjunctive type parameter has types |
| SearchBuilder.TypeLoopContent | cmdb/search/searchers.py:93-103 | the loop adds exactly one `type_id` `$in` match of each conjunctive parameter's own types, in parameter order, and collects exactly one `type_id` `$in` condition of each disjunctive parameter's own types; parameters without types add nothing |
| SearchBuilder.TypeStagesContent | cmdb/search/searchers.py:93-103 | the type block is those conjunctive matches followed by `$or` of the collected conditions, the `$or` present exactly when some condition was collected |
| SearchBuilder.TypeStagesOrCount | cmdb/search/searchers.py:93-103 | the type block holds one `$or` stage exactly when `$or` conditions were collected, and none otherwise |
| SearchBuilder.BuildSingleOr | cmdb/search/searchers.py:93-103 | however many disjunctive type parameters there are, the whole pipeline holds exactly one `$or` stage if any has types and none otherwise |
| SearchBuilder.CategoryLoopMatch | cmdb/search/searchers.py:106-112 | the category stages are, in order, one `type_id` `$in` match per category the lookup returns for each category parameter with non-empty `categories`, and nothing else |
| SearchBuilder.CategoryLookupKeyedOnText | cmdb/search/searchers.py:106-112 | two category parameters with the same text and non-empty `categories` give the same stages, one per looked-up category, whatever the settings list holds |
| SearchBuilder.IdLoopFacts | cmdb/search/searchers.py:115-117 | the `publicID` loop fails exactly when some text is not an integer for `int()`, otherwise yields one `public_id` match per parameter in order |
| SearchBuilder.BuildFailsOnBadPublicId | cmdb/search/searchers.py:115-117 | the build fails exactly when some `publicID` parameter's text is not an integer |
| SearchBuilder.BuildIgnoresUnknownForms | cmdb/search/searchers.py:86-117 | parameters with any other `search_form` contribute no stage: dropping them leaves the pipeline unchanged |
| SearchBuilder.TextSearchScenario | cmdb/search/searchers.py:86-91 | a single text search `server.*` builds exactly one regex match for it, and the highlighting scan of that pipeline reports exactly `server.*` |
| RegexScan.ScanMembersSound | cmdb/search/searchers.py:42-73 | the walk of a dict reports a prefix of all its `$regex` values in document order, and runs to the end exactly when every reachable list holds only dicts, then reporting all of them |
| RegexScan.ScanValueSound | cmdb/search/searchers.py:42-73 | the same for any value |
| RegexScan.ScanItemsSound | cmdb/search/searchers.py:53-56 | the same for a list, which dies at its first non-dict element |
| RegexScan.RegexPipesValuesAppend | cmdb/search/searchers.py:58-73 | extraction is stage by stage: the values of a concatenated pipeline are the concatenated values, duplicates kept |
| RegexScan.StageValuesOccur | cmdb/search/searchers.py:42-73 | every reported value of a stage was stored under a `$regex` key in that stage |
| RegexScan.WellShapedStageComplete | cmdb/search/searchers.py:42-73 | a stage whose lists hold only dicts reports all its `$regex` values |
| RegexScan.StopsWithinStageOnly | cmdb/search/searchers.py:42-73 | a bad list element ends the scan of its own stage only; values found before it are kept and later stages are still scanned |
| RegexScan.NoRegexStagesAddNothing | cmdb/search/searchers.py:58-73 | appending stages that hold no `$regex` key leaves the extracted values unchanged |
| Searcher.AssembleShape | cmdb/search/searchers.py:143-209 | the caller's stages come first and unchanged, `resolve` adds exactly the five resolve stages, and the facet stage is always last |
| Searcher.FacetBranches | cmdb/search/searchers.py:185-209 | the facet has `metadata` = [count of `total`], `data` = [skip, limit] in that order, and `group` ending with a sort on `total` descending |
| Searcher.ReferencesActiveFilter | cmdb/search/searchers.py:147-179 | the references lookup pipeline is [active match, reference match] when `active` is set and [reference match] otherwise |
| Searcher.AddedStagesNoRegex | cmdb/search/searchers.py:149-209 | no stage `aggregate` appends holds a `$regex` key |
| Searcher.AssembledRegexValues | cmdb/search/searchers.py:149-215 | the highlighting values of the assembled pipeline are exactly those of the caller's pipeline |
| Searcher.AggregateEchoes | cmdb/search/searchers.py:214-243 | a successful result echoes `limit`, `skip` and the cursor's liveness, and its highlighting values are the caller's patterns |
| Searcher.AggregateNoDocument | cmdb/search/searchers.py:211-220 | an empty store answer fails with the `IndexError` of reading the result list's first document |
| Searcher.AggregateEmptyData | cmdb/search/searchers.py:220-233 | an envelope with empty `data` gives no results, no groups and total 0, whatever `metadata` and `group` hold |
| Searcher.AggregateWithData | cmdb/search/searchers.py:220-233 | with data whose every document the object constructor accepts, the total is `metadata[0].get('total', 0)`, the groups are passed through verbatim and the results are the rendered documents |
| Searcher.AggregateEmptyMetadata | cmdb/search/searchers.py:220-227 | with data the object constructor accepts but an empty `metadata` list, reading the total is an index error |
| Searcher.AggregateUnconstructible | cmdb/search/searchers.py:220-223 | a data document that `CmdbObject(**doc)` refuses, any non-mapping included, raises `TypeError` before `metadata` or `group` is read |
| Searcher.UnpackSpec | cmdb/search/searchers.py:211-243 | unpacking succeeds exactly on a readable envelope: a first document that is a dict whose `data` has a Python length and, when that length is not 0, is a list of mappings the object constructor accepts, with a `metadata` list starting with a dict and a `group` key; empty data gives no results, total 0 and no groups, otherwise the rendered data, `metadata[0].get('total', 0)` and the groups as stored; liveness, regex values, `limit` and `skip` are echoed |
| ObjectUpdate.ClassifyBumpCases | cmdb/interface/rest_api/framework_routes/object_routes.py:638-647 | each bump with its exact integer condition: patch for one change, major for all, minor for more than half (true division), patch otherwise |
| ObjectUpdate.ClassifyBumpExamples | cmdb/interface/rest_api/framework_routes/object_routes.py:638-647 | 1 of 1 is a patch, 0 of 0 is major, 2 of 4 a patch, 3 of 4 minor |
| ObjectUpdate.ApplyOneSpec | cmdb/interface/rest_api/framework_routes/object_routes.py:609-611 | one item against one template field succeeds exactly when defined, keeps the field's name, and overwrites the value only on a name match |
| ObjectUpdate.ApplyItemSpec | cmdb/interface/rest_api/framework_routes/object_routes.py:609-611 | one item's pass over the template is the single step applied to each field |
| ObjectUpdate.MergeFieldsSpec | cmdb/interface/rest_api/framework_routes/object_routes.py:605-612 | the merge keeps the template's fields in order and gives each the value of the last submitted item with its name, or the template's value; unknown items are dropped |
| ObjectUpdate.MergeFieldsDefined | cmdb/interface/rest_api/framework_routes/object_routes.py:605-612 | the merge succeeds exactly when every item/field pair is defined |
| ObjectUpdate.TemplateShape | cmdb/interface/rest_api/framework_routes/object_routes.py:605-606 | every merged field has only `name` and `value` keys and the type field's name |
| ObjectUpdate.NameValueOnlyGet | cmdb/interface/rest_api/framework_routes/object_routes.py:605-606 | a field reduced to `name`/`value` reads those keys as before |
| ObjectUpdate.NameValueOnlyKeys | cmdb/interface/rest_api/framework_routes/object_routes.py:605-606 | and has no other key |
| ObjectUpdate.StampSpec | cmdb/interface/rest_api/framework_routes/object_routes.py:601-603 | the stamps set `public_id`, `creation_time` and `author_id` and leave every other key as it was |
| ObjectUpdate.FinishSpec | cmdb/interface/rest_api/framework_routes/object_routes.py:612-620 | after the merge, `fields` is the merged template, `active` and `version` keep the body's value or take the current object's, `comment` moves out, every other key is unchanged |
| ObjectUpdate.PrepareUpdateNeedsObject | cmdb/interface/rest_api/framework_routes/object_routes.py:621-624 | a body that is not a JSON object is a bad request |
| ObjectUpdate.PrepareUpdateStamps | cmdb/interface/rest_api/framework_routes/object_routes.py:600-624 | on every path the stored document carries the route's id and the current creation time and author |
| ObjectUpdate.PrepareUpdateMerged | cmdb/interface/rest_api/framework_routes/object_routes.py:600-622 | with a list of fields and a comment, the document holds the merged template, defaulted `active`/`version`, and the comment is moved out |
| ObjectUpdate.PrepareUpdateNoFields | cmdb/interface/rest_api/framework_routes/object_routes.py:607-622 | without `fields` the block stops at once: nothing is defaulted, `comment` stays in the document and the log comment is empty |
| ObjectQueries.ParseIntsSpec | cmdb/interface/rest_api/framework_routes/object_routes.py:1018-1022 | pieces parse exactly when each is an integer for `int()`, one number per piece in order |
| ObjectQueries.BuildQueryOneArg | cmdb/interface/rest_api/framework_routes/object_routes.py:1015-1024 | one argument gives one `{key: n}` condition per comma piece, in order, under the given operator |
| ObjectQueries.BuildQueryRejects | cmdb/interface/rest_api/framework_routes/object_routes.py:1018-1022 | any non-integer piece of any argument is a 400 |
| ObjectQueries.AllConditionsFails | cmdb/interface/rest_api/framework_routes/object_routes.py:1017-1022 | the argument loop fails exactly when some argument's pieces do not parse: one bad argument anywhere is enough, and without one the loop succeeds |
| ObjectQueries.JoinIntsRoundTrip | cmdb/interface/rest_api/framework_routes/object_routes.py:1018-1022 | a comma list written from integers parses back to them |
| ObjectQueries.DeleteFilterRoundTrip | cmdb/interface/rest_api/framework_routes/object_routes.py:738-744 | the delete filter of an id list written from integers is `{'public_id': {'$in': ids}}` with exactly those integers |
| ObjectQueries.DeleteFilterSpec | cmdb/interface/rest_api/framework_routes/object_routes.py:738-744 | the bulk delete is a 400 exactly when some comma piece is not an integer; otherwise it selects `public_id` in the pieces' integers, one per piece in order |
| ObjectQueries.ObjectsByTypesAlwaysActive | cmdb/interface/rest_api/framework_routes/object_routes.py:304-313 | for every type-id text, the query is the same whatever the active-only argument says; it raises `ValueError` exactly when some comma piece is not an integer, and otherwise is `$and` of the pieces' `type_id` `$in` and `active == True` |
| ObjectQueries.ObjectsByTypesRoundTrip | cmdb/interface/rest_api/framework_routes/object_routes.py:308-313 | a type list written from integers selects exactly those types, active objects only |
| ObjectQueries.ObjectsByTypesCorrectedFollowsArgument | cmdb/interface/rest_api/framework_routes/object_routes.py:309-312 | with the flag called, the condition is `active == True` exactly when the argument is `True` or `true` and `active == False` otherwise, and it agrees with the route as written exactly then |
| ObjectQueries.ObjectsByTypesCounterexample | cmdb/interface/rest_api/framework_routes/object_routes.py:309-312 | types `1` without the argument list active objects as written and inactive ones once the flag is called |
| ObjectQueries.CoerceTermCases | cmdb/interface/rest_api/framework_routes/object_routes.py:241-246 | `true`/`True` become true, `false`/`False` false, all-digit text an integer, anything else stays text |
| ObjectQueries.SearchTextKept | cmdb/interface/rest_api/framework_routes/object_routes.py:241-261 | the regex text equals the search text exactly when it is not an all-digit string with a leading zero |
| ObjectQueries.LeadingZerosDropped | cmdb/interface/rest_api/framework_routes/object_routes.py:245-261 | `007` is searched as the integer 7 with regex `7` |
| ObjectQueries.OrConditionsShape | cmdb/interface/rest_api/framework_routes/object_routes.py:259-275 | the `$or` list starts with the fields elemMatch on the coerced term and has three entries for integer terms, one otherwise |
| ObjectQueries.DtFilterShape | cmdb/interface/rest_api/framework_routes/object_routes.py:249-279 | the filter is `{'$and': cs}` where `cs` is, in order, `{'public_id': {'$in': ids}}` of the parsed filter ids when a list is given, `type_id`, the active match exactly when the cookie is `True` or `true`, and the `$or` |
| ObjectQueries.DtFilterBadId | cmdb/interface/rest_api/framework_routes/object_routes.py:250-251 | a non-integer filter id fails the filter build |
| ObjectClean.UnstructuredIff | cmdb/interface/rest_api/framework_routes/object_routes.py:942-947 | an object is unstructured exactly when its field names and the type's differ as multisets: order is ignored, duplicates count |
| ObjectClean.NamesSpec | cmdb/interface/rest_api/framework_routes/object_routes.py:983-999 | the names are read exactly when every field has one, one name per field in order |
| ObjectClean.KeepNamedSpec | cmdb/interface/rest_api/framework_routes/object_routes.py:984-993 | pruning keeps exactly the fields whose name is one of the type's |
| ObjectClean.AddMissingAdds | cmdb/interface/rest_api/framework_routes/object_routes.py:995-1005 | every type field missing from the object is added with the type's value, or None |
| ObjectClean.AddMissingOnly | cmdb/interface/rest_api/framework_routes/object_routes.py:995-1005 | only missing type fields are added |
| ObjectClean.AddMissingPrefix | cmdb/interface/rest_api/framework_routes/object_routes.py:995-1005 | adding leaves the existing fields in place at the front |
| ObjectClean.ReconcileFails | cmdb/interface/rest_api/framework_routes/object_routes.py:978-1005 | reconciliation raises `KeyError` exactly when a type field lacks a name, or the type has fields and an object field lacks one |
| ObjectClean.ReconcileKeeps | cmdb/interface/rest_api/framework_routes/object_routes.py:978-993 | kept object fields keep their values; with a non-empty type only type names remain, with an empty type nothing is removed |
| ObjectClean.ReconcileComplete | cmdb/interface/rest_api/framework_routes/object_routes.py:995-1005 | afterwards every type field name is present |
| ObjectClean.ReconcileIdempotent | cmdb/interface/rest_api/framework_routes/object_routes.py:978-1005 | reconciling a reconciled object changes nothing |
| Fields.FindSpec | cmdb/object_framework/cmdb_object.py:90-94 | the name search stops at the first field named so or lacking a name, past only other names, and runs out exactly when every field has another name |
| Fields.FindFirst | cmdb/object_framework/cmdb_object.py:90-94 | the first match after other names only is where the search stops |
| Fields.FindUnnamed | cmdb/object_framework/cmdb_object.py:90-91 | a nameless field met first is where it fails |
| CmdbObject.NewObjectDefaults | cmdb/object_framework/cmdb_object.py:22-47 | `views` defaults to 0 and `version` to `1.0.0`; type id, fields and logs are kept as given |
| CmdbObject.NewObjectReadsBack | cmdb/object_framework/cmdb_object.py:22-47 | every constructor argument reads back from its attribute; a given `views` or `version` is kept and only an absent one takes its default |
| CmdbObject.GetTypeIdOfNew | cmdb/object_framework/cmdb_object.py:57-59 | a constructed object's type id reads back exactly when it is not 0, `False` or None; otherwise `TypeNotSetError` reports the object's public id |
| CmdbObject.GetTypeId | cmdb/object_framework/cmdb_object.py:57-59 | fails with the object's id exactly when `type_id` equals 0 (or `False`) or is None, else returns it |
| CmdbObject.UpdateViewCounter | cmdb/object_framework/cmdb_object.py:68-69 | views go up by exactly one, the new count is returned, nothing else changes |
| CmdbObject.UpdateViewCounterTwice | cmdb/object_framework/cmdb_object.py:68-69 | two calls add two |
| CmdbObject.FirstViewOfNew | cmdb/object_framework/cmdb_object.py:68-69 | the first view of an object built without a count is view 1, with a count the next one; fields and type id are untouched |
| CmdbObject.GetValueFirst | cmdb/object_framework/cmdb_object.py:90-94 | the value of the first field with the name is returned; a `KeyError` if that field has no value |
| CmdbObject.GetValueAbsent | cmdb/object_framework/cmdb_object.py:90-94 | None when every field has another name |
| CmdbObject.GetValueUnnamed | cmdb/object_framework/cmdb_object.py:90-91 | `KeyError` at a nameless field met before any match |
| CmdbObject.EmptyLogsMeansLastLog | cmdb/object_framework/cmdb_object.py:96-106 | `empty_logs` is true exactly when there are logs, the case where `last_log` reads an entry |
| CmdbObject.MakeLog | cmdb/object_framework/cmdb_object.py:109-130 | a log is only ever built with an action among `create`, `edit`, `delete` |
| CmdbObject.MakeLogSpec | cmdb/object_framework/cmdb_object.py:112-130 | a document with exactly the five parameters builds a log iff its action is possible, else `ActionNotPossibleError`; a falsy date becomes today |
| CmdbObject.MakeLogMissingKey | cmdb/object_framework/cmdb_object.py:112 | a missing parameter is a `TypeError` |
| CmdbObject.MakeLogExtraKey | cmdb/object_framework/cmdb_object.py:112 | an unknown keyword is a `TypeError` |
| CmdbObject.LastLogSpec | cmdb/object_framework/cmdb_object.py:101-106 | no logs is an `IndexError`; otherwise the result is the log the last entry builds, None exactly when its action is not possible (a `CMDBError`), and any other construction error (`TypeError`) propagates |
| CmdbObject.LogDocWellKeyed | cmdb/object_framework/cmdb_object.py:112-117 | a log written back with its five parameters is a well-keyed document |
| CmdbType.TitleSpec | cmdb/object_framework/cmdb_object_type.py:28 | `str.title` keeps the length and each letter up to case, and a letter comes out upper case exactly when it starts a word |
| CmdbType.TitleIdempotent | cmdb/object_framework/cmdb_object_type.py:28 | titling twice is titling once |
| CmdbType.NewTypeDefaults | cmdb/object_framework/cmdb_object_type.py:24-38 | without a label, the label is the titled name (same length, and titling it again changes nothing); fields default to `[]` and version to `1.0.0` |
| CmdbType.NewTypeLabelGiven | cmdb/object_framework/cmdb_object_type.py:28-36 | a non-empty given label is kept as the label |
| CmdbType.PyIndexSpec | cmdb/object_framework/cmdb_object_type.py:52-74 | index `i` reads `s[i]` for `0 <= i < n`, `s[n+i]` for `-n <= i < 0`, and None otherwise |
| CmdbType.SortByPositionSpec | cmdb/object_framework/cmdb_object_type.py:67-68 | the sections come out sorted by position and as a permutation of the input |
| CmdbType.SortByPositionStable | cmdb/object_framework/cmdb_object_type.py:67-68 | sections with equal positions keep their input order |
| CmdbType.InsertByPositionSorted | cmdb/object_framework/cmdb_object_type.py:67-68 | insertion into a sorted list keeps it sorted |
| CmdbType.InsertByPositionStable | cmdb/object_framework/cmdb_object_type.py:67-68 | insertion goes in front of all sections with an equal position and leaves their order alone |
| CmdbType.GetFieldFirst | cmdb/object_framework/cmdb_object_type.py:89-95 | the first field with the name is constructed; a construction failure gives None |
| CmdbType.GetFieldNotFound | cmdb/object_framework/cmdb_object_type.py:89-96 | no such name raises `FieldNotFoundError` naming the field and the type |
| CmdbType.FieldNotFoundMessageNames | cmdb/object_framework/cmdb_object_type.py:104-106 | the message contains the field name and the type name |
| UserSettings.ParseTypeRoundTrip | cmdb/user_management/models/settings.py:27-35 | exactly `GLOBAL`, `APPLICATION`, `SERVER` are accepted, each for its own member, and each member's name parses back to it |
| UserSettings.PayloadIdentity | cmdb/user_management/models/settings.py:64-92 | payload `from_data` and `to_dict` are inverse identities |
| UserSettings.ToDictGets | cmdb/user_management/models/settings.py:202-208 | the document holds identifier, user id, payload under `setting`, the type's name and the ISO time, and no `settings` key |
| UserSettings.FromDataFails | cmdb/user_management/models/settings.py:169-175 | an unknown setting type or a user id `int()` refuses fails `from_data`; a missing user id is a `TypeError` |
| UserSettings.ToDictNeedsTime | cmdb/user_management/models/settings.py:174-207 | a setting read from a document without `setting_time` cannot be written: `isoformat` of None fails |
| UserSettings.RoundTripLosesPayload | cmdb/user_management/models/settings.py:169-208 | writing then reading keeps identifier, user id and type, turns the time into its ISO text, and loses the payload |
| UserSettings.RoundTripCounterexample | cmdb/user_management/models/settings.py:172-205 | a concrete setting with a payload that the round trip changes |
| UserSettings.CorrectedRoundTrip | cmdb/user_management/models/settings.py:169-208 | reading the payload from `setting`, the round trip returns the setting with only its time in ISO form |
| ClassPath.SplitSound | cmdb/utils/helpers.py:80-85 | a split is a full match of `(.*)\.(.*)`, its class name holds no dot, and joining the parts gives the path |
| ClassPath.SplitGreedy | cmdb/utils/helpers.py:80-85 | among all matches the split takes the longest module name |
| ClassPath.SplitFails | cmdb/utils/helpers.py:80-83 | the split fails exactly when no match exists, i.e. no dot or a newline, with the message `Could not load class` and the path |
| ClassPath.SplitExamples | cmdb/utils/helpers.py:80-85 | `a.b.C` splits into `a.b` and `C`; `Plain` fails |
| Strings.ParseIntToString | cmdb/interface/rest_api/framework_routes/object_routes.py:1018-1022 | `int()` reads back every integer's decimal text |
| Strings.SplitJoin | cmdb/interface/rest_api/framework_routes/object_routes.py:1018 | `str.split(',')` and joining with `,` are inverse |
| StringOrder.SortEqualIffSameMultiset | cmdb/interface/rest_api/framework_routes/object_routes.py:942-947 | two sorted lists of names are equal exactly when the names agree as multisets |

## Left out

- Flask routing, authentication, rights checks, request parsing, JSON responses, logging and every MongoDB call are left out. Their inputs and outputs are parameters and results.
- The pipeline-builder base class is not part of this model. Its primitives are given the standard MongoDB stage shapes in `Query`.
- `SearcherFramework.search` is a stub in the source and is not modelled.
- Searcher.Aggregate: the keyword defaults `active=True`, `resolve=False` and `limit`/`skip` = `Search.DEFAULT_LIMIT`/`Search.DEFAULT_SKIP` are not modelled; every caller passes all four explicitly.
- SearchBuilder.Build: the category lookup is always present. The source's default `obj_manager=None` makes a category parameter with non-empty `categories` raise `AttributeError`, which is not modelled.
- `TypeModel.COLLECTION` is taken to be `framework.types`. The type model that defines it is not part of this model.
- The store's `aggregate` call, the category label lookup and the result renderer are function parameters. Whether `CmdbObject(**doc)` accepts a mapping's keys is the parameter `constructs`, since the base class that takes the remaining keyword arguments is not part of this model; a data document that is not a mapping is always refused. The outer `try/except` around the regex extraction in `aggregate` cannot fire in the model, since extraction is total.
- The route's own effects after the pure fragments are not modelled:
  - the object and type fetches;
  - `datetime.utcnow()` for `last_edit_time`;
  - the object comparison that produces the change count;
  - the insert, the log entry and the responses.
  The bump classifier takes the change count and field count as inputs.
- Partial updates on exceptions are not modelled. When a route processes several objects, or an exception is caught mid-way, the updates already written stay written.
- `CmdbFieldType` is a constructor parameter, with failure as `None`.
- `CmdbObjectLog.date` and `datetime.today` are opaque values; `today` is a parameter.
- `setting_time` is an opaque value. `isoformat` is a parameter that fails (`AttributeError`) on anything that is not a datetime. `to_data`'s JSON dump is left out.
- `load_class`'s `importlib.import_module` and `getattr` are left out; only the name split is modelled.
- Python's `1 == True` and `0 == False` are modelled only where the source compares against `0` (`get_type_id`). Elsewhere document values compare structurally.
- `Strings.ParseInt` accepts an optional sign and one or more ASCII digits. It does not model `int()`'s tolerance of surrounding whitespace, underscores or non-ASCII digits.
- ObjectQueries.CoerceTerm: `str.isdigit()` (cmdb/interface/rest_api/framework_routes/object_routes.py:245) also accepts non-ASCII digits such as superscripts, for which `int()` then raises an uncaught `ValueError`; the model's digit test is ASCII only, so that server error is not modelled.
- CmdbType.TitleSpec: `str.title` is modelled on ASCII letters only. Other characters count as non-letters, so Unicode case mapping is not modelled.
- `render_meta` is modelled as a record with `external`, `summary` and `sections` lists. A missing key (`KeyError`), section positions that are not integers, and sorting errors are left out.
- Field documents that are not dicts are out of scope. Fields are member lists, and `field['name']` on one without a name is a `KeyError`.
- ObjectClean.UnstructuredIff: field names are strings compared under Python's string order. A field without a name (`field.get('name')` gives None), names that are not strings, and `sorted()` raising `TypeError` on names of mixed types are not modelled.
- `last_edit_time` and other `CmdbObject` attributes the accessors do not read are carried as opaque values or omitted.

## Findings

| source | as written | input that shows it | evidently intended | confidence | as-written member | corrected member |
|---|---|---|---|---|---|---|
| cmdb/user_management/models/settings.py:172 | `from_data` reads the payload from the key `settings`, while `to_dict` writes it under `setting` (line 205) | a setting with payload `true`, written by `to_dict` and read back by `from_data`, comes back with payload None | `from_data` reads `setting`, so writing and reading back a setting keeps its payload | not executed | UserSettings.RoundTripLosesPayload | UserSettings.CorrectedRoundTrip |
| cmdb/interface/rest_api/framework_routes/object_routes.py:311 | `get_objects_by_types` tests the function `_fetch_only_active_objs` itself, which is always truthy, so the `active == False` default on line 310 is always replaced | types `1` and no `onlyActiveObjCookie` argument: the query asks for active objects | call the function, so the argument decides: active objects when it asks for them, and inactive ones otherwise, as the default on line 310 says | not executed | ObjectQueries.ObjectsByTypesCounterexample | ObjectQueries.ObjectsByTypesCorrectedFollowsArgument |
