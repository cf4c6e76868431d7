/**
 * `SearcherFramework.aggregate`: the caller's pipeline is extended with an
 * optional reference-resolution block and one closing facet stage, sent to
 * the store, and the single envelope document the store answers with is
 * unpacked into a search result.
 *
 * The store's aggregate call, the test whether `CmdbObject(**doc)` accepts a
 * document's keys, and the renderer that turns raw documents into render
 * results are parameters.
 */
module Searcher {
  import opened Results
  import opened Json
  import opened Query
  import RegexScan

  /** The collection the resolve block joins against. */
  const ObjectCollection := "framework.objects"

  /**
   * `TypeModel.COLLECTION`, the collection the group branch joins against;
   * the type model that defines it is not part of this model.
   */
  const TypeCollection := "framework.types"

  /** `{'$expr': {'$in': ['$$ref_id', '$fields.value']}}`: the referencing object names this one in a field. */
  const RefersExpr: Value := Single("$expr", Single("$in", List([Str("$$ref_id"), Str("$fields.value")])))

  const RefLet: seq<Member> := [Member("ref_id", Str("$public_id"))]

  const ActiveOnly: Value := Match(Single("active", Eq(Bool(true))))

  /** The sub-pipeline of the references lookup: active referencing objects only, unless `active` is off. */
  function ReferencesPipe(active: bool): seq<Value> {
    (if active then [ActiveOnly] else []) + [Match(RefersExpr)]
  }

  /** Joins to every object the referencing objects, as `refs`. */
  const RefsLookup: Value := LookupSub(ObjectCollection, RefLet, [Match(RefersExpr)], "refs")

  /** Each object (`root`) beside the objects that reference it (`references`). */
  function RootAndReferences(active: bool): Value {
    Facet([
      Member("root", List([ReplaceRoot(Single("$mergeObjects", List([Str("$$ROOT")])))])),
      Member("references", List([
        LookupSub(ObjectCollection, RefLet, ReferencesPipe(active), "refs"),
        Unwind("$refs"),
        ReplaceRoot(Str("$refs"))]))])
  }

  const ConcatComplete: Value := Project([Member("complete", Single("$concatArrays", List([Str("$root"), Str("$references")])))])

  /** The five stages `resolve` adds: each object followed by the objects that reference it. */
  function ResolveStages(active: bool): seq<Value> {
    [RefsLookup, RootAndReferences(active), ConcatComplete, Unwind("$complete"), ReplaceRoot(Str("$complete"))]
  }

  const GroupProjectLabel: Value :=
    Project([Member("_id", Int(0)), Member("type_id", Int(1)), Member("label", Str("$lookup_data.label"))])

  const GroupByType: Value :=
    Group(Str("$$ROOT.type_id"), [
      Member("types", Single("$first", Str("$$ROOT"))),
      Member("total", Single("$sum", Int(1)))])

  /** Each group reshaped into a type search parameter with its count. */
  const GroupAsParam: Value :=
    Project([
      Member("_id", Int(0)),
      Member("searchText", Str("$types.label")),
      Member("searchForm", Str("type")),
      Member("searchLabel", Str("$types.label")),
      Member("settings", Single("types", List([Str("$types.type_id")]))),
      Member("total", Int(1))])

  /** The `group` branch: matches counted per type, most frequent type first. */
  const GroupBranch: seq<Value> := [
    Lookup(TypeCollection, "type_id", "public_id", "lookup_data"),
    Unwind("$lookup_data"),
    GroupProjectLabel,
    GroupByType,
    GroupAsParam,
    Sort("total", -1)]

  /** The closing stage: the total count, one page of documents, and the per-type groups. */
  function FacetStage(skip: int, limit: int): Value {
    Facet([
      Member("metadata", List([Count("total")])),
      Member("data", List([Skip(skip), Limit(limit)])),
      Member("group", List(GroupBranch))])
  }

  /** The pipeline `aggregate` sends to the store. */
  function AssemblePipeline(pipeline: seq<Value>, limit: int, skip: int, resolve: bool, active: bool): seq<Value> {
    pipeline + (if resolve then ResolveStages(active) else []) + [FacetStage(skip, limit)]
  }

  /** What the store's aggregate call returns: the documents and whether the cursor is still open. */
  datatype Cursor = Cursor(docs: seq<Value>, alive: bool)

  /** `SearchResult`; totals and groups are whatever the envelope holds. */
  datatype SearchResult<R> = SearchResult(
    results: seq<R>,
    totalResults: Value,
    groups: Value,
    alive: bool,
    matchesRegex: seq<Value>,
    limit: int,
    skip: int)

  /** The Python exception unpacking raises, with the key or index that caused it. */
  datatype UnpackError =
    | IndexError(what: string)
    | KeyError(key: string)
    | AttributeError(what: string)
    | TypeError(what: string)

  /** `d[key]`: a value that is not a dict is not subscriptable by a string. */
  function Field(doc: Value, key: string): Result<Value, UnpackError> {
    if !doc.Dict? then Failure(TypeError(key))
    else match Get(doc.members, key)
      case None => Failure(KeyError(key))
      case Some(v) => Success(v)
  }

  /** `len(v)`, defined on lists, dicts and strings only. */
  function PyLen(v: Value): Option<nat> {
    match v
    case List(items) => Some(|items|)
    case Dict(members) => Some(|members|)
    case Str(s) => Some(|s|)
    case _ => None
  }

  /**
   * `metadata[0].get('total', 0)`: a dict has no key `0`, a string's first
   * character has no `get`, and other scalars cannot be indexed.
   */
  function TotalOf(metadata: Value): Result<Value, UnpackError> {
    match metadata
    case List(items) =>
      if |items| == 0 then Failure(IndexError("metadata"))
      else if !items[0].Dict? then Failure(AttributeError("get"))
      else Success(Get(items[0].members, "total").GetOr(Int(0)))
    case Dict(_) => Failure(KeyError("0"))
    case Str(s) => if |s| == 0 then Failure(IndexError("metadata")) else Failure(AttributeError("get"))
    case _ => Failure(TypeError("metadata"))
  }

  /**
   * `CmdbObject(**doc)` succeeds on every data document: each is a mapping,
   * and `constructs` accepts its keys as the constructor's keyword arguments.
   */
  predicate Constructible(items: seq<Value>, constructs: Value -> bool) {
    forall i :: 0 <= i < |items| ==> items[i].Dict? && constructs(items[i])
  }

  /**
   * Unpacks the envelope `{metadata, data, group}`, in the order the Python
   * reads it. `len(data) > 0` decides the branch; non-empty data that is not
   * a list yields keys or characters, which `CmdbObject(**doc)` refuses.
   */
  function Unpack<R>(cursor: Cursor, constructs: Value -> bool, render: seq<Value> -> seq<R>, matchesRegex: seq<Value>, limit: int, skip: int)
    : Result<SearchResult<R>, UnpackError>
  {
    if |cursor.docs| == 0 then Failure(IndexError("result list"))
    else
      var env := cursor.docs[0];
      match Field(env, "data")
      case Failure(e) => Failure(e)
      case Success(data) =>
        match PyLen(data)
        case None => Failure(TypeError("len"))
        case Some(n) =>
          if n == 0 then
            Success(SearchResult([], Int(0), List([]), cursor.alive, matchesRegex, limit, skip))
          else if !data.List? then Failure(TypeError("data"))
          else if !Constructible(data.items, constructs) then Failure(TypeError("CmdbObject"))
          else
            var results := render(data.items);
            match Field(env, "metadata")
            case Failure(e) => Failure(e)
            case Success(metadata) =>
              match TotalOf(metadata)
              case Failure(e) => Failure(e)
              case Success(total) =>
                match Field(env, "group")
                case Failure(e) => Failure(e)
                case Success(groups) =>
                  Success(SearchResult(results, total, groups, cursor.alive, matchesRegex, limit, skip))
  }

  /** `aggregate(pipeline, limit=limit, skip=skip, resolve=resolve, active=active)`. */
  function Aggregate<R>(
    pipeline: seq<Value>, limit: int, skip: int, resolve: bool, active: bool,
    store: seq<Value> -> Cursor, constructs: Value -> bool, render: seq<Value> -> seq<R>)
    : Result<SearchResult<R>, UnpackError>
  {
    var full := AssemblePipeline(pipeline, limit, skip, resolve, active);
    Unpack(store(full), constructs, render, RegexScan.RegexPipesValues(full), limit, skip)
  }

  // Properties of the assembled pipeline.

  /**
   * The caller's stages come first and unchanged, the resolve block adds
   * exactly five stages, and the facet stage is always last.
   */
  lemma AssembleShape(pipeline: seq<Value>, limit: int, skip: int, resolve: bool, active: bool)
    ensures var full := AssemblePipeline(pipeline, limit, skip, resolve, active);
      && |full| == |pipeline| + (if resolve then 5 else 0) + 1
      && full[..|pipeline|] == pipeline
      && full[|full| - 1] == FacetStage(skip, limit)
      && (resolve ==> full[|pipeline|..|pipeline| + 5] == ResolveStages(active))
  {
    var full := AssemblePipeline(pipeline, limit, skip, resolve, active);
    assert full[..|pipeline|] == pipeline;
  }

  /** The facet's branches, in order: a total count, skip before limit, and groups sorted by total descending. */
  lemma FacetBranches(skip: int, limit: int)
    ensures var f := FacetStage(skip, limit).members[0].val.members;
      && |f| == 3
      && f[0] == Member("metadata", List([Count("total")]))
      && f[1] == Member("data", List([Skip(skip), Limit(limit)]))
      && f[2].key == "group" && f[2].val.List?
      && f[2].val.items[|f[2].val.items| - 1] == Sort("total", -1)
  {
  }

  /** The references lookup keeps only active objects exactly when `active` is set. */
  lemma ReferencesActiveFilter(active: bool)
    ensures ActiveOnly in ReferencesPipe(active) <==> active
    ensures |ReferencesPipe(active)| == (if active then 2 else 1)
    ensures ReferencesPipe(active)[|ReferencesPipe(active)| - 1] == Match(RefersExpr)
  {
    if !active {
      assert ReferencesPipe(active) == [Match(RefersExpr)];
      assert ActiveOnly != Match(RefersExpr) by {
        assert ActiveOnly.members[0].val.members[0].key == "active";
        assert Match(RefersExpr).members[0].val.members[0].key == "$expr";
      }
    }
  }

  // The stage constructors keep values free of `$regex` keys.

  lemma NoRegexSingle(key: string, v: Value)
    requires key != RegexScan.RegexKey && RegexScan.NoRegexValue(v)
    ensures RegexScan.NoRegexValue(Single(key, v))
  {
    RegexScan.NoRegexDict([Member(key, v)]);
  }

  lemma NoRegexStrings(items: seq<Value>)
    requires forall i :: 0 <= i < |items| ==> items[i].Str?
    ensures RegexScan.NoRegexValue(List(items))
  {
    RegexScan.NoRegexList(items);
  }

  lemma NoRegexLookup(from: string, localField: string, foreignField: string, as_: string)
    ensures RegexScan.NoRegexValue(Lookup(from, localField, foreignField, as_))
  {
    var ms := [Member("from", Str(from)), Member("localField", Str(localField)),
      Member("foreignField", Str(foreignField)), Member("as", Str(as_))];
    RegexScan.NoRegexDict(ms);
    NoRegexSingle("$lookup", Dict(ms));
  }

  lemma NoRegexLookupSub(from: string, let_: seq<Member>, pipeline: seq<Value>, as_: string)
    requires RegexScan.NoRegexValue(Dict(let_)) && RegexScan.NoRegexValue(List(pipeline))
    ensures RegexScan.NoRegexValue(LookupSub(from, let_, pipeline, as_))
  {
    var ms := [Member("from", Str(from)), Member("let", Dict(let_)),
      Member("pipeline", List(pipeline)), Member("as", Str(as_))];
    RegexScan.NoRegexDict(ms);
    NoRegexSingle("$lookup", Dict(ms));
  }

  lemma NoRegexGroup(id: Value, accumulators: seq<Member>)
    requires RegexScan.NoRegexValue(id) && RegexScan.NoRegexValue(Dict(accumulators))
    ensures RegexScan.NoRegexValue(Group(id, accumulators))
  {
    var ms := [Member("_id", id)] + accumulators;
    assert ms[1..] == accumulators;
    NoRegexSingle("$group", Dict(ms));
  }

  lemma RefersExprNoRegex()
    ensures RegexScan.NoRegexValue(Match(RefersExpr))
  {
    NoRegexStrings([Str("$$ref_id"), Str("$fields.value")]);
    NoRegexSingle("$in", List([Str("$$ref_id"), Str("$fields.value")]));
    NoRegexSingle("$expr", Single("$in", List([Str("$$ref_id"), Str("$fields.value")])));
    NoRegexSingle("$match", RefersExpr);
  }

  lemma ReferencesPipeNoRegex(active: bool)
    ensures RegexScan.NoRegexValue(List(ReferencesPipe(active)))
  {
    RefersExprNoRegex();
    NoRegexSingle("$eq", Bool(true));
    NoRegexSingle("active", Eq(Bool(true)));
    NoRegexSingle("$match", Single("active", Eq(Bool(true))));
    RegexScan.NoRegexList(ReferencesPipe(active));
  }

  lemma RefLetNoRegex()
    ensures RegexScan.NoRegexValue(Dict(RefLet))
  {
    RegexScan.NoRegexDict(RefLet);
  }

  lemma ResolveFacetNoRegex(active: bool)
    ensures RegexScan.NoRegexValue(RootAndReferences(active))
  {
    RefLetNoRegex();
    ReferencesPipeNoRegex(active);
    NoRegexLookupSub(ObjectCollection, RefLet, ReferencesPipe(active), "refs");
    NoRegexSingle("$unwind", Str("$refs"));
    NoRegexSingle("newRoot", Str("$refs"));
    NoRegexSingle("$replaceRoot", Single("newRoot", Str("$refs")));
    var refs := [LookupSub(ObjectCollection, RefLet, ReferencesPipe(active), "refs"), Unwind("$refs"), ReplaceRoot(Str("$refs"))];
    RegexScan.NoRegexList(refs);
    var merge := Single("$mergeObjects", List([Str("$$ROOT")]));
    NoRegexStrings([Str("$$ROOT")]);
    NoRegexSingle("$mergeObjects", List([Str("$$ROOT")]));
    NoRegexSingle("newRoot", merge);
    NoRegexSingle("$replaceRoot", Single("newRoot", merge));
    RegexScan.NoRegexList([ReplaceRoot(merge)]);
    var branches := [Member("root", List([ReplaceRoot(merge)])), Member("references", List(refs))];
    RegexScan.NoRegexDict(branches);
    NoRegexSingle("$facet", Dict(branches));
  }

  lemma ConcatCompleteNoRegex()
    ensures RegexScan.NoRegexValue(ConcatComplete)
  {
    var concat := Single("$concatArrays", List([Str("$root"), Str("$references")]));
    NoRegexStrings([Str("$root"), Str("$references")]);
    NoRegexSingle("$concatArrays", List([Str("$root"), Str("$references")]));
    RegexScan.NoRegexDict([Member("complete", concat)]);
    NoRegexSingle("$project", Dict([Member("complete", concat)]));
  }

  lemma RefsLookupNoRegex()
    ensures RegexScan.NoRegexValue(RefsLookup)
  {
    RefLetNoRegex();
    RefersExprNoRegex();
    RegexScan.NoRegexList([Match(RefersExpr)]);
    NoRegexLookupSub(ObjectCollection, RefLet, [Match(RefersExpr)], "refs");
  }

  lemma ResolveStagesNoRegex(active: bool)
    ensures forall i :: 0 <= i < |ResolveStages(active)| ==> RegexScan.NoRegexValue(ResolveStages(active)[i])
  {
    RefsLookupNoRegex();
    ResolveFacetNoRegex(active);
    ConcatCompleteNoRegex();
    NoRegexSingle("$unwind", Str("$complete"));
    NoRegexSingle("newRoot", Str("$complete"));
    NoRegexSingle("$replaceRoot", Single("newRoot", Str("$complete")));
  }

  lemma GroupByTypeNoRegex()
    ensures RegexScan.NoRegexValue(GroupProjectLabel) && RegexScan.NoRegexValue(GroupByType)
  {
    var p1 := [Member("_id", Int(0)), Member("type_id", Int(1)), Member("label", Str("$lookup_data.label"))];
    RegexScan.NoRegexDict(p1);
    NoRegexSingle("$project", Dict(p1));
    NoRegexSingle("$first", Str("$$ROOT"));
    NoRegexSingle("$sum", Int(1));
    var acc := [Member("types", Single("$first", Str("$$ROOT"))), Member("total", Single("$sum", Int(1)))];
    RegexScan.NoRegexDict(acc);
    NoRegexGroup(Str("$$ROOT.type_id"), acc);
  }

  lemma GroupAsParamNoRegex()
    ensures RegexScan.NoRegexValue(GroupAsParam)
  {
    NoRegexStrings([Str("$types.type_id")]);
    NoRegexSingle("types", List([Str("$types.type_id")]));
    var p2 := [
      Member("_id", Int(0)),
      Member("searchText", Str("$types.label")),
      Member("searchForm", Str("type")),
      Member("searchLabel", Str("$types.label")),
      Member("settings", Single("types", List([Str("$types.type_id")]))),
      Member("total", Int(1))];
    RegexScan.NoRegexDict(p2);
    NoRegexSingle("$project", Dict(p2));
  }

  lemma GroupEndsNoRegex()
    ensures RegexScan.NoRegexValue(Lookup(TypeCollection, "type_id", "public_id", "lookup_data"))
    ensures RegexScan.NoRegexValue(Unwind("$lookup_data"))
    ensures RegexScan.NoRegexValue(Sort("total", -1))
  {
    NoRegexLookup(TypeCollection, "type_id", "public_id", "lookup_data");
    NoRegexSingle("$unwind", Str("$lookup_data"));
    NoRegexSingle("total", Int(-1));
    NoRegexSingle("$sort", Single("total", Int(-1)));
  }

  lemma GroupBranchNoRegex()
    ensures RegexScan.NoRegexValue(List(GroupBranch))
  {
    GroupEndsNoRegex();
    GroupByTypeNoRegex();
    GroupAsParamNoRegex();
    RegexScan.NoRegexList(GroupBranch);
  }

  lemma FacetStageNoRegex(skip: int, limit: int)
    ensures RegexScan.NoRegexValue(FacetStage(skip, limit))
  {
    NoRegexSingle("$count", Str("total"));
    RegexScan.NoRegexList([Count("total")]);
    NoRegexSingle("$skip", Int(skip));
    NoRegexSingle("$limit", Int(limit));
    RegexScan.NoRegexList([Skip(skip), Limit(limit)]);
    GroupBranchNoRegex();
    var f := [
      Member("metadata", List([Count("total")])),
      Member("data", List([Skip(skip), Limit(limit)])),
      Member("group", List(GroupBranch))];
    RegexScan.NoRegexDict(f);
    NoRegexSingle("$facet", Dict(f));
  }

  /** None of the stages `aggregate` adds has a `$regex` key. */
  lemma AddedStagesNoRegex(limit: int, skip: int, resolve: bool, active: bool)
    ensures var extra := (if resolve then ResolveStages(active) else []) + [FacetStage(skip, limit)];
      forall i :: 0 <= i < |extra| ==> RegexScan.NoRegexValue(extra[i])
  {
    ResolveStagesNoRegex(active);
    FacetStageNoRegex(skip, limit);
    var extra := (if resolve then ResolveStages(active) else []) + [FacetStage(skip, limit)];
    var pre := if resolve then ResolveStages(active) else [];
    forall i | 0 <= i < |extra| ensures RegexScan.NoRegexValue(extra[i]) {
      if i < |pre| {
        assert extra[i] == pre[i];
      } else {
        assert extra[i] == FacetStage(skip, limit);
      }
    }
  }

  /**
   * The highlighting values are those of the caller's pipeline: nothing
   * `aggregate` appends contributes any.
   */
  lemma AssembledRegexValues(pipeline: seq<Value>, limit: int, skip: int, resolve: bool, active: bool)
    ensures RegexScan.RegexPipesValues(AssemblePipeline(pipeline, limit, skip, resolve, active))
      == RegexScan.RegexPipesValues(pipeline)
  {
    var extra := (if resolve then ResolveStages(active) else []) + [FacetStage(skip, limit)];
    AddedStagesNoRegex(limit, skip, resolve, active);
    assert AssemblePipeline(pipeline, limit, skip, resolve, active) == pipeline + extra;
    RegexScan.NoRegexStagesAddNothing(pipeline, extra);
  }

  // Properties of the unpacked result.

  /** A successful result echoes `limit`, `skip` and the cursor's liveness, and highlights the caller's own patterns. */
  lemma AggregateEchoes<R>(
    pipeline: seq<Value>, limit: int, skip: int, resolve: bool, active: bool,
    store: seq<Value> -> Cursor, constructs: Value -> bool, render: seq<Value> -> seq<R>)
    requires Aggregate(pipeline, limit, skip, resolve, active, store, constructs, render).Success?
    ensures var r := Aggregate(pipeline, limit, skip, resolve, active, store, constructs, render).value;
      && r.limit == limit && r.skip == skip
      && r.alive == store(AssemblePipeline(pipeline, limit, skip, resolve, active)).alive
      && r.matchesRegex == RegexScan.RegexPipesValues(pipeline)
  {
    var full := AssemblePipeline(pipeline, limit, skip, resolve, active);
    UnpackSpec(store(full), constructs, render, RegexScan.RegexPipesValues(full), limit, skip);
    AssembledRegexValues(pipeline, limit, skip, resolve, active);
  }

  /** An empty answer from the store is an index error. */
  lemma AggregateNoDocument<R>(
    pipeline: seq<Value>, limit: int, skip: int, resolve: bool, active: bool,
    store: seq<Value> -> Cursor, constructs: Value -> bool, render: seq<Value> -> seq<R>)
    requires store(AssemblePipeline(pipeline, limit, skip, resolve, active)).docs == []
    ensures Aggregate(pipeline, limit, skip, resolve, active, store, constructs, render) == Failure(IndexError("result list"))
  {
  }

  /**
   * An envelope with no data gives an empty result with total 0 and no
   * groups, whatever its `metadata` and `group` hold.
   */
  lemma AggregateEmptyData<R>(
    pipeline: seq<Value>, limit: int, skip: int, resolve: bool, active: bool,
    store: seq<Value> -> Cursor, constructs: Value -> bool, render: seq<Value> -> seq<R>, env: seq<Member>)
    requires var docs := store(AssemblePipeline(pipeline, limit, skip, resolve, active)).docs;
      |docs| > 0 && docs[0] == Dict(env)
    requires Get(env, "data") == Some(List([]))
    ensures var r := Aggregate(pipeline, limit, skip, resolve, active, store, constructs, render);
      && r.Success?
      && r.value.results == []
      && r.value.totalResults == Int(0)
      && r.value.groups == List([])
  {
  }

  /**
   * With data, the total is the first metadata entry's `total` (0 when that
   * key is missing), the groups are passed through unchanged, and the results
   * are the rendered data documents.
   */
  lemma AggregateWithData<R>(
    pipeline: seq<Value>, limit: int, skip: int, resolve: bool, active: bool,
    store: seq<Value> -> Cursor, constructs: Value -> bool, render: seq<Value> -> seq<R>,
    env: seq<Member>, data: seq<Value>, meta: seq<Member>, metaRest: seq<Value>, groups: Value)
    requires var docs := store(AssemblePipeline(pipeline, limit, skip, resolve, active)).docs;
      |docs| > 0 && docs[0] == Dict(env)
    requires |data| > 0 && Get(env, "data") == Some(List(data)) && Constructible(data, constructs)
    requires Get(env, "metadata") == Some(List([Dict(meta)] + metaRest))
    requires Get(env, "group") == Some(groups)
    ensures var r := Aggregate(pipeline, limit, skip, resolve, active, store, constructs, render);
      && r.Success?
      && r.value.results == render(data)
      && r.value.totalResults == (if Get(meta, "total").Some? then Get(meta, "total").value else Int(0))
      && r.value.groups == groups
  {
  }

  /** With data but an empty `metadata` list, reading the total is an index error. */
  lemma AggregateEmptyMetadata<R>(
    pipeline: seq<Value>, limit: int, skip: int, resolve: bool, active: bool,
    store: seq<Value> -> Cursor, constructs: Value -> bool, render: seq<Value> -> seq<R>, env: seq<Member>, data: seq<Value>)
    requires var docs := store(AssemblePipeline(pipeline, limit, skip, resolve, active)).docs;
      |docs| > 0 && docs[0] == Dict(env)
    requires |data| > 0 && Get(env, "data") == Some(List(data)) && Constructible(data, constructs)
    requires Get(env, "metadata") == Some(List([]))
    ensures Aggregate(pipeline, limit, skip, resolve, active, store, constructs, render) == Failure(IndexError("metadata"))
  {
  }

  /**
   * A data document the object constructor refuses, a non-mapping such as `1`
   * included, raises `TypeError` before `metadata` or `group` is read.
   */
  lemma AggregateUnconstructible<R>(
    pipeline: seq<Value>, limit: int, skip: int, resolve: bool, active: bool,
    store: seq<Value> -> Cursor, constructs: Value -> bool, render: seq<Value> -> seq<R>,
    env: seq<Member>, data: seq<Value>, i: nat)
    requires var docs := store(AssemblePipeline(pipeline, limit, skip, resolve, active)).docs;
      |docs| > 0 && docs[0] == Dict(env)
    requires Get(env, "data") == Some(List(data))
    requires i < |data| && !(data[i].Dict? && constructs(data[i]))
    ensures Aggregate(pipeline, limit, skip, resolve, active, store, constructs, render) == Failure(TypeError("CmdbObject"))
  {
  }

  /**
   * When `aggregate` can read its envelope: the store returned a dict whose
   * `data` has a length, and when that length is not zero, `data` is a list
   * of documents `CmdbObject(**doc)` accepts, `metadata` a list starting with
   * a dict, and `group` is present.
   */
  predicate EnvelopeReadable(docs: seq<Value>, constructs: Value -> bool) {
    && |docs| > 0 && docs[0].Dict?
    && var env := docs[0].members;
       && Get(env, "data").Some?
       && var data := Get(env, "data").value;
          || PyLen(data) == Some(0)
          || (&& data.List? && |data.items| > 0 && Constructible(data.items, constructs)
              && Get(env, "metadata").Some? && Get(env, "metadata").value.List?
              && |Get(env, "metadata").value.items| > 0 && Get(env, "metadata").value.items[0].Dict?
              && Get(env, "group").Some?)
  }

  /**
   * Unpacking succeeds exactly on a readable envelope, and then gives the
   * empty result for empty data, or else the rendered data, the first
   * metadata entry's `total` (0 when missing) and the groups as stored.
   */
  lemma UnpackSpec<R>(cursor: Cursor, constructs: Value -> bool, render: seq<Value> -> seq<R>, matchesRegex: seq<Value>, limit: int, skip: int)
    ensures Unpack(cursor, constructs, render, matchesRegex, limit, skip).Success? <==> EnvelopeReadable(cursor.docs, constructs)
    ensures Unpack(cursor, constructs, render, matchesRegex, limit, skip).Success? ==>
      var r := Unpack(cursor, constructs, render, matchesRegex, limit, skip).value;
      var env := cursor.docs[0].members;
      var data := Get(env, "data").value;
      && r.alive == cursor.alive && r.matchesRegex == matchesRegex && r.limit == limit && r.skip == skip
      && if PyLen(data) == Some(0) then
           r.results == [] && r.totalResults == Int(0) && r.groups == List([])
         else
           && r.results == render(data.items)
           && r.totalResults == Get(Get(env, "metadata").value.items[0].members, "total").GetOr(Int(0))
           && r.groups == Get(env, "group").value
  {
  }
}
