/**
 * `SearchPipelineBuilder.build`: an ordered list of search parameters becomes
 * an ordered list of aggregation stages.
 *
 * The Python builder clears its accumulated pipeline at the start of every
 * call, so here `Build` is a pure function of its inputs. The category lookup
 * (a store query on the category label) is a parameter.
 */
module SearchBuilder {
  import opened Results
  import opened Json
  import opened Query
  import opened Seqs
  import Strings
  import RegexScan

  /** One parameter from the search form; a missing `settings` is the empty map. */
  datatype SearchParam = SearchParam(
    searchForm: string,
    searchText: string,
    disjunction: bool,
    settings: map<string, seq<Value>>)

  /** A category as the lookup returns it: only its member type ids matter here. */
  datatype Category = Category(types: seq<Value>)

  /** `int(search_text)` raised `ValueError` for a `publicID` parameter. */
  datatype BuildError = PublicIdNotInteger(text: string)

  const ActiveMatch: Value := Match(Single("active", Eq(Bool(true))))

  function TextMatch(text: string): Value {
    Match(Regex("fields.value", text, "ims"))
  }

  function TypeIn(types: seq<Value>): Value {
    In("type_id", types)
  }

  function PublicIdMatch(id: int): Value {
    Match(Single("public_id", Int(id)))
  }

  predicate IsTextParam(p: SearchParam) {
    p.searchForm == "text" || p.searchForm == "regex"
  }

  predicate IsTypeParam(p: SearchParam) {
    p.searchForm == "type"
  }

  predicate IsCategoryParam(p: SearchParam) {
    p.searchForm == "category"
  }

  predicate IsPublicIdParam(p: SearchParam) {
    p.searchForm == "publicID"
  }

  predicate IsKnownForm(p: SearchParam) {
    IsTextParam(p) || IsTypeParam(p) || IsCategoryParam(p) || IsPublicIdParam(p)
  }

  /** `settings.get(key, [])`. */
  function Setting(p: SearchParam, key: string): seq<Value> {
    if key in p.settings then p.settings[key] else []
  }

  /** `param.settings and len(param.settings.get('types', [])) > 0`. */
  predicate HasTypes(p: SearchParam) {
    |p.settings| > 0 && |Setting(p, "types")| > 0
  }

  predicate HasCategories(p: SearchParam) {
    |p.settings| > 0 && |Setting(p, "categories")| > 0
  }

  /** The field a `$match` stage tests first, which tells the builder's stage kinds apart. */
  function MatchField(stage: Value): Option<string> {
    match stage
    case Dict(ms) =>
      if |ms| == 1 && ms[0].key == "$match" && ms[0].val.Dict? && |ms[0].val.members| > 0
      then Some(ms[0].val.members[0].key) else None
    case _ => None
  }

  predicate AllMatchOn(stages: seq<Value>, field: string) {
    forall i :: 0 <= i < |stages| ==> MatchField(stages[i]) == Some(field)
  }

  /** One regex match on the field values per text or regex parameter, in parameter order. */
  function TextStages(ps: seq<SearchParam>): seq<Value> {
    var t := Filter(IsTextParam, ps);
    seq(|t|, i requires 0 <= i < |t| => TextMatch(t[i].searchText))
  }

  /**
   * The loop over type parameters: conjunctive ones add their own stage,
   * disjunctive ones are collected for a single `$or`.
   */
  function TypeLoop(tps: seq<SearchParam>): (seq<Value>, seq<Value>) {
    if |tps| == 0 then ([], [])
    else
      var rest := TypeLoop(tps[1..]);
      var p := tps[0];
      if !HasTypes(p) then rest
      else if p.disjunction then (rest.0, [TypeIn(Setting(p, "types"))] + rest.1)
      else ([Match(TypeIn(Setting(p, "types")))] + rest.0, rest.1)
  }

  function TypeStages(ps: seq<SearchParam>): seq<Value> {
    var r := TypeLoop(Filter(IsTypeParam, ps));
    r.0 + (if |r.1| > 0 then [Match(Or(r.1))] else [])
  }

  /** Category parameters with non-empty `categories` add one match per category the label lookup returns. */
  function CategoryLoop(cps: seq<SearchParam>, lookup: string -> seq<Category>): seq<Value> {
    if |cps| == 0 then []
    else
      var here :=
        if HasCategories(cps[0]) then
          var cats := lookup(cps[0].searchText);
          seq(|cats|, i requires 0 <= i < |cats| => Match(TypeIn(cats[i].types)))
        else [];
      here + CategoryLoop(cps[1..], lookup)
  }

  function CategoryStages(ps: seq<SearchParam>, lookup: string -> seq<Category>): seq<Value> {
    CategoryLoop(Filter(IsCategoryParam, ps), lookup)
  }

  /** One `public_id` match per `publicID` parameter; the first non-integer text aborts. */
  function IdLoop(ips: seq<SearchParam>): Result<seq<Value>, BuildError> {
    if |ips| == 0 then Success([])
    else
      match Strings.ParseInt(ips[0].searchText)
      case None => Failure(PublicIdNotInteger(ips[0].searchText))
      case Some(id) =>
        match IdLoop(ips[1..])
        case Failure(e) => Failure(e)
        case Success(rest) => Success([PublicIdMatch(id)] + rest)
  }

  function IdStages(ps: seq<SearchParam>): Result<seq<Value>, BuildError> {
    IdLoop(Filter(IsPublicIdParam, ps))
  }

  function ActiveStages(activeFlag: bool): seq<Value> {
    if activeFlag then [ActiveMatch] else []
  }

  /** `build(params, obj_manager, active_flag)`. */
  function Build(ps: seq<SearchParam>, lookup: string -> seq<Category>, activeFlag: bool): Result<seq<Value>, BuildError> {
    match IdStages(ps)
    case Failure(e) => Failure(e)
    case Success(ids) =>
      Success(ActiveStages(activeFlag) + TextStages(ps) + TypeStages(ps) + CategoryStages(ps, lookup) + ids)
  }

  lemma TextStagesOnField(ps: seq<SearchParam>)
    ensures AllMatchOn(TextStages(ps), "fields.value")
  {
  }

  /**
   * A text or regex parameter alone gives one case-insensitive, multi-line,
   * dot-all regex match of its text on the field values, any other parameter
   * none; and the stages of a parameter list are those of its parts in order.
   */
  lemma TextStagesMatch(ps: seq<SearchParam>, qs: seq<SearchParam>, p: SearchParam)
    ensures AllMatchOn(TextStages(ps), "fields.value")
    ensures TextStages([p]) == if IsTextParam(p) then [Match(Regex("fields.value", p.searchText, "ims"))] else []
    ensures TextStages(ps + qs) == TextStages(ps) + TextStages(qs)
  {
    TextStagesOnField(ps);
    TextStagesSingle(p);
    TextStagesAppend(ps, qs);
  }

  lemma TextStagesSingle(p: SearchParam)
    ensures TextStages([p]) == if IsTextParam(p) then [TextMatch(p.searchText)] else []
  {
    var t := Filter(IsTextParam, [p]);
    assert t == (if IsTextParam(p) then [p] else []) + Filter(IsTextParam, [p][1..]);
    assert [p][1..] == [];
    if IsTextParam(p) {
      assert t == [p];
      assert TextStages([p])[0] == TextMatch(p.searchText);
    } else {
      assert t == [];
    }
  }

  lemma TextStagesAppend(ps: seq<SearchParam>, qs: seq<SearchParam>)
    ensures TextStages(ps + qs) == TextStages(ps) + TextStages(qs)
  {
    FilterAppend(IsTextParam, ps, qs);
    TextMatchesAppend(Filter(IsTextParam, ps), Filter(IsTextParam, qs));
  }

  /** One text match per parameter, as `TextStages` builds them from the text parameters. */
  lemma TextMatchesAppend(a: seq<SearchParam>, b: seq<SearchParam>)
    ensures var whole := seq(|a + b|, i requires 0 <= i < |a + b| => TextMatch((a + b)[i].searchText));
      whole == seq(|a|, i requires 0 <= i < |a| => TextMatch(a[i].searchText))
               + seq(|b|, i requires 0 <= i < |b| => TextMatch(b[i].searchText))
  {
    var whole := seq(|a + b|, i requires 0 <= i < |a + b| => TextMatch((a + b)[i].searchText));
    var l := seq(|a|, i requires 0 <= i < |a| => TextMatch(a[i].searchText));
    var r := seq(|b|, i requires 0 <= i < |b| => TextMatch(b[i].searchText));
    forall i | 0 <= i < |whole|
      ensures whole[i] == (l + r)[i]
    {
      if i < |a| {
        assert (a + b)[i] == a[i];
      } else {
        assert (a + b)[i] == b[i - |a|];
      }
    }
  }

  lemma {:induction false} TypeLoopFacts(tps: seq<SearchParam>)
    ensures AllMatchOn(TypeLoop(tps).0, "type_id")
    ensures |TypeLoop(tps).1| > 0 <==> exists i :: 0 <= i < |tps| && tps[i].disjunction && HasTypes(tps[i])
  {
    if |tps| > 0 {
      TypeLoopFacts(tps[1..]);
      assert forall i :: 0 < i < |tps| ==> tps[i] == tps[1..][i - 1];
    }
  }

  /** A type parameter with types that adds its own stage. */
  predicate IsConjTypes(p: SearchParam) {
    !p.disjunction && HasTypes(p)
  }

  /** A type parameter with types that joins the `$or`. */
  predicate IsDisjTypes(p: SearchParam) {
    p.disjunction && HasTypes(p)
  }

  /** One `type_id` `$in` match per parameter, with that parameter's types. */
  function ConjStages(c: seq<SearchParam>): seq<Value> {
    seq(|c|, i requires 0 <= i < |c| => Match(TypeIn(Setting(c[i], "types"))))
  }

  /** One `type_id` `$in` condition per parameter, with that parameter's types. */
  function DisjConds(c: seq<SearchParam>): seq<Value> {
    seq(|c|, i requires 0 <= i < |c| => TypeIn(Setting(c[i], "types")))
  }

  lemma ConjStagesCons(p: SearchParam, c: seq<SearchParam>)
    ensures ConjStages([p] + c) == [Match(TypeIn(Setting(p, "types")))] + ConjStages(c)
  {
    var l, r := ConjStages([p] + c), [Match(TypeIn(Setting(p, "types")))] + ConjStages(c);
    forall i | 0 <= i < |l| ensures l[i] == r[i] {
      if i > 0 {
        assert ([p] + c)[i] == c[i - 1];
      }
    }
  }

  lemma DisjCondsCons(p: SearchParam, c: seq<SearchParam>)
    ensures DisjConds([p] + c) == [TypeIn(Setting(p, "types"))] + DisjConds(c)
  {
    var l, r := DisjConds([p] + c), [TypeIn(Setting(p, "types"))] + DisjConds(c);
    forall i | 0 <= i < |l| ensures l[i] == r[i] {
      if i > 0 {
        assert ([p] + c)[i] == c[i - 1];
      }
    }
  }

  /**
   * The type loop adds, in parameter order, one match of its own types for
   * each conjunctive parameter with types, and collects one condition of its
   * own types for each disjunctive one; parameters without types add nothing.
   */
  lemma {:induction false} TypeLoopContent(tps: seq<SearchParam>)
    ensures TypeLoop(tps).0 == ConjStages(Filter(IsConjTypes, tps))
    ensures TypeLoop(tps).1 == DisjConds(Filter(IsDisjTypes, tps))
  {
    TypeLoopConj(tps);
    TypeLoopDisj(tps);
  }

  lemma {:induction false} TypeLoopConj(tps: seq<SearchParam>)
    ensures TypeLoop(tps).0 == ConjStages(Filter(IsConjTypes, tps))
  {
    if |tps| > 0 {
      TypeLoopConj(tps[1..]);
      var p, c := tps[0], Filter(IsConjTypes, tps[1..]);
      assert Filter(IsConjTypes, tps) == (if IsConjTypes(p) then [p] else []) + c;
      if IsConjTypes(p) {
        ConjStagesCons(p, c);
      } else {
        assert Filter(IsConjTypes, tps) == c;
      }
    }
  }

  lemma {:induction false} TypeLoopDisj(tps: seq<SearchParam>)
    ensures TypeLoop(tps).1 == DisjConds(Filter(IsDisjTypes, tps))
  {
    if |tps| > 0 {
      TypeLoopDisj(tps[1..]);
      var p, d := tps[0], Filter(IsDisjTypes, tps[1..]);
      assert Filter(IsDisjTypes, tps) == (if IsDisjTypes(p) then [p] else []) + d;
      if IsDisjTypes(p) {
        DisjCondsCons(p, d);
      } else {
        assert Filter(IsDisjTypes, tps) == d;
      }
    }
  }

  /** The type block: the conjunctive matches, then one `$or` of the disjunctive conditions when there are any. */
  lemma TypeStagesContent(ps: seq<SearchParam>)
    ensures var tps := Filter(IsTypeParam, ps);
      var disj := Filter(IsDisjTypes, tps);
      TypeStages(ps) == ConjStages(Filter(IsConjTypes, tps)) + (if |disj| > 0 then [Match(Or(DisjConds(disj)))] else [])
  {
    TypeLoopContent(Filter(IsTypeParam, ps));
  }

  /** The categories the loop looks up: those found by the text of each parameter with non-empty `categories`, in order. */
  function LookedUp(cps: seq<SearchParam>, lookup: string -> seq<Category>): seq<Category> {
    if |cps| == 0 then []
    else (if HasCategories(cps[0]) then lookup(cps[0].searchText) else []) + LookedUp(cps[1..], lookup)
  }

  /** One `type_id` `$in` match per category. */
  function CategoryMatches(cats: seq<Category>): seq<Value> {
    seq(|cats|, i requires 0 <= i < |cats| => Match(TypeIn(cats[i].types)))
  }

  lemma CategoryMatchesAppend(a: seq<Category>, b: seq<Category>)
    ensures CategoryMatches(a + b) == CategoryMatches(a) + CategoryMatches(b)
  {
    var whole, l, r := CategoryMatches(a + b), CategoryMatches(a), CategoryMatches(b);
    forall i | 0 <= i < |whole|
      ensures whole[i] == (l + r)[i]
    {
      if i < |a| {
        assert (a + b)[i] == a[i];
      } else {
        assert (a + b)[i] == b[i - |a|];
      }
    }
  }

  lemma CategoryMatchesOnTypeId(cats: seq<Category>)
    ensures AllMatchOn(CategoryMatches(cats), "type_id")
  {
  }

  /** The category stages are one `type_id` `$in` match per looked-up category, in lookup order. */
  lemma {:induction false} CategoryLoopMatch(cps: seq<SearchParam>, lookup: string -> seq<Category>)
    ensures CategoryLoop(cps, lookup) == CategoryMatches(LookedUp(cps, lookup))
    ensures AllMatchOn(CategoryLoop(cps, lookup), "type_id")
  {
    if |cps| > 0 {
      CategoryLoopMatch(cps[1..], lookup);
      var here := if HasCategories(cps[0]) then lookup(cps[0].searchText) else [];
      var rest := LookedUp(cps[1..], lookup);
      assert LookedUp(cps, lookup) == here + rest;
      assert CategoryLoop(cps, lookup) == CategoryMatches(here) + CategoryLoop(cps[1..], lookup);
      CategoryMatchesAppend(here, rest);
    }
    CategoryMatchesOnTypeId(LookedUp(cps, lookup));
  }

  /**
   * The `publicID` loop fails exactly when some text is not an integer, and
   * otherwise yields one `public_id` match per parameter, in order.
   */
  lemma {:induction false} IdLoopFacts(ips: seq<SearchParam>)
    ensures IdLoop(ips).Failure? <==> exists i :: 0 <= i < |ips| && Strings.ParseInt(ips[i].searchText).None?
    ensures IdLoop(ips).Success? ==> |IdLoop(ips).value| == |ips|
    ensures IdLoop(ips).Success? ==> forall i :: 0 <= i < |ips| ==>
      Strings.ParseInt(ips[i].searchText).Some? &&
      IdLoop(ips).value[i] == PublicIdMatch(Strings.ParseInt(ips[i].searchText).value)
  {
    if |ips| > 0 {
      IdLoopFacts(ips[1..]);
      assert forall i :: 0 < i < |ips| ==> ips[i] == ips[1..][i - 1];
    }
  }

  lemma BuildUnfold(ps: seq<SearchParam>, lookup: string -> seq<Category>, activeFlag: bool)
    requires Build(ps, lookup, activeFlag).Success?
    ensures IdStages(ps).Success?
    ensures Build(ps, lookup, activeFlag).value ==
      ActiveStages(activeFlag) + TextStages(ps) + TypeStages(ps) + CategoryStages(ps, lookup) + IdStages(ps).value
  {
  }

  /** The stages of `r` that match on `field`, counted. */
  function CountMatchOn(r: seq<Value>, field: string): nat {
    |Filter((s: Value) => MatchField(s) == Some(field), r)|
  }

  lemma CountMatchOnAppend(a: seq<Value>, b: seq<Value>, field: string)
    ensures CountMatchOn(a + b, field) == CountMatchOn(a, field) + CountMatchOn(b, field)
  {
    FilterAppend((s: Value) => MatchField(s) == Some(field), a, b);
  }

  predicate NoMatchOn(stages: seq<Value>, field: string) {
    forall i :: 0 <= i < |stages| ==> MatchField(stages[i]) != Some(field)
  }

  lemma {:induction false} CountMatchOnNone(r: seq<Value>, field: string)
    requires NoMatchOn(r, field)
    ensures CountMatchOn(r, field) == 0
  {
    if |r| > 0 {
      CountMatchOnNone(r[1..], field);
      assert MatchField(r[0]) != Some(field);
    }
  }

  lemma AllMatchOnAvoids(stages: seq<Value>, field: string, other: string)
    requires AllMatchOn(stages, field) && field != other
    ensures NoMatchOn(stages, other)
  {
  }

  lemma NoMatchOnAppend(a: seq<Value>, b: seq<Value>, field: string)
    requires NoMatchOn(a, field) && NoMatchOn(b, field)
    ensures NoMatchOn(a + b, field)
  {
    forall i | 0 <= i < |a + b| ensures MatchField((a + b)[i]) != Some(field) {
      if i >= |a| {
        assert (a + b)[i] == b[i - |a|];
      }
    }
  }

  /**
   * Every stage `Build` derives from the parameters tests `fields.value`,
   * `type_id`, `$or` or `public_id` first, and the single `$or` stage comes
   * after all conjunctive type stages.
   */
  lemma BuildParts(ps: seq<SearchParam>, lookup: string -> seq<Category>, activeFlag: bool)
    requires Build(ps, lookup, activeFlag).Success?
    ensures var ts := TypeLoop(Filter(IsTypeParam, ps));
      && TypeStages(ps) == ts.0 + (if |ts.1| > 0 then [Match(Or(ts.1))] else [])
      && AllMatchOn(TextStages(ps), "fields.value")
      && AllMatchOn(ts.0, "type_id")
      && AllMatchOn(CategoryStages(ps, lookup), "type_id")
      && AllMatchOn(IdStages(ps).value, "public_id")
      && (|ts.1| > 0 <==> exists i :: 0 <= i < |ps| && IsTypeParam(ps[i]) && ps[i].disjunction && HasTypes(ps[i]))
    ensures var tps := Filter(IsTypeParam, ps);
      var disj := Filter(IsDisjTypes, tps);
      TypeStages(ps) == ConjStages(Filter(IsConjTypes, tps)) + (if |disj| > 0 then [Match(Or(DisjConds(disj)))] else [])
  {
    var tps := Filter(IsTypeParam, ps);
    TypeStagesContent(ps);
    TextStagesOnField(ps);
    TypeLoopFacts(tps);
    CategoryLoopMatch(Filter(IsCategoryParam, ps), lookup);
    var ips := Filter(IsPublicIdParam, ps);
    IdLoopFacts(ips);
    var ids := IdStages(ps).value;
    forall i | 0 <= i < |ids| ensures MatchField(ids[i]) == Some("public_id") {
      assert ids[i] == PublicIdMatch(Strings.ParseInt(ips[i].searchText).value);
    }
    if |TypeLoop(tps).1| > 0 {
      var j :| 0 <= j < |tps| && tps[j].disjunction && HasTypes(tps[j]);
      assert tps[j] in ps;
    } else {
      assert forall i :: 0 <= i < |ps| && IsTypeParam(ps[i]) ==> ps[i] in tps;
    }
  }

  /** No stage derived from the parameters tests `active`. */
  lemma RestAvoidsActive(ps: seq<SearchParam>, lookup: string -> seq<Category>, activeFlag: bool)
    requires Build(ps, lookup, activeFlag).Success?
    ensures IdStages(ps).Success?
    ensures NoMatchOn(TextStages(ps) + TypeStages(ps) + CategoryStages(ps, lookup) + IdStages(ps).value, "active")
  {
    BuildParts(ps, lookup, activeFlag);
    var ts := TypeLoop(Filter(IsTypeParam, ps));
    var orPart := if |ts.1| > 0 then [Match(Or(ts.1))] else [];
    assert NoMatchOn(orPart, "active");
    AllMatchOnAvoids(TextStages(ps), "fields.value", "active");
    AllMatchOnAvoids(ts.0, "type_id", "active");
    AllMatchOnAvoids(CategoryStages(ps, lookup), "type_id", "active");
    AllMatchOnAvoids(IdStages(ps).value, "public_id", "active");
    NoMatchOnAppend(ts.0, orPart, "active");
    NoMatchOnAppend(TextStages(ps), TypeStages(ps), "active");
    NoMatchOnAppend(TextStages(ps) + TypeStages(ps), CategoryStages(ps, lookup), "active");
    NoMatchOnAppend(TextStages(ps) + TypeStages(ps) + CategoryStages(ps, lookup), IdStages(ps).value, "active");
  }

  lemma ActiveAhead(activeFlag: bool, rest: seq<Value>)
    requires NoMatchOn(rest, "active")
    ensures activeFlag ==> |ActiveStages(activeFlag) + rest| > 0 && (ActiveStages(activeFlag) + rest)[0] == ActiveMatch
    ensures ActiveMatch in ActiveStages(activeFlag) + rest <==> activeFlag
    ensures !activeFlag ==> NoMatchOn(ActiveStages(activeFlag) + rest, "active")
  {
    if !activeFlag {
      assert ActiveStages(activeFlag) + rest == rest;
    }
    assert MatchField(ActiveMatch) == Some("active");
    assert ActiveMatch !in rest;
  }

  /**
   * With the active flag the pipeline opens with the active-only match; without
   * it no stage tests `active` at all.
   */
  lemma BuildActiveFirst(ps: seq<SearchParam>, lookup: string -> seq<Category>, activeFlag: bool)
    requires Build(ps, lookup, activeFlag).Success?
    ensures activeFlag ==> |Build(ps, lookup, activeFlag).value| > 0 && Build(ps, lookup, activeFlag).value[0] == ActiveMatch
    ensures ActiveMatch in Build(ps, lookup, activeFlag).value <==> activeFlag
    ensures !activeFlag ==> NoMatchOn(Build(ps, lookup, activeFlag).value, "active")
  {
    BuildUnfold(ps, lookup, activeFlag);
    RestAvoidsActive(ps, lookup, activeFlag);
    var a, tx, ty, c, ids := ActiveStages(activeFlag), TextStages(ps), TypeStages(ps), CategoryStages(ps, lookup), IdStages(ps).value;
    SeqAssoc(a, tx + ty + c + ids, tx, ty, c, ids);
    ActiveAhead(activeFlag, tx + ty + c + ids);
  }

  lemma SeqAssoc(a: seq<Value>, rest: seq<Value>, tx: seq<Value>, ty: seq<Value>, c: seq<Value>, ids: seq<Value>)
    requires rest == tx + ty + c + ids
    ensures a + rest == a + tx + ty + c + ids
  {
  }

  lemma CountOnlyIn(act: seq<Value>, t: seq<Value>, ty: seq<Value>, c: seq<Value>, ids: seq<Value>, field: string)
    requires NoMatchOn(act, field) && NoMatchOn(t, field) && NoMatchOn(c, field) && NoMatchOn(ids, field)
    ensures CountMatchOn(act + t + ty + c + ids, field) == CountMatchOn(ty, field)
  {
    CountMatchOnNone(act, field);
    CountMatchOnNone(t, field);
    CountMatchOnNone(c, field);
    CountMatchOnNone(ids, field);
    CountMatchOnAppend(act, t, field);
    CountMatchOnAppend(act + t, ty, field);
    CountMatchOnAppend(act + t + ty, c, field);
    CountMatchOnAppend(act + t + ty + c, ids, field);
  }

  /** The type stages hold one `$or` stage exactly when some disjunctive condition was collected. */
  lemma TypeStagesOrCount(ps: seq<SearchParam>)
    ensures CountMatchOn(TypeStages(ps), "$or") == if |TypeLoop(Filter(IsTypeParam, ps)).1| > 0 then 1 else 0
  {
    var ts := TypeLoop(Filter(IsTypeParam, ps));
    TypeLoopFacts(Filter(IsTypeParam, ps));
    var orPart := if |ts.1| > 0 then [Match(Or(ts.1))] else [];
    AllMatchOnAvoids(ts.0, "type_id", "$or");
    CountMatchOnNone(ts.0, "$or");
    assert CountMatchOn(orPart, "$or") == |orPart| by {
      if |ts.1| > 0 {
        assert MatchField(Match(Or(ts.1))) == Some("$or");
        assert orPart[1..] == [];
      }
    }
    CountMatchOnAppend(ts.0, orPart, "$or");
  }

  /**
   * However many disjunctive type parameters there are, the pipeline holds
   * exactly one `$or` stage if any of them has types, and none otherwise.
   */
  lemma BuildSingleOr(ps: seq<SearchParam>, lookup: string -> seq<Category>, activeFlag: bool)
    requires Build(ps, lookup, activeFlag).Success?
    ensures CountMatchOn(Build(ps, lookup, activeFlag).value, "$or") ==
      if exists i :: 0 <= i < |ps| && IsTypeParam(ps[i]) && ps[i].disjunction && HasTypes(ps[i]) then 1 else 0
  {
    BuildUnfold(ps, lookup, activeFlag);
    BuildParts(ps, lookup, activeFlag);
    AllMatchOnAvoids(TextStages(ps), "fields.value", "$or");
    AllMatchOnAvoids(CategoryStages(ps, lookup), "type_id", "$or");
    AllMatchOnAvoids(IdStages(ps).value, "public_id", "$or");
    assert NoMatchOn(ActiveStages(activeFlag), "$or");
    TypeStagesOrCount(ps);
    CountOnlyIn(ActiveStages(activeFlag), TextStages(ps), TypeStages(ps), CategoryStages(ps, lookup), IdStages(ps).value, "$or");
  }

  /** Parameters of any other `search_form` contribute nothing. */
  lemma BuildIgnoresUnknownForms(ps: seq<SearchParam>, lookup: string -> seq<Category>, activeFlag: bool)
    ensures Build(ps, lookup, activeFlag) == Build(Filter(IsKnownForm, ps), lookup, activeFlag)
  {
    FilterSubsumed(IsTextParam, IsKnownForm, ps);
    FilterSubsumed(IsTypeParam, IsKnownForm, ps);
    FilterSubsumed(IsCategoryParam, IsKnownForm, ps);
    FilterSubsumed(IsPublicIdParam, IsKnownForm, ps);
  }

  /** The build fails exactly when some `publicID` parameter's text is not an integer. */
  lemma BuildFailsOnBadPublicId(ps: seq<SearchParam>, lookup: string -> seq<Category>, activeFlag: bool)
    ensures Build(ps, lookup, activeFlag).Failure? <==>
      exists i :: 0 <= i < |ps| && IsPublicIdParam(ps[i]) && Strings.ParseInt(ps[i].searchText).None?
  {
    var ips := Filter(IsPublicIdParam, ps);
    IdLoopFacts(ips);
    if IdLoop(ips).Failure? {
      var j :| 0 <= j < |ips| && Strings.ParseInt(ips[j].searchText).None?;
      assert ips[j] in ps;
    } else {
      assert forall i :: 0 <= i < |ps| && IsPublicIdParam(ps[i]) ==> ps[i] in ips;
    }
  }

  /**
   * The category lookup is keyed on the parameter's search text: the content
   * of its `categories` setting matters only through being non-empty.
   */
  lemma CategoryLookupKeyedOnText(p: SearchParam, q: SearchParam, lookup: string -> seq<Category>)
    requires IsCategoryParam(p) && IsCategoryParam(q) && p.searchText == q.searchText
    requires HasCategories(p) && HasCategories(q)
    ensures CategoryStages([p], lookup) == CategoryStages([q], lookup)
    ensures |CategoryStages([p], lookup)| == |lookup(p.searchText)|
  {
    assert Filter(IsCategoryParam, [p]) == [p];
    assert Filter(IsCategoryParam, [q]) == [q];
    assert [p][1..] == [];
    assert CategoryLoop([p][1..], lookup) == [];
  }

  /**
   * A text search for `server.*` yields one case-insensitive, multi-line,
   * dot-all regex match on the field values, and the highlighting scan of
   * that pipeline reports exactly `server.*`.
   */
  lemma TextSearchScenario(lookup: string -> seq<Category>)
    ensures var ps := [SearchParam("text", "server.*", false, map[])];
      && Build(ps, lookup, false) == Success([TextMatch("server.*")])
      && RegexScan.RegexPipesValues(Build(ps, lookup, false).value) == [Str("server.*")]
  {
    var p := SearchParam("text", "server.*", false, map[]);
    var ps := [p];
    assert Filter(IsTextParam, ps) == [p];
    assert Filter(IsTypeParam, ps) == [];
    assert Filter(IsCategoryParam, ps) == [];
    assert Filter(IsPublicIdParam, ps) == [];
    assert TextStages(ps) == [TextMatch("server.*")];
    assert TypeStages(ps) == [];
    assert CategoryStages(ps, lookup) == [];
    assert IdStages(ps) == Success([]);
    assert Build(ps, lookup, false) == Success([] + [TextMatch("server.*")] + [] + [] + []);
    assert [] + [TextMatch("server.*")] + [] + [] + [] == [TextMatch("server.*")];
    var stage := TextMatch("server.*");
    var inner := [Member("$regex", Str("server.*")), Member("$options", Str("ims"))];
    assert RegexScan.ScanMembers(inner[1..][1..]) == RegexScan.Scan([], true);
    assert RegexScan.ScanMembers(inner[1..]) == RegexScan.Scan([], true);
    assert RegexScan.ScanMembers(inner) == RegexScan.Scan([Str("server.*")], true);
    var field := [Member("fields.value", Dict(inner))];
    assert RegexScan.ScanMembers(field) == RegexScan.Scan([Str("server.*")], true);
    var top := [Member("$match", Dict(field))];
    assert RegexScan.ScanMembers(top) == RegexScan.Scan([Str("server.*")], true);
    assert RegexScan.RegexPipesValues([stage][1..]) == [];
  }
}
