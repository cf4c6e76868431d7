/**
 * The store filters the object routes build from request text: comma lists of
 * ids (`_build_query`, the bulk delete, the by-types listing), the data-table
 * filter with its search-term coercion, and the active-only query argument.
 */
module ObjectQueries {
  import opened Results
  import opened Json
  import opened Query
  import Strings

  /** `abort(400)`, or an uncaught `ValueError` from `int()` (a server error). */
  datatype QueryError = BadRequest | ValueError

  /** Some piece of the list is not an integer. */
  predicate HasNonInteger(pieces: seq<string>) {
    exists j :: 0 <= j < |pieces| && Strings.ParseInt(pieces[j]).None?
  }

  /** `[int(v) for v in pieces]`, stopping at the first piece that is not an integer. */
  function ParseInts(pieces: seq<string>): Option<seq<int>> {
    if |pieces| == 0 then Some([])
    else
      match Strings.ParseInt(pieces[0])
      case None => None
      case Some(n) =>
        match ParseInts(pieces[1..])
        case None => None
        case Some(rest) => Some([n] + rest)
  }

  function IntValues(ns: seq<int>): seq<Value> {
    seq(|ns|, i requires 0 <= i < |ns| => Int(ns[i]))
  }

  /** Parsing succeeds exactly when every piece is an integer, and then reads each in place. */
  lemma {:induction false} ParseIntsSpec(pieces: seq<string>)
    ensures ParseInts(pieces).Some? <==> forall i :: 0 <= i < |pieces| ==> Strings.ParseInt(pieces[i]).Some?
    ensures ParseInts(pieces).Some? ==>
      |ParseInts(pieces).value| == |pieces|
      && forall i :: 0 <= i < |pieces| ==> ParseInts(pieces).value[i] == Strings.ParseInt(pieces[i]).value
  {
    if |pieces| > 0 {
      ParseIntsSpec(pieces[1..]);
      assert forall i :: 0 < i < |pieces| ==> pieces[i] == pieces[1..][i - 1];
      if ParseInts(pieces).Some? {
        var r := ParseInts(pieces).value;
        assert forall i :: 0 < i < |pieces| ==> r[i] == r[1..][i - 1];
      }
    }
  }

  // `_build_query`.

  /** One query argument: its name and (first) value. */
  datatype Arg = Arg(key: string, value: string)

  /** `{key: int(v)}` for every comma-separated piece of one argument. */
  function ArgConditions(a: Arg): Option<seq<Value>> {
    match ParseInts(Strings.Split(a.value, ','))
    case None => None
    case Some(ns) => Some(seq(|ns|, i requires 0 <= i < |ns| => Single(a.key, Int(ns[i]))))
  }

  function AllConditions(args: seq<Arg>): Option<seq<Value>> {
    if |args| == 0 then Some([])
    else
      match ArgConditions(args[0])
      case None => None
      case Some(here) =>
        match AllConditions(args[1..])
        case None => None
        case Some(rest) => Some(here + rest)
  }

  /** `_build_query(args, q_operator)`: `{q_operator: [{key: int(v)}, ...]}`, argument by argument, piece by piece. */
  function BuildQuery(args: seq<Arg>, op: string): Result<Value, QueryError> {
    match AllConditions(args)
    case None => Failure(BadRequest)
    case Some(conds) => Success(Single(op, List(conds)))
  }

  /** `','.join(str(n) for n in ns)`. */
  function JoinInts(ns: seq<int>): string
    requires |ns| > 0
  {
    Strings.Join(seq(|ns|, i requires 0 <= i < |ns| => Strings.IntToString(ns[i])), ',')
  }

  /** Splitting a joined list of integers and parsing the pieces gives the integers back. */
  lemma JoinIntsRoundTrip(ns: seq<int>)
    requires |ns| > 0
    ensures ParseInts(Strings.Split(JoinInts(ns), ',')) == Some(ns)
  {
    var pieces := seq(|ns|, i requires 0 <= i < |ns| => Strings.IntToString(ns[i]));
    forall k | 0 <= k < |pieces| ensures ',' !in pieces[k] {
      Strings.IntToStringChars(ns[k], ',');
    }
    Strings.SplitJoin(pieces, ',');
    ParseIntsSpec(pieces);
    forall i | 0 <= i < |pieces| ensures Strings.ParseInt(pieces[i]) == Some(ns[i]) {
      Strings.ParseIntToString(ns[i]);
    }
    assert JoinInts(ns) == Strings.Join(pieces, ',');
    assert Strings.Split(JoinInts(ns), ',') == pieces;
    assert ParseInts(pieces).Some?;
    var r := ParseInts(pieces).value;
    assert |r| == |ns| && forall i :: 0 <= i < |ns| ==> r[i] == ns[i];
    assert r == ns;
  }

  /** A single argument holding a joined list of integers becomes one equality per integer, in order. */
  lemma BuildQueryOneArg(key: string, ns: seq<int>, op: string)
    requires |ns| > 0
    ensures BuildQuery([Arg(key, JoinInts(ns))], op) ==
      Success(Single(op, List(seq(|ns|, i requires 0 <= i < |ns| => Single(key, Int(ns[i]))))))
  {
    JoinIntsRoundTrip(ns);
    var here := ArgConditions(Arg(key, JoinInts(ns))).value;
    assert AllConditions([Arg(key, JoinInts(ns))][1..]) == Some([]);
    assert here + [] == here;
  }

  /** Any piece that is not an integer fails the whole query. */
  lemma BuildQueryRejects(args: seq<Arg>, op: string, i: nat, j: nat)
    requires i < |args| && j < |Strings.Split(args[i].value, ',')|
    requires Strings.ParseInt(Strings.Split(args[i].value, ',')[j]).None?
    ensures BuildQuery(args, op) == Failure(BadRequest)
  {
    ParseIntsSpec(Strings.Split(args[i].value, ','));
    AllConditionsFails(args);
  }

  /** The argument loop fails exactly when some argument's pieces are not all integers. */
  lemma {:induction false} AllConditionsFails(args: seq<Arg>)
    ensures AllConditions(args).None? <==> exists i :: 0 <= i < |args| && ArgConditions(args[i]).None?
  {
    if |args| > 0 {
      AllConditionsFails(args[1..]);
      assert forall i :: 0 < i < |args| ==> args[i] == args[1..][i - 1];
      if AllConditions(args).None? && ArgConditions(args[0]).Some? {
        var i :| 0 <= i < |args[1..]| && ArgConditions(args[1..][i]).None?;
        assert args[i + 1] == args[1..][i];
      }
    }
  }

  // The bulk delete and the by-types listing.

  /** `delete_many_objects`: `{'public_id': {'$in': [int(v) for v in ids.split(',')]}}`, 400 on a bad piece. */
  function DeleteFilter(publicIds: string): Result<Value, QueryError> {
    match ParseInts(Strings.Split(publicIds, ','))
    case None => Failure(BadRequest)
    case Some(ids) => Success(In("public_id", IntValues(ids)))
  }

  /** The bulk delete selects exactly the listed ids. */
  lemma DeleteFilterRoundTrip(ns: seq<int>)
    requires |ns| > 0
    ensures DeleteFilter(JoinInts(ns)) == Success(In("public_id", IntValues(ns)))
  {
    JoinIntsRoundTrip(ns);
  }

  /** Any id that is not an integer makes the bulk delete a bad request; otherwise it selects the ids read in place. */
  lemma DeleteFilterSpec(publicIds: string)
    ensures DeleteFilter(publicIds) == Failure(BadRequest) <==> HasNonInteger(Strings.Split(publicIds, ','))
    ensures var pieces := Strings.Split(publicIds, ',');
      DeleteFilter(publicIds).Success? ==>
        DeleteFilter(publicIds).value == In("public_id", IntValues(ParseInts(pieces).value))
        && |ParseInts(pieces).value| == |pieces|
        && forall j :: 0 <= j < |pieces| ==> ParseInts(pieces).value[j] == Strings.ParseInt(pieces[j]).value
  {
    ParseIntsSpec(Strings.Split(publicIds, ','));
  }

  const ActiveTrue: Value := Single("active", Eq(Bool(true)))
  const ActiveFalse: Value := Single("active", Eq(Bool(false)))

  /**
   * `get_objects_by_types` as written: the type ids and an active condition.
   * The route tests the function `_fetch_only_active_objs` itself rather than
   * its result; a function is always truthy, so the condition always asks
   * for active objects and the query argument is never read. A bad id raises
   * an uncaught `ValueError`.
   */
  function ObjectsByTypesQuery(typeIds: string, onlyActive: Option<string>): Result<Value, QueryError> {
    match ParseInts(Strings.Split(typeIds, ','))
    case None => Failure(ValueError)
    case Some(ids) => Success(Single("$and", List([In("type_id", IntValues(ids)), ActiveTrue])))
  }

  /**
   * Listing by types always restricts to active objects: the query does not
   * depend on the active-only argument, and it fails exactly on a bad id.
   */
  lemma ObjectsByTypesAlwaysActive(typeIds: string, onlyActive: Option<string>, other: Option<string>)
    ensures ObjectsByTypesQuery(typeIds, onlyActive) == ObjectsByTypesQuery(typeIds, other)
    ensures ObjectsByTypesQuery(typeIds, onlyActive).Failure? <==> HasNonInteger(Strings.Split(typeIds, ','))
    ensures ObjectsByTypesQuery(typeIds, onlyActive).Success? ==>
      var q := ObjectsByTypesQuery(typeIds, onlyActive).value;
      q.members[0].val.items[1] == ActiveTrue
      && q.members[0].val.items[0] == In("type_id", IntValues(ParseInts(Strings.Split(typeIds, ',')).value))
  {
    var pieces := Strings.Split(typeIds, ',');
    ParseIntsSpec(pieces);
    if HasNonInteger(pieces) {
      var j :| 0 <= j < |pieces| && Strings.ParseInt(pieces[j]).None?;
      assert !Strings.ParseInt(pieces[j]).Some?;
    } else {
      assert forall i :: 0 <= i < |pieces| ==> Strings.ParseInt(pieces[i]).Some?;
    }
  }

  /** A written id list selects those types, active objects only. */
  lemma ObjectsByTypesRoundTrip(ns: seq<int>, onlyActive: Option<string>)
    requires |ns| > 0
    ensures ObjectsByTypesQuery(JoinInts(ns), onlyActive) ==
      Success(Single("$and", List([In("type_id", IntValues(ns)), ActiveTrue])))
  {
    JoinIntsRoundTrip(ns);
  }

  /**
   * `get_objects_by_types` calling `_fetch_only_active_objs()`: active objects
   * when the argument asks for them, inactive ones otherwise, as the route's
   * default condition says.
   */
  function ObjectsByTypesQueryCorrected(typeIds: string, onlyActive: Option<string>): Result<Value, QueryError> {
    match ParseInts(Strings.Split(typeIds, ','))
    case None => Failure(ValueError)
    case Some(ids) =>
      var isActive := if FetchOnlyActive(onlyActive) then ActiveTrue else ActiveFalse;
      Success(Single("$and", List([In("type_id", IntValues(ids)), isActive])))
  }

  /**
   * The corrected listing follows the active-only argument; it agrees with
   * the route as written exactly when that argument is `True` or `true`.
   */
  lemma ObjectsByTypesCorrectedFollowsArgument(typeIds: string, onlyActive: Option<string>)
    requires ObjectsByTypesQueryCorrected(typeIds, onlyActive).Success?
    ensures ObjectsByTypesQueryCorrected(typeIds, onlyActive).value.members[0].val.items[1] ==
      (if FetchOnlyActive(onlyActive) then ActiveTrue else ActiveFalse)
    ensures ObjectsByTypesQueryCorrected(typeIds, onlyActive) == ObjectsByTypesQuery(typeIds, onlyActive)
      <==> FetchOnlyActive(onlyActive)
  {
    if !FetchOnlyActive(onlyActive) {
      assert ActiveTrue != ActiveFalse by {
        assert ActiveTrue.members[0].val != ActiveFalse.members[0].val;
      }
      var a := ObjectsByTypesQueryCorrected(typeIds, onlyActive).value;
      var b := ObjectsByTypesQuery(typeIds, onlyActive).value;
      assert a.members[0].val.items[1] != b.members[0].val.items[1];
    }
  }

  /** Without the argument the route as written still lists active objects, where the corrected one lists inactive ones. */
  lemma ObjectsByTypesCounterexample()
    ensures ObjectsByTypesQuery("1", None) == Success(Single("$and", List([In("type_id", [Int(1)]), ActiveTrue])))
    ensures ObjectsByTypesQueryCorrected("1", None) == Success(Single("$and", List([In("type_id", [Int(1)]), ActiveFalse])))
  {
    JoinIntsRoundTrip([1]);
    assert JoinInts([1]) == "1";
    assert IntValues([1]) == [Int(1)];
  }

  // The active-only argument.

  /** `_fetch_only_active_objs`: the `onlyActiveObjCookie` query argument is `'True'` or `'true'`. */
  predicate FetchOnlyActive(arg: Option<string>) {
    arg.Some? && (arg.value == "True" || arg.value == "true")
  }

  // The data-table filter.

  /** The search term after coercion. */
  datatype Term = TermBool(b: bool) | TermInt(n: nat) | TermStr(s: string)

  /** `'true'`/`'True'` and `'false'`/`'False'` become booleans, a digit string a number, anything else stays text. */
  function CoerceTerm(search: string): Term {
    if search == "true" || search == "True" then TermBool(true)
    else if search == "false" || search == "False" then TermBool(false)
    else if Strings.IsDigits(search) then TermInt(Strings.DigitsValue(search))
    else TermStr(search)
  }

  /** `str(search_for)` for a term that is not a boolean. */
  function TermText(t: Term): string
    requires !t.TermBool?
  {
    match t
    case TermInt(n) => Strings.NatToString(n)
    case TermStr(s) => s
  }

  /** A boolean term is matched as is; any other as a case-insensitive pattern on its text. */
  function SearchTerm(t: Term): Value {
    if t.TermBool? then Bool(t.b)
    else Dict([Member("$regex", Str(TermText(t))), Member("$options", Str("i"))])
  }

  /** A field-value condition, then for a number the id and author conditions. */
  function OrConditions(t: Term, orderColumn: string): seq<Value> {
    [Single("fields", Single("$elemMatch", Single("value", SearchTerm(t))))]
    + if !t.TermInt? then []
      else if orderColumn == "public_id" || orderColumn == "author_id" then
        var digits := Strings.NatToString(t.n);
        [Single("$where", Str("this.public_id.toString().includes(" + digits + ")")),
         Single("$where", Str("this.author_id.toString().includes(" + digits + ")"))]
      else [Single("public_id", Int(t.n)), Single("author_id", Int(t.n))]
  }

  /**
   * The data-table filter: the id list (when given), the type, the active
   * restriction (when asked for), and the search alternatives, under `$and`.
   */
  function DtFilter(idList: seq<string>, typeId: int, onlyActive: Option<string>, search: string, orderColumn: string)
    : Result<Value, QueryError>
  {
    var t := CoerceTerm(search);
    match ParseInts(idList)
    case None => Failure(ValueError)
    case Some(ids) =>
      var conjuncts :=
        (if |idList| > 0 then [In("public_id", IntValues(ids))] else [])
        + [Single("type_id", Int(typeId))]
        + (if FetchOnlyActive(onlyActive) then [ActiveTrue] else [])
        + [Single("$or", List(OrConditions(t, orderColumn)))];
      Success(Single("$and", List(conjuncts)))
  }

  /** Coercion classifies every term: the boolean words, digit strings, and everything else kept verbatim. */
  lemma CoerceTermCases(search: string)
    ensures CoerceTerm(search).TermBool? <==> search in {"true", "True", "false", "False"}
    ensures CoerceTerm(search).TermBool? ==> (CoerceTerm(search).b <==> search in {"true", "True"})
    ensures CoerceTerm(search).TermInt? <==> Strings.IsDigits(search)
    ensures CoerceTerm(search).TermStr? ==> CoerceTerm(search).s == search
  {
    if search in {"true", "True", "false", "False"} {
      assert !Strings.IsDigit(search[0]);
    }
  }

  /**
   * A text term reaches the pattern unchanged except a digit string with
   * leading zeros, which loses them: `'007'` searches for `'7'`.
   */
  lemma SearchTextKept(search: string)
    requires !CoerceTerm(search).TermBool?
    ensures TermText(CoerceTerm(search)) == search <==> !(Strings.IsDigits(search) && |search| > 1 && search[0] == '0')
  {
    if Strings.IsDigits(search) {
      Strings.DigitsRoundTrip(search);
    }
  }

  lemma LeadingZerosDropped()
    ensures CoerceTerm("007") == TermInt(7)
    ensures SearchTerm(CoerceTerm("007")) == Dict([Member("$regex", Str("7")), Member("$options", Str("i"))])
  {
    assert Strings.IsDigits("007");
    assert Strings.DigitsValue("007") == 7 by {
      assert "007"[..2] == "00" && "00"[..1] == "0";
    }
    assert Strings.NatToString(7) == "7";
  }

  /** The alternatives always start with the field-value match, and only a number adds two more. */
  lemma OrConditionsShape(t: Term, orderColumn: string)
    ensures |OrConditions(t, orderColumn)| == if t.TermInt? then 3 else 1
    ensures OrConditions(t, orderColumn)[0] == Single("fields", Single("$elemMatch", Single("value", SearchTerm(t))))
  {
  }

  /**
   * The filter is one `$and` whose conjuncts come in a fixed order: the ids'
   * `public_id` `$in` when a list is given, the type, the active match exactly
   * when asked for, and the search alternatives.
   */
  lemma DtFilterShape(idList: seq<string>, typeId: int, onlyActive: Option<string>, search: string, orderColumn: string)
    requires DtFilter(idList, typeId, onlyActive, search, orderColumn).Success?
    ensures var f := DtFilter(idList, typeId, onlyActive, search, orderColumn).value;
      var cs := f.members[0].val.items;
      var k := if |idList| > 0 then 1 else 0;
      && f == Single("$and", List(cs))
      && |cs| == k + 2 + (if FetchOnlyActive(onlyActive) then 1 else 0)
      && (|idList| > 0 ==> cs[0].members[0].key == "public_id")
      && (|idList| > 0 ==> cs[0] == In("public_id", IntValues(ParseInts(idList).value)))
      && cs[k] == Single("type_id", Int(typeId))
      && (FetchOnlyActive(onlyActive) ==> cs[k + 1] == ActiveTrue)
      && cs[|cs| - 1] == Single("$or", List(OrConditions(CoerceTerm(search), orderColumn)))
  {
  }

  /** A bad id in the list fails the filter. */
  lemma DtFilterBadId(idList: seq<string>, typeId: int, onlyActive: Option<string>, search: string, orderColumn: string, i: nat)
    requires i < |idList| && Strings.ParseInt(idList[i]).None?
    ensures DtFilter(idList, typeId, onlyActive, search, orderColumn) == Failure(ValueError)
  {
    ParseIntsSpec(idList);
  }
}
