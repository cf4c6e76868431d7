/**
 * `SearchPipelineBuilder.get_regex_pipes_values`: the patterns stored under
 * `$regex` keys anywhere in a pipeline, collected for highlighting.
 *
 * The Python walk is a generator that calls `.items()` on every element of
 * every list it meets. A list element that is not a dict raises inside the
 * generator; the caller swallows the exception, and the dead generator then
 * stops. So within one stage the walk ends at the first such element, the
 * values found before it are kept, and the next stage is scanned afresh.
 */
module RegexScan {
  import opened Json

  const RegexKey := "$regex"

  /** What one walk produced, and whether it ran to the end (`complete`) or died on a bad list element. */
  datatype Scan = Scan(found: seq<Value>, complete: bool)

  /** The recursion into a member's value: dicts and lists are walked, scalars hold nothing. */
  function ScanValue(v: Value): Scan
    decreases v
  {
    match v
    case Dict(ms) => ScanMembers(ms)
    case List(items) => ScanItems(items)
    case _ => Scan([], true)
  }

  /** `for k, v in var.items(): if k == key: yield v; <recurse into v>`. */
  function ScanMembers(ms: seq<Member>): Scan
    decreases ms
  {
    if |ms| == 0 then Scan([], true)
    else
      var here := if ms[0].key == RegexKey then [ms[0].val] else [];
      var inner := ScanValue(ms[0].val);
      if !inner.complete then Scan(here + inner.found, false)
      else
        var rest := ScanMembers(ms[1..]);
        Scan(here + inner.found + rest.found, rest.complete)
  }

  /** `for d in v: <walk d as a dict>`; an element that is not a dict ends the walk. */
  function ScanItems(items: seq<Value>): Scan
    decreases items
  {
    if |items| == 0 then Scan([], true)
    else
      match items[0]
      case Dict(ms) =>
        var inner := ScanMembers(ms);
        if !inner.complete then inner
        else
          var rest := ScanItems(items[1..]);
          Scan(inner.found + rest.found, rest.complete)
      case _ => Scan([], false)
  }

  /** The values one stage contributes; a stage that is not a dict fails at once and contributes nothing. */
  function StageRegexValues(stage: Value): seq<Value> {
    match stage
    case Dict(ms) => ScanMembers(ms).found
    case _ => []
  }

  /** `get_regex_pipes_values`: stage by stage, in order, duplicates kept. */
  function RegexPipesValues(pipeline: seq<Value>): seq<Value> {
    if |pipeline| == 0 then [] else StageRegexValues(pipeline[0]) + RegexPipesValues(pipeline[1..])
  }

  // Reference definitions: every value under a `$regex` key at any depth,
  // in document order, and the shape under which the walk never dies.

  function CollectValue(v: Value): seq<Value>
    decreases v
  {
    match v
    case Dict(ms) => CollectMembers(ms)
    case List(items) => CollectItems(items)
    case _ => []
  }

  function CollectMembers(ms: seq<Member>): seq<Value>
    decreases ms
  {
    if |ms| == 0 then []
    else (if ms[0].key == RegexKey then [ms[0].val] else []) + CollectValue(ms[0].val) + CollectMembers(ms[1..])
  }

  function CollectItems(items: seq<Value>): seq<Value>
    decreases items
  {
    if |items| == 0 then [] else CollectValue(items[0]) + CollectItems(items[1..])
  }

  /** Every list reachable from `v` holds dicts only. */
  predicate ListsOfDicts(v: Value)
    decreases v
  {
    match v
    case Dict(ms) => MembersListsOfDicts(ms)
    case List(items) => ItemsAreDicts(items)
    case _ => true
  }

  predicate MembersListsOfDicts(ms: seq<Member>)
    decreases ms
  {
    |ms| == 0 || (ListsOfDicts(ms[0].val) && MembersListsOfDicts(ms[1..]))
  }

  predicate ItemsAreDicts(items: seq<Value>)
    decreases items
  {
    |items| == 0 || (items[0].Dict? && MembersListsOfDicts(items[0].members) && ItemsAreDicts(items[1..]))
  }

  lemma PrefixConcat(p: seq<Value>, a: seq<Value>, b: seq<Value>, c: seq<Value>)
    requires a <= b
    ensures p + a <= p + b + c
  {
    assert (p + b + c)[..|p + a|] == p + a;
  }

  /**
   * The walk of a dict finds a prefix of all its `$regex` values; it runs to
   * the end exactly when every reachable list holds only dicts, and then it
   * finds all of them.
   */
  lemma {:induction false} ScanMembersSound(ms: seq<Member>)
    ensures ScanMembers(ms).complete <==> MembersListsOfDicts(ms)
    ensures ScanMembers(ms).found <= CollectMembers(ms)
    ensures ScanMembers(ms).complete ==> ScanMembers(ms).found == CollectMembers(ms)
    decreases ms, 1
  {
    if |ms| > 0 {
      var here := if ms[0].key == RegexKey then [ms[0].val] else [];
      ScanValueSound(ms[0].val);
      ScanMembersSound(ms[1..]);
      var inner := ScanValue(ms[0].val);
      if inner.complete {
        var rest := ScanMembers(ms[1..]);
        PrefixConcat(here + inner.found, rest.found, CollectMembers(ms[1..]), []);
        assert here + inner.found + CollectMembers(ms[1..]) + [] == CollectMembers(ms);
      } else {
        PrefixConcat(here, inner.found, CollectValue(ms[0].val), CollectMembers(ms[1..]));
      }
    }
  }

  lemma {:induction false} ScanValueSound(v: Value)
    ensures ScanValue(v).complete <==> ListsOfDicts(v)
    ensures ScanValue(v).found <= CollectValue(v)
    ensures ScanValue(v).complete ==> ScanValue(v).found == CollectValue(v)
    decreases v, 2
  {
    match v
    case Dict(ms) => ScanMembersSound(ms);
    case List(items) => ScanItemsSound(items);
    case _ =>
  }

  lemma {:induction false} ScanItemsSound(items: seq<Value>)
    ensures ScanItems(items).complete <==> ItemsAreDicts(items)
    ensures ScanItems(items).found <= CollectItems(items)
    ensures ScanItems(items).complete ==> ScanItems(items).found == CollectItems(items)
    decreases items, 1
  {
    if |items| > 0 {
      ScanItemsSound(items[1..]);
      match items[0]
      case Dict(ms) =>
        ScanMembersSound(ms);
        var inner := ScanMembers(ms);
        assert CollectValue(items[0]) == CollectMembers(ms);
        if inner.complete {
          var rest := ScanItems(items[1..]);
          PrefixConcat(inner.found, rest.found, CollectItems(items[1..]), []);
          assert inner.found + CollectItems(items[1..]) + [] == CollectItems(items);
        } else {
          PrefixConcat([], inner.found, CollectMembers(ms), CollectItems(items[1..]));
          assert [] + CollectMembers(ms) + CollectItems(items[1..]) == CollectItems(items);
        }
      case _ =>
    }
  }

  /** Stage by stage: the values of a concatenated pipeline are the concatenated values. */
  lemma {:induction false} RegexPipesValuesAppend(a: seq<Value>, b: seq<Value>)
    ensures RegexPipesValues(a + b) == RegexPipesValues(a) + RegexPipesValues(b)
  {
    if |a| > 0 {
      assert (a + b)[0] == a[0];
      assert (a + b)[1..] == a[1..] + b;
      RegexPipesValuesAppend(a[1..], b);
    } else {
      assert a + b == b;
    }
  }

  // Values that hold no `$regex` key at any depth, whatever their list shapes.

  predicate NoRegexValue(v: Value)
    decreases v
  {
    match v
    case Dict(ms) => NoRegexMembers(ms)
    case List(items) => NoRegexItems(items)
    case _ => true
  }

  predicate NoRegexMembers(ms: seq<Member>)
    decreases ms
  {
    |ms| == 0 || (ms[0].key != RegexKey && NoRegexValue(ms[0].val) && NoRegexMembers(ms[1..]))
  }

  predicate NoRegexItems(items: seq<Value>)
    decreases items
  {
    |items| == 0 || (NoRegexValue(items[0]) && NoRegexItems(items[1..]))
  }

  /** A dict whose keys are not `$regex` and whose values hold none has none. */
  lemma {:induction false} NoRegexDict(ms: seq<Member>)
    requires forall i :: 0 <= i < |ms| ==> ms[i].key != RegexKey && NoRegexValue(ms[i].val)
    ensures NoRegexValue(Dict(ms))
  {
    if |ms| > 0 {
      NoRegexDict(ms[1..]);
    }
  }

  lemma {:induction false} NoRegexList(items: seq<Value>)
    requires forall i :: 0 <= i < |items| ==> NoRegexValue(items[i])
    ensures NoRegexValue(List(items))
  {
    if |items| > 0 {
      NoRegexList(items[1..]);
    }
  }

  /** A value without `$regex` keys yields nothing, whether or not the walk dies inside it. */
  lemma {:induction false} NoRegexScansEmpty(v: Value)
    requires NoRegexValue(v)
    ensures ScanValue(v).found == []
    decreases v, 1
  {
    match v
    case Dict(ms) => NoRegexMembersScanEmpty(ms);
    case List(items) => NoRegexItemsScanEmpty(items);
    case _ =>
  }

  lemma {:induction false} NoRegexMembersScanEmpty(ms: seq<Member>)
    requires NoRegexMembers(ms)
    ensures ScanMembers(ms).found == []
    decreases ms, 0
  {
    if |ms| > 0 {
      NoRegexScansEmpty(ms[0].val);
      NoRegexMembersScanEmpty(ms[1..]);
    }
  }

  lemma {:induction false} NoRegexItemsScanEmpty(items: seq<Value>)
    requires NoRegexItems(items)
    ensures ScanItems(items).found == []
    decreases items, 0
  {
    if |items| > 0 {
      if items[0].Dict? {
        NoRegexMembersScanEmpty(items[0].members);
      }
      NoRegexItemsScanEmpty(items[1..]);
    }
  }

  /** Appending stages without `$regex` keys leaves the extracted values unchanged. */
  lemma {:induction false} NoRegexStagesAddNothing(pipeline: seq<Value>, extra: seq<Value>)
    requires forall i :: 0 <= i < |extra| ==> NoRegexValue(extra[i])
    ensures RegexPipesValues(pipeline + extra) == RegexPipesValues(pipeline)
  {
    RegexPipesValuesAppend(pipeline, extra);
    NoRegexPipesEmpty(extra);
  }

  lemma {:induction false} NoRegexPipesEmpty(stages: seq<Value>)
    requires forall i :: 0 <= i < |stages| ==> NoRegexValue(stages[i])
    ensures RegexPipesValues(stages) == []
  {
    if |stages| > 0 {
      NoRegexPipesEmpty(stages[1..]);
      NoRegexScansEmpty(stages[0]);
    }
  }

  /** Every value reported for a dict stage was stored under a `$regex` key in that stage. */
  lemma StageValuesOccur(stage: Value, x: Value)
    requires stage.Dict?
    requires x in StageRegexValues(stage)
    ensures x in CollectMembers(stage.members)
  {
    ScanMembersSound(stage.members);
  }

  /** A stage whose lists hold only dicts reports all its `$regex` values. */
  lemma WellShapedStageComplete(stage: Value)
    requires stage.Dict? && MembersListsOfDicts(stage.members)
    ensures StageRegexValues(stage) == CollectMembers(stage.members)
  {
    ScanMembersSound(stage.members);
  }

  /**
   * Within one stage the walk stops at the first list element that is not a
   * dict: here `{'$regex': 'p', 'b': [1], 'c': {'$regex': 'q'}}` yields only 'p', and
   * the next stage still yields 'r'.
   */
  lemma StopsWithinStageOnly()
    ensures RegexPipesValues([
      Dict([Member(RegexKey, Str("p")), Member("b", List([Int(1)])), Member("c", Dict([Member(RegexKey, Str("q"))]))]),
      Dict([Member(RegexKey, Str("r"))])]) == [Str("p"), Str("r")]
  {
    var ms := [Member(RegexKey, Str("p")), Member("b", List([Int(1)])), Member("c", Dict([Member(RegexKey, Str("q"))]))];
    assert ScanItems([Int(1)]) == Scan([], false);
    assert ScanValue(List([Int(1)])) == Scan([], false);
    assert ScanMembers(ms[1..]) == Scan([], false);
    assert ScanValue(Str("p")) == Scan([], true);
    assert ScanMembers(ms) == Scan([Str("p")], false);
    var ms2 := [Member(RegexKey, Str("r"))];
    assert ScanMembers(ms2[1..]) == Scan([], true);
    assert ScanMembers(ms2) == Scan([Str("r")], true);
    var p := [Dict(ms), Dict(ms2)];
    assert RegexPipesValues(p[1..][1..]) == [];
    assert RegexPipesValues(p[1..]) == [Str("r")];
  }
}
