/**
 * The pure steps of the object update route (`PUT /object/<public_id>`):
 * preparing the stored document from the request body and the current
 * object, merging the submitted field values into the type's field template,
 * and choosing the semantic-version component to bump.
 */
module ObjectUpdate {
  import opened Results
  import opened Json

  // Version bump.

  datatype Bump = Patch | Minor | Major

  /**
   * The bump for `changed` changed fields out of `total`: one change is a
   * patch, changing every field is major, more than half is minor, anything
   * else a patch. The half is Python's true division.
   */
  function ClassifyBump(changed: nat, total: nat): Bump {
    if changed == 1 then Patch
    else if changed == total then Major
    else if changed as real > total as real / 2.0 then Minor
    else Patch
  }

  /** The bump in integer terms, each outcome with its exact condition. */
  lemma ClassifyBumpCases(changed: nat, total: nat)
    ensures ClassifyBump(changed, total) == Major <==> changed != 1 && changed == total
    ensures ClassifyBump(changed, total) == Minor <==> changed != 1 && changed != total && 2 * changed > total
    ensures ClassifyBump(changed, total) == Patch <==> changed == 1 || (changed != total && 2 * changed <= total)
  {
  }

  /** The rule's boundary cases: one of one is a patch, none of none is major, half is not enough for minor. */
  lemma ClassifyBumpExamples()
    ensures ClassifyBump(1, 1) == Patch
    ensures ClassifyBump(0, 0) == Major
    ensures ClassifyBump(2, 4) == Patch
    ensures ClassifyBump(3, 4) == Minor
    ensures ClassifyBump(3, 5) == Minor
  {
  }

  // Field merge.

  predicate IsNameOrValue(m: Member) {
    m.key == "name" || m.key == "value"
  }

  /** `{k: v for k, v in field.items() if k in ['name', 'value']}`. */
  function NameValueOnly(field: seq<Member>): seq<Member> {
    if |field| == 0 then []
    else (if IsNameOrValue(field[0]) then [field[0]] else []) + NameValueOnly(field[1..])
  }

  /** What the merge raises: `KeyError` is caught by the route, `TypeError` ends it with status 400. */
  datatype MergeError = KeyError(key: string) | TypeError

  /**
   * One submitted item against one template field:
   * `if item['name'] == old['name']: old['value'] = item['value']`.
   */
  function ApplyOne(item: Value, tmpl: seq<Member>): Result<seq<Member>, MergeError> {
    if !item.Dict? then Failure(TypeError)
    else
      match Get(item.members, "name")
      case None => Failure(KeyError("name"))
      case Some(itemName) =>
        match Get(tmpl, "name")
        case None => Failure(KeyError("name"))
        case Some(oldName) =>
          if itemName != oldName then Success(tmpl)
          else
            match Get(item.members, "value")
            case None => Failure(KeyError("value"))
            case Some(v) => Success(SetKey(tmpl, "value", v))
  }

  /**
   * One submitted item against every template field in turn. The item's name
   * is read afresh for each field, so nothing is read when the template is
   * empty.
   */
  function ApplyItem(item: Value, olds: seq<seq<Member>>): Result<seq<seq<Member>>, MergeError> {
    if |olds| == 0 then Success([])
    else
      match ApplyOne(item, olds[0])
      case Failure(e) => Failure(e)
      case Success(h) =>
        match ApplyItem(item, olds[1..])
        case Failure(e) => Failure(e)
        case Success(rest) => Success([h] + rest)
  }

  /** The submitted items applied in order: a later item for the same name overrides an earlier one. */
  function MergeFields(items: seq<Value>, olds: seq<seq<Member>>): Result<seq<seq<Member>>, MergeError> {
    if |items| == 0 then Success(olds)
    else
      match ApplyItem(items[0], olds)
      case Failure(e) => Failure(e)
      case Success(next) => MergeFields(items[1..], next)
  }

  // Reference definition of the merge.

  /** The `name` a submitted item carries, if it is a dict that has one. */
  function ItemName(item: Value): Option<Value> {
    if item.Dict? then Get(item.members, "name") else None
  }

  /** The value of the last submitted item named `name`. */
  function LastValue(items: seq<Value>, name: Value): Option<Value> {
    if |items| == 0 then None
    else
      var later := LastValue(items[1..], name);
      if later.Some? then later
      else if ItemName(items[0]) == Some(name) then Get(items[0].members, "value")
      else None
  }

  /** The value the merge should leave in `field`: the last submitted one for its name. */
  function LastValueFor(items: seq<Value>, field: seq<Member>): Option<Value> {
    match Get(field, "name")
    case None => None
    case Some(name) => LastValue(items, name)
  }

  function Overwrite(field: seq<Member>, v: Option<Value>): seq<Member> {
    match v
    case None => field
    case Some(x) => SetKey(field, "value", x)
  }

  /** Both have names, and when the names agree the item has a value. */
  predicate OneDefined(item: Value, tmpl: seq<Member>) {
    && ItemName(item).Some?
    && Get(tmpl, "name").Some?
    && (ItemName(item) == Get(tmpl, "name") ==> Get(item.members, "value").Some?)
  }

  /** The merge is defined: every pair of submitted item and template field is. */
  predicate MergeDefined(items: seq<Value>, olds: seq<seq<Member>>) {
    |items| == 0 || forall i, j :: 0 <= i < |items| && 0 <= j < |olds| ==> OneDefined(items[i], olds[j])
  }

  lemma SetKeyTwice(field: seq<Member>, key: string, a: Value, b: Value)
    ensures SetKey(SetKey(field, key, a), key, b) == SetKey(field, key, b)
    decreases field
  {
    if |field| > 0 && field[0].key != key {
      SetKeyTwice(field[1..], key, a, b);
    }
  }

  /** Overwriting twice is overwriting with the later value, if there is one. */
  lemma OverwriteTwice(field: seq<Member>, first: Option<Value>, second: Option<Value>)
    ensures Overwrite(Overwrite(field, first), second) == Overwrite(field, if second.Some? then second else first)
  {
    if first.Some? && second.Some? {
      SetKeyTwice(field, "value", first.value, second.value);
    }
  }

  /** One step succeeds exactly when it is defined, keeps the field's name, and overwrites only on a name match. */
  lemma ApplyOneSpec(item: Value, tmpl: seq<Member>)
    ensures ApplyOne(item, tmpl).Success? <==> OneDefined(item, tmpl)
    ensures ApplyOne(item, tmpl).Success? ==>
      && Get(ApplyOne(item, tmpl).value, "name") == Get(tmpl, "name")
      && ApplyOne(item, tmpl).value ==
           Overwrite(tmpl, if ItemName(item) == Get(tmpl, "name") then Get(item.members, "value") else None)
  {
    if OneDefined(item, tmpl) && ItemName(item) == Get(tmpl, "name") {
      SetKeyGet(tmpl, "value", Get(item.members, "value").value, "name");
    }
  }

  /** A pass over the template is the single step applied to each field; it fails if any step fails. */
  lemma {:induction false} ApplyItemSpec(item: Value, olds: seq<seq<Member>>)
    ensures ApplyItem(item, olds).Success? <==> forall j :: 0 <= j < |olds| ==> ApplyOne(item, olds[j]).Success?
    ensures ApplyItem(item, olds).Success? ==>
      && |ApplyItem(item, olds).value| == |olds|
      && forall j :: 0 <= j < |olds| ==> ApplyItem(item, olds).value[j] == ApplyOne(item, olds[j]).value
  {
    if |olds| > 0 {
      ApplyItemSpec(item, olds[1..]);
      assert forall j :: 0 < j < |olds| ==> olds[j] == olds[1..][j - 1];
      if ApplyItem(item, olds).Success? {
        var r := ApplyItem(item, olds).value;
        assert r[1..] == ApplyItem(item, olds[1..]).value;
        assert forall j :: 0 < j < |olds| ==> r[j] == r[1..][j - 1];
      }
    }
  }

  /**
   * A successful merge keeps the template's fields in order and gives each
   * the value of the last submitted item with its name, or leaves it as the
   * template had it.
   */
  lemma {:induction false} MergeFieldsSpec(items: seq<Value>, olds: seq<seq<Member>>)
    requires MergeFields(items, olds).Success?
    ensures |MergeFields(items, olds).value| == |olds|
    ensures forall j :: 0 <= j < |olds| ==>
      MergeFields(items, olds).value[j] == Overwrite(olds[j], LastValueFor(items, olds[j]))
  {
    if |items| > 0 {
      var next := ApplyItem(items[0], olds).value;
      ApplyItemSpec(items[0], olds);
      MergeFieldsSpec(items[1..], next);
      var r := MergeFields(items, olds).value;
      forall j | 0 <= j < |olds|
        ensures r[j] == Overwrite(olds[j], LastValueFor(items, olds[j]))
      {
        ApplyOneSpec(items[0], olds[j]);
        var name := Get(olds[j], "name").value;
        var first := if ItemName(items[0]) == Some(name) then Get(items[0].members, "value") else None;
        assert next[j] == Overwrite(olds[j], first);
        assert LastValueFor(items[1..], next[j]) == LastValue(items[1..], name);
        OverwriteTwice(olds[j], first, LastValue(items[1..], name));
      }
    }
  }

  /** The merge succeeds exactly when it is defined. */
  lemma {:induction false} MergeFieldsDefined(items: seq<Value>, olds: seq<seq<Member>>)
    ensures MergeFields(items, olds).Success? <==> MergeDefined(items, olds)
  {
    if |items| > 0 {
      ApplyItemSpec(items[0], olds);
      forall j | 0 <= j < |olds| ensures ApplyOne(items[0], olds[j]).Success? <==> OneDefined(items[0], olds[j]) {
        ApplyOneSpec(items[0], olds[j]);
      }
      if ApplyItem(items[0], olds).Success? {
        var next := ApplyItem(items[0], olds).value;
        MergeFieldsDefined(items[1..], next);
        forall i, j | 0 < i < |items| && 0 <= j < |olds|
          ensures OneDefined(items[1..][i - 1], next[j]) <==> OneDefined(items[i], olds[j])
        {
          ApplyOneSpec(items[0], olds[j]);
          assert items[1..][i - 1] == items[i];
        }
        MergeDefinedStep(items, olds, next);
      }
    }
  }

  lemma MergeDefinedStep(items: seq<Value>, olds: seq<seq<Member>>, next: seq<seq<Member>>)
    requires |items| > 0 && |next| == |olds|
    requires forall j :: 0 <= j < |olds| ==> OneDefined(items[0], olds[j])
    requires forall i, j :: 0 < i < |items| && 0 <= j < |olds| ==>
      (OneDefined(items[1..][i - 1], next[j]) <==> OneDefined(items[i], olds[j]))
    ensures MergeDefined(items[1..], next) <==> MergeDefined(items, olds)
  {
    if MergeDefined(items[1..], next) {
      forall i, j | 0 <= i < |items| && 0 <= j < |olds| ensures OneDefined(items[i], olds[j]) {
        if i > 0 {
          assert OneDefined(items[1..][i - 1], next[j]);
        }
      }
    }
  }

  /** A template field reduced to `name` and `value` reads those two keys as before. */
  lemma {:induction false} NameValueOnlyGet(field: seq<Member>, k: string)
    requires k == "name" || k == "value"
    ensures Get(NameValueOnly(field), k) == Get(field, k)
  {
    if |field| > 0 {
      NameValueOnlyGet(field[1..], k);
      var rest := NameValueOnly(field[1..]);
      if IsNameOrValue(field[0]) {
        assert NameValueOnly(field) == [field[0]] + rest;
        assert ([field[0]] + rest)[1..] == rest;
      } else {
        assert NameValueOnly(field) == rest;
        assert field[0].key != k;
      }
    }
  }

  /** ... and has no other key. */
  lemma {:induction false} NameValueOnlyKeys(field: seq<Member>)
    ensures forall k :: 0 <= k < |NameValueOnly(field)| ==> IsNameOrValue(NameValueOnly(field)[k])
  {
    if |field| > 0 {
      NameValueOnlyKeys(field[1..]);
      var rest := NameValueOnly(field[1..]);
      if IsNameOrValue(field[0]) {
        assert NameValueOnly(field) == [field[0]] + rest;
        assert forall k :: 0 < k < |NameValueOnly(field)| ==> NameValueOnly(field)[k] == rest[k - 1];
      }
    }
  }

  /** Setting `value` on a field with only `name`/`value` keys adds no other key. */
  lemma {:induction false} SetValueKeepsKeys(field: seq<Member>, v: Value)
    requires forall k :: 0 <= k < |field| ==> IsNameOrValue(field[k])
    ensures forall k :: 0 <= k < |SetKey(field, "value", v)| ==> IsNameOrValue(SetKey(field, "value", v)[k])
  {
    if |field| > 0 && field[0].key != "value" {
      SetValueKeepsKeys(field[1..], v);
      assert SetKey(field, "value", v) == [field[0]] + SetKey(field[1..], "value", v);
    }
  }

  // Preparing the stored document.

  /** What the route takes from the object being updated. */
  datatype Current = Current(creationTime: Value, authorId: Value, active: Value, version: Value)

  /** The document to store and the log comment taken out of it. */
  datatype Prepared = Prepared(data: seq<Member>, comment: Value)

  /** `abort(400)` on a `TypeError` while reading the body. */
  datatype UpdateError = BadRequest

  /** `for item in fields`: a list yields its items, a string its characters, a dict its keys. */
  function Iterate(v: Value): Option<seq<Value>> {
    match v
    case List(items) => Some(items)
    case Str(s) => Some(seq(|s|, i requires 0 <= i < |s| => Str([s[i]])))
    case Dict(ms) => Some(seq(|ms|, i requires 0 <= i < |ms| => Str(ms[i].key)))
    case _ => None
  }

  /** `put_data['public_id']`, `['creation_time']` and `['author_id']` set from the route and the current object. */
  function Stamp(put: seq<Member>, objId: int, cur: Current): seq<Member> {
    SetKey(SetKey(SetKey(put, "public_id", Int(objId)), "creation_time", cur.creationTime), "author_id", cur.authorId)
  }

  /** The type's fields, each reduced to `name` and `value`. */
  function Template(typeFields: seq<seq<Member>>): seq<seq<Member>> {
    seq(|typeFields|, j requires 0 <= j < |typeFields| => NameValueOnly(typeFields[j]))
  }

  function FieldList(fields: seq<seq<Member>>): Value {
    List(seq(|fields|, j requires 0 <= j < |fields| => Dict(fields[j])))
  }

  /** `put_data[key]` defaulted from the current object when the body lacks it. */
  function Default(data: seq<Member>, key: string, v: Value): seq<Member> {
    if Get(data, key).None? then SetKey(data, key, v) else data
  }

  /** `fields` stored, then `active` and `version` defaulted. */
  function Defaulted(stamped: seq<Member>, merged: seq<seq<Member>>, cur: Current): seq<Member> {
    Default(Default(SetKey(stamped, "fields", FieldList(merged)), "active", cur.active), "version", cur.version)
  }

  /** The merged fields stored, `active` and `version` defaulted, and the comment taken out. */
  function Finish(stamped: seq<Member>, merged: seq<seq<Member>>, cur: Current): Prepared {
    var defaulted := Defaulted(stamped, merged, cur);
    match Get(defaulted, "comment")
    case None => Prepared(defaulted, Str(""))
    case Some(c) => Prepared(DelKey(defaulted, "comment"), c)
  }

  /**
   * The body handling of the update route for one object: identity stamps,
   * field merge, `active`/`version` defaults and the comment. A `KeyError`
   * (or `IndexError`/`ValueError`) leaves the document as far as it got and
   * the comment empty; a `TypeError` is a bad request.
   */
  function PrepareUpdate(put: Value, objId: int, cur: Current, typeFields: seq<seq<Member>>): Result<Prepared, UpdateError> {
    if !put.Dict? then Failure(BadRequest)
    else
      var stamped := Stamp(put.members, objId, cur);
      match Get(stamped, "fields")
      case None => Success(Prepared(stamped, Str("")))
      case Some(fields) =>
        match Iterate(fields)
        case None => Failure(BadRequest)
        case Some(items) =>
          match MergeFields(items, Template(typeFields))
          case Failure(TypeError) => Failure(BadRequest)
          case Failure(KeyError(_)) => Success(Prepared(stamped, Str("")))
          case Success(merged) => Success(Finish(stamped, merged, cur))
  }

  /** The stamps set their three keys and leave every other key as it was. */
  lemma StampSpec(put: seq<Member>, objId: int, cur: Current, k: string)
    ensures Get(Stamp(put, objId, cur), "public_id") == Some(Int(objId))
    ensures Get(Stamp(put, objId, cur), "creation_time") == Some(cur.creationTime)
    ensures Get(Stamp(put, objId, cur), "author_id") == Some(cur.authorId)
    ensures k !in {"public_id", "creation_time", "author_id"} ==> Get(Stamp(put, objId, cur), k) == Get(put, k)
  {
    var s1 := SetKey(put, "public_id", Int(objId));
    var s2 := SetKey(s1, "creation_time", cur.creationTime);
    SetKeyGet(put, "public_id", Int(objId), k);
    SetKeyGet(put, "public_id", Int(objId), "creation_time");
    SetKeyGet(s1, "creation_time", cur.creationTime, k);
    SetKeyGet(s1, "creation_time", cur.creationTime, "public_id");
    SetKeyGet(s2, "author_id", cur.authorId, k);
    SetKeyGet(s2, "author_id", cur.authorId, "public_id");
    SetKeyGet(s2, "author_id", cur.authorId, "creation_time");
  }

  lemma DefaultGet(data: seq<Member>, key: string, v: Value, k: string)
    ensures Get(Default(data, key, v), key) == Some(Get(data, key).GetOr(v))
    ensures k != key ==> Get(Default(data, key, v), k) == Get(data, k)
  {
    SetKeyGet(data, key, v, k);
  }

  lemma DefaultedGet(stamped: seq<Member>, merged: seq<seq<Member>>, cur: Current, k: string)
    ensures var d := Defaulted(stamped, merged, cur);
      && Get(d, "fields") == Some(FieldList(merged))
      && Get(d, "active") == Some(Get(stamped, "active").GetOr(cur.active))
      && Get(d, "version") == Some(Get(stamped, "version").GetOr(cur.version))
      && (k !in {"fields", "active", "version"} ==> Get(d, k) == Get(stamped, k))
  {
    var w := SetKey(stamped, "fields", FieldList(merged));
    SetKeyGet(stamped, "fields", FieldList(merged), k);
    SetKeyGet(stamped, "fields", FieldList(merged), "active");
    SetKeyGet(stamped, "fields", FieldList(merged), "version");
    var a := Default(w, "active", cur.active);
    DefaultGet(w, "active", cur.active, k);
    DefaultGet(w, "active", cur.active, "fields");
    DefaultGet(w, "active", cur.active, "version");
    DefaultGet(a, "version", cur.version, k);
    DefaultGet(a, "version", cur.version, "fields");
    DefaultGet(a, "version", cur.version, "active");
  }

  /**
   * Finishing stores the merged fields, keeps a present `active`/`version`
   * and fills a missing one from the current object, moves the comment out,
   * and leaves every other key as it was.
   */
  lemma FinishSpec(stamped: seq<Member>, merged: seq<seq<Member>>, cur: Current, k: string)
    ensures var p := Finish(stamped, merged, cur);
      && Get(p.data, "fields") == Some(FieldList(merged))
      && Get(p.data, "active") == Some(Get(stamped, "active").GetOr(cur.active))
      && Get(p.data, "version") == Some(Get(stamped, "version").GetOr(cur.version))
      && Get(p.data, "comment").None?
      && p.comment == Get(stamped, "comment").GetOr(Str(""))
      && (k !in {"fields", "active", "version", "comment"} ==> Get(p.data, k) == Get(stamped, k))
  {
    var v := Defaulted(stamped, merged, cur);
    assert Finish(stamped, merged, cur) ==
      if Get(v, "comment").None? then Prepared(v, Str("")) else Prepared(DelKey(v, "comment"), Get(v, "comment").value);
    DefaultedGet(stamped, merged, cur, k);
    DefaultedGet(stamped, merged, cur, "comment");
    DelKeyGet(v, "comment", k);
    DelKeyGet(v, "comment", "fields");
    DelKeyGet(v, "comment", "active");
    DelKeyGet(v, "comment", "version");
  }

  /** A body that is not a JSON object is a bad request. */
  lemma PrepareUpdateNeedsObject(put: Value, objId: int, cur: Current, typeFields: seq<seq<Member>>)
    requires !put.Dict?
    ensures PrepareUpdate(put, objId, cur, typeFields) == Failure(BadRequest)
  {
  }

  /** Whatever path the body takes, the stored document carries the route's id and the current creation time and author. */
  lemma PrepareUpdateStamps(put: Value, objId: int, cur: Current, typeFields: seq<seq<Member>>)
    requires PrepareUpdate(put, objId, cur, typeFields).Success?
    ensures var d := PrepareUpdate(put, objId, cur, typeFields).value.data;
      && Get(d, "public_id") == Some(Int(objId))
      && Get(d, "creation_time") == Some(cur.creationTime)
      && Get(d, "author_id") == Some(cur.authorId)
  {
    var stamped := Stamp(put.members, objId, cur);
    StampSpec(put.members, objId, cur, "");
    var fields := Get(stamped, "fields");
    if fields.Some? && Iterate(fields.value).Some? && MergeFields(Iterate(fields.value).value, Template(typeFields)).Success? {
      var merged := MergeFields(Iterate(fields.value).value, Template(typeFields)).value;
      FinishSpec(stamped, merged, cur, "public_id");
      FinishSpec(stamped, merged, cur, "creation_time");
      FinishSpec(stamped, merged, cur, "author_id");
    }
  }

  /**
   * When the body has mergeable fields and a comment, the stored fields are
   * the merged template, `active` and `version` come from the body or else
   * from the current object, and the comment moves out of the document.
   */
  lemma PrepareUpdateMerged(put: Value, objId: int, cur: Current, typeFields: seq<seq<Member>>, items: seq<Value>)
    requires put.Dict?
    requires Get(put.members, "fields") == Some(List(items))
    requires MergeDefined(items, Template(typeFields))
    ensures MergeFields(items, Template(typeFields)).Success?
    ensures var r := PrepareUpdate(put, objId, cur, typeFields);
      && r.Success?
      && r.value.comment == Get(put.members, "comment").GetOr(Str(""))
      && Get(r.value.data, "comment").None?
      && Get(r.value.data, "active") == Some(Get(put.members, "active").GetOr(cur.active))
      && Get(r.value.data, "version") == Some(Get(put.members, "version").GetOr(cur.version))
      && Get(r.value.data, "fields") == Some(FieldList(MergeFields(items, Template(typeFields)).value))
  {
    MergeFieldsDefined(items, Template(typeFields));
    var stamped := Stamp(put.members, objId, cur);
    StampSpec(put.members, objId, cur, "fields");
    StampSpec(put.members, objId, cur, "comment");
    StampSpec(put.members, objId, cur, "active");
    StampSpec(put.members, objId, cur, "version");
    FinishSpec(stamped, MergeFields(items, Template(typeFields)).value, cur, "");
  }

  /** Without `fields` the block stops at its first read: nothing is merged or defaulted and the comment is empty. */
  lemma PrepareUpdateNoFields(put: Value, objId: int, cur: Current, typeFields: seq<seq<Member>>)
    requires put.Dict? && Get(put.members, "fields").None?
    ensures var r := PrepareUpdate(put, objId, cur, typeFields);
      && r.Success?
      && r.value.comment == Str("")
      && Get(r.value.data, "active") == Get(put.members, "active")
      && Get(r.value.data, "comment") == Get(put.members, "comment")
  {
    StampSpec(put.members, objId, cur, "fields");
    StampSpec(put.members, objId, cur, "active");
    StampSpec(put.members, objId, cur, "comment");
  }

  /** Every stored field of a merged template has only `name` and `value` keys, and its `name` is the type field's. */
  lemma TemplateShape(typeFields: seq<seq<Member>>, items: seq<Value>)
    requires MergeFields(items, Template(typeFields)).Success?
    ensures var r := MergeFields(items, Template(typeFields)).value;
      && |r| == |typeFields|
      && forall j :: 0 <= j < |r| ==>
           (forall k :: 0 <= k < |r[j]| ==> IsNameOrValue(r[j][k]))
           && Get(r[j], "name") == Get(typeFields[j], "name")
  {
    var olds := Template(typeFields);
    MergeFieldsSpec(items, olds);
    var r := MergeFields(items, olds).value;
    forall j | 0 <= j < |r|
      ensures forall k :: 0 <= k < |r[j]| ==> IsNameOrValue(r[j][k])
      ensures Get(r[j], "name") == Get(typeFields[j], "name")
    {
      NameValueOnlyKeys(typeFields[j]);
      NameValueOnlyGet(typeFields[j], "name");
      var lv := LastValueFor(items, olds[j]);
      if lv.Some? {
        SetValueKeepsKeys(olds[j], lv.value);
        SetKeyGet(olds[j], "value", lv.value, "name");
      }
    }
  }
}
