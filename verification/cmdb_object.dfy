/**
 * The stored object record, its accessors, and the object log entry whose
 * action is restricted to a closed set.
 */
module CmdbObject {
  import opened Results
  import opened Json
  import opened Fields

  /** A stored object; `fields` are `{'name': ..., 'value': ...}` documents and `logs` raw log documents. */
  datatype Object = Object(
    publicId: int,
    typeId: Value,
    status: Value,
    version: string,
    creationTime: Value,
    authorId: Value,
    lastEditTime: Value,
    active: Value,
    views: int,
    fields: seq<Field>,
    logs: seq<Value>)

  const DefaultVersion: string := "1.0.0"

  /** The constructor: an absent `views` is 0 and an absent `version` is `'1.0.0'`. */
  function NewObject(publicId: int, typeId: Value, status: Value, creationTime: Value, authorId: Value,
                     lastEditTime: Value, active: Value, fields: seq<Field>, logs: seq<Value>,
                     views: Option<int>, version: Option<string>): Object
  {
    Object(publicId, typeId, status, version.GetOr(DefaultVersion), creationTime, authorId,
           lastEditTime, active, views.GetOr(0), fields, logs)
  }

  lemma NewObjectDefaults(publicId: int, typeId: Value, status: Value, creationTime: Value, authorId: Value,
                          lastEditTime: Value, active: Value, fields: seq<Field>, logs: seq<Value>)
    ensures var o := NewObject(publicId, typeId, status, creationTime, authorId, lastEditTime, active, fields, logs, None, None);
      o.views == 0 && o.version == "1.0.0" && o.fields == fields && o.logs == logs && o.typeId == typeId
  {
  }

  /**
   * Every constructor argument reads back from the record; a given `views` or
   * `version` is kept and only an absent one takes its default.
   */
  lemma NewObjectReadsBack(publicId: int, typeId: Value, status: Value, creationTime: Value, authorId: Value,
                           lastEditTime: Value, active: Value, fields: seq<Field>, logs: seq<Value>,
                           views: Option<int>, version: Option<string>)
    ensures var o := NewObject(publicId, typeId, status, creationTime, authorId, lastEditTime, active, fields, logs, views, version);
      && o.publicId == publicId && o.typeId == typeId && o.status == status && o.creationTime == creationTime
      && o.authorId == authorId && o.lastEditTime == lastEditTime && o.active == active
      && o.fields == fields && o.logs == logs
      && (views.Some? ==> o.views == views.value) && (views.None? ==> o.views == 0)
      && (version.Some? ==> o.version == version.value) && (version.None? ==> o.version == DefaultVersion)
  {
  }

  // The type id.

  /** `TypeNotSetError`, carrying the object's public id for its message. */
  datatype TypeIdError = TypeNotSet(publicId: int)

  /** `type_id == 0` in Python also holds for `False`. */
  predicate TypeIdUnset(v: Value) {
    v == Int(0) || v == Bool(false) || v == Null
  }

  function GetTypeId(o: Object): (r: Result<Value, TypeIdError>)
    ensures r.Failure? <==> o.typeId in {Int(0), Bool(false), Null}
    ensures r.Failure? ==> r.error.publicId == o.publicId
    ensures r.Success? ==> r.value == o.typeId
  {
    if TypeIdUnset(o.typeId) then Failure(TypeNotSet(o.publicId)) else Success(o.typeId)
  }

  /**
   * A new object's type id reads back unless it is one Python compares equal
   * to 0 (or `None`), in which case the object's own id is reported.
   */
  lemma GetTypeIdOfNew(publicId: int, typeId: Value, status: Value, creationTime: Value, authorId: Value,
                       lastEditTime: Value, active: Value, fields: seq<Field>, logs: seq<Value>,
                       views: Option<int>, version: Option<string>)
    ensures var o := NewObject(publicId, typeId, status, creationTime, authorId, lastEditTime, active, fields, logs, views, version);
      && (GetTypeId(o).Success? <==> typeId != Int(0) && typeId != Bool(false) && typeId != Null)
      && (GetTypeId(o).Success? ==> GetTypeId(o).value == typeId)
      && (GetTypeId(o).Failure? ==> GetTypeId(o) == Failure(TypeNotSet(publicId)))
  {
  }

  // Views.

  /** `views += 1`, returning the new count. */
  function UpdateViewCounter(o: Object): (r: (Object, int))
    ensures r.1 == o.views + 1 && r.0.views == r.1
    ensures r.0 == o.(views := r.1)
  {
    var next := o.(views := o.views + 1);
    (next, next.views)
  }

  /** Counting views twice adds two and touches nothing else. */
  lemma UpdateViewCounterTwice(o: Object)
    ensures UpdateViewCounter(UpdateViewCounter(o).0).1 == o.views + 2
    ensures UpdateViewCounter(UpdateViewCounter(o).0).0 == o.(views := o.views + 2)
  {
  }

  /** The first view of an object built without a count is view 1; with a count, the next one. */
  lemma FirstViewOfNew(publicId: int, typeId: Value, status: Value, creationTime: Value, authorId: Value,
                       lastEditTime: Value, active: Value, fields: seq<Field>, logs: seq<Value>,
                       views: Option<int>, version: Option<string>)
    ensures var o := NewObject(publicId, typeId, status, creationTime, authorId, lastEditTime, active, fields, logs, views, version);
      && (views.None? ==> UpdateViewCounter(o).1 == 1)
      && (views.Some? ==> UpdateViewCounter(o).1 == views.value + 1)
      && UpdateViewCounter(o).0.fields == fields && UpdateViewCounter(o).0.typeId == typeId
  {
  }

  // Field values.

  /** `f['name']` or `f['value']` on a field document without that key. */
  datatype AccessError = KeyError(key: string)

  /** The value of the first field with the given name; `None` when no field has it. */
  function GetValue(fields: seq<Field>, name: Value): Result<Option<Value>, AccessError> {
    match Find(fields, name)
    case Absent => Success(None)
    case Unnamed(_) => Failure(KeyError("name"))
    case At(i) =>
      match Get(fields[i], "value")
      case None => Failure(KeyError("value"))
      case Some(v) => Success(Some(v))
  }

  /** Absent exactly when every field has a name and none is the one asked for. */
  lemma GetValueAbsent(fields: seq<Field>, name: Value)
    ensures GetValue(fields, name) == Success(None) <==> forall i :: 0 <= i < |fields| ==> OtherName(fields, i, name)
  {
    FindSpec(fields, name);
  }

  /** The first field named `name`, after fields all carrying other names, decides the result. */
  lemma GetValueFirst(fields: seq<Field>, name: Value, i: nat)
    requires i < |fields|
    requires forall k :: 0 <= k < i ==> OtherName(fields, k, name)
    requires Name(fields[i]) == Some(name)
    ensures GetValue(fields, name) ==
      match Get(fields[i], "value")
      case None => Failure(KeyError("value"))
      case Some(v) => Success(Some(v))
  {
    FindFirst(fields, name, i);
  }

  /** A field without a name before any match stops the search with `KeyError`. */
  lemma GetValueUnnamed(fields: seq<Field>, name: Value, i: nat)
    requires i < |fields|
    requires forall k :: 0 <= k < i ==> OtherName(fields, k, name)
    requires Name(fields[i]).None?
    ensures GetValue(fields, name) == Failure(KeyError("name"))
  {
    FindUnnamed(fields, name, i);
  }

  // Logs.

  /** `empty_logs` answers whether there are logs, the opposite of what its name says. */
  predicate EmptyLogs(o: Object) {
    |o.logs| > 0
  }

  const PossibleCommands: seq<Value> := [Str("create"), Str("edit"), Str("delete")]

  /** The keyword parameters of the log constructor. */
  const LogParams: seq<string> := ["editor", "_action", "message", "date", "log"]

  /** The keys are exactly the constructor's parameters: none missing, none unexpected. */
  predicate WellKeyed(ms: seq<Member>) {
    && Get(ms, "editor").Some? && Get(ms, "_action").Some? && Get(ms, "message").Some?
    && Get(ms, "date").Some? && Get(ms, "log").Some?
    && KnownKeys(ms)
  }

  predicate KnownKeys(ms: seq<Member>) {
    forall i :: 0 <= i < |ms| ==> ms[i].key in LogParams
  }

  /** A log entry whose action is one of the possible commands. */
  datatype Log = Log(editor: Value, action: Value, message: Value, date: Value, log: Value)

  datatype LogError =
    | TypeError             // not a mapping, or its keys are not exactly the constructor's parameters
    | ActionNotPossible(action: Value)
    | IndexError            // `logs[-1]` on no logs

  /**
   * `CmdbObjectLog(**doc)`: the document must be a mapping with exactly the
   * constructor's parameters; the action setter refuses anything but the
   * possible commands; a falsy date becomes `today`.
   */
  function MakeLog(doc: Value, today: Value): (r: Result<Log, LogError>)
    ensures r.Success? ==> r.value.action in PossibleCommands
  {
    if !doc.Dict? || !WellKeyed(doc.members) then Failure(TypeError)
    else
      var ms := doc.members;
      var action := Get(ms, "_action").value;
      if action !in PossibleCommands then Failure(ActionNotPossible(action))
      else
        var date := Get(ms, "date").value;
        Success(Log(Get(ms, "editor").value, action, Get(ms, "message").value,
                    if Truthy(date) then date else today, Get(ms, "log").value))
  }

  /** `last_log`: the last log entry; an invalid action gives no log instead of an error. */
  function LastLog(o: Object, today: Value): Result<Option<Log>, LogError> {
    if |o.logs| == 0 then Failure(IndexError)
    else
      match MakeLog(o.logs[|o.logs| - 1], today)
      case Success(l) => Success(Some(l))
      case Failure(ActionNotPossible(_)) => Success(None)
      case Failure(e) => Failure(e)
  }

  /** The log document with the given parameter values. */
  function LogDoc(editor: Value, action: Value, message: Value, date: Value, log: Value): seq<Member> {
    var vals := [editor, action, message, date, log];
    seq(|LogParams|, i requires 0 <= i < |LogParams| => Member(LogParams[i], vals[i]))
  }

  lemma LogDocGets(editor: Value, action: Value, message: Value, date: Value, log: Value)
    ensures var ms := LogDoc(editor, action, message, date, log);
      && Get(ms, "editor") == Some(editor) && Get(ms, "_action") == Some(action)
      && Get(ms, "message") == Some(message) && Get(ms, "date") == Some(date) && Get(ms, "log") == Some(log)
  {
    var ms := LogDoc(editor, action, message, date, log);
    LogDocGet(ms, 0);
    LogDocGet(ms, 1);
    LogDocGet(ms, 2);
    LogDocGet(ms, 3);
    LogDocGet(ms, 4);
  }

  /** In a document keyed by the parameters in order, each parameter reads its own member. */
  lemma LogDocGet(ms: seq<Member>, p: nat)
    requires |ms| == |LogParams| && p < |ms|
    requires forall i :: 0 <= i < |ms| ==> ms[i].key == LogParams[i]
    ensures Get(ms, LogParams[p]) == Some(ms[p].val)
  {
    assert |LogParams[0]| == 6 && |LogParams[1]| == 7 && |LogParams[2]| == 7 && |LogParams[3]| == 4;
    assert LogParams[1] != LogParams[2] by { assert LogParams[1][0] != LogParams[2][0]; }
    GetFirst(ms, p, LogParams[p]);
  }

  lemma LogDocWellKeyed(editor: Value, action: Value, message: Value, date: Value, log: Value)
    ensures WellKeyed(LogDoc(editor, action, message, date, log))
  {
    var ms := LogDoc(editor, action, message, date, log);
    LogDocGets(editor, action, message, date, log);
    assert Get(ms, "editor").Some? && Get(ms, "_action").Some? && Get(ms, "message").Some?;
    assert Get(ms, "date").Some? && Get(ms, "log").Some?;
    LogDocKeys(editor, action, message, date, log);
    LogDocKnownKeys(ms);
  }

  lemma LogDocKeys(editor: Value, action: Value, message: Value, date: Value, log: Value)
    ensures |LogDoc(editor, action, message, date, log)| == |LogParams|
    ensures forall i :: 0 <= i < |LogParams| ==> LogDoc(editor, action, message, date, log)[i].key == LogParams[i]
  {
  }

  lemma LogDocKnownKeys(ms: seq<Member>)
    requires |ms| == |LogParams|
    requires forall i :: 0 <= i < |ms| ==> ms[i].key == LogParams[i]
    ensures KnownKeys(ms)
  {
    forall i | 0 <= i < |ms| ensures ms[i].key in LogParams {
      assert ms[i].key == LogParams[i];
    }
  }

  /** A well-keyed log document is accepted exactly for a possible action, and keeps the values given. */
  lemma MakeLogSpec(editor: Value, action: Value, message: Value, date: Value, log: Value, today: Value)
    ensures MakeLog(Dict(LogDoc(editor, action, message, date, log)), today) ==
      if action in PossibleCommands then Success(Log(editor, action, message, if Truthy(date) then date else today, log))
      else Failure(ActionNotPossible(action))
  {
    LogDocGets(editor, action, message, date, log);
    LogDocWellKeyed(editor, action, message, date, log);
  }

  /** A document missing a parameter, or carrying an extra one, is refused before the action is looked at. */
  lemma MakeLogMissingKey(ms: seq<Member>, key: string, today: Value)
    requires key in LogParams && forall i :: 0 <= i < |ms| ==> ms[i].key != key
    ensures MakeLog(Dict(ms), today) == Failure(TypeError)
  {
  }

  /** So is a document with a key the constructor does not take. */
  lemma MakeLogExtraKey(ms: seq<Member>, i: nat, today: Value)
    requires i < |ms| && ms[i].key !in LogParams
    ensures MakeLog(Dict(ms), today) == Failure(TypeError)
  {
  }

  /** `last_log` fails on no logs, gives no log for an impossible action, and otherwise is the last entry's log. */
  lemma LastLogSpec(o: Object, today: Value)
    ensures |o.logs| == 0 <==> LastLog(o, today) == Failure(IndexError)
    ensures LastLog(o, today) == Success(None) <==>
      (|o.logs| > 0 && MakeLog(o.logs[|o.logs| - 1], today).Failure?
       && MakeLog(o.logs[|o.logs| - 1], today).error.ActionNotPossible?)
    ensures LastLog(o, today).Success? && LastLog(o, today).value.Some? ==>
      LastLog(o, today).value.value.action in PossibleCommands
    ensures |o.logs| > 0 && MakeLog(o.logs[|o.logs| - 1], today).Success? ==>
      LastLog(o, today) == Success(Some(MakeLog(o.logs[|o.logs| - 1], today).value))
    ensures |o.logs| > 0 && MakeLog(o.logs[|o.logs| - 1], today).Failure?
            && !MakeLog(o.logs[|o.logs| - 1], today).error.ActionNotPossible? ==>
      LastLog(o, today) == Failure(MakeLog(o.logs[|o.logs| - 1], today).error)
  {
  }

  /** `empty_logs` is true exactly when `last_log` gets past the index. */
  lemma EmptyLogsMeansLastLog(o: Object, today: Value)
    ensures EmptyLogs(o) <==> LastLog(o, today) != Failure(IndexError)
  {
    if |o.logs| > 0 {
      assert MakeLog(o.logs[|o.logs| - 1], today) != Failure(IndexError);
    }
  }
}
