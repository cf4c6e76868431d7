/**
 * Bringing the objects of a type back in line with the type's field list:
 * detecting objects whose field names differ from the type's, and the
 * two-phase clean that removes fields the type no longer has and adds the
 * ones it gained.
 */
module ObjectClean {
  import opened Results
  import opened Json
  import opened Fields
  import StringOrder

  // Detection.

  /** An object is unstructured when its sorted field names differ from the type's sorted field names. */
  predicate Unstructured(objectNames: seq<string>, typeNames: seq<string>) {
    StringOrder.Sort(objectNames) != StringOrder.Sort(typeNames)
  }

  /** Order does not matter, multiplicity does: a repeated name makes an object unstructured. */
  lemma UnstructuredIff(objectNames: seq<string>, typeNames: seq<string>)
    ensures Unstructured(objectNames, typeNames) <==> multiset(objectNames) != multiset(typeNames)
  {
    StringOrder.SortEqualIffSameMultiset(objectNames, typeNames);
  }

  // The clean.

  /** `field["name"]` on every field raises `KeyError` on a field without a name. */
  datatype CleanError = KeyError

  predicate NamedAll(fields: seq<Field>) {
    forall i :: 0 <= i < |fields| ==> Name(fields[i]).Some?
  }

  /** `[field["name"] for field in fields]`. */
  function Names(fields: seq<Field>): (r: Option<seq<Value>>)
    ensures r.Some? <==> NamedAll(fields)
  {
    if |fields| == 0 then Some([])
    else
      match Name(fields[0])
      case None => None
      case Some(n) =>
        match Names(fields[1..])
        case None => None
        case Some(rest) => Some([n] + rest)
  }

  lemma {:induction false} NamesSpec(fields: seq<Field>)
    ensures Names(fields).Some? <==> NamedAll(fields)
    ensures Names(fields).Some? ==>
      |Names(fields).value| == |fields|
      && forall i :: 0 <= i < |fields| ==> Names(fields).value[i] == Name(fields[i]).value
  {
    if |fields| > 0 {
      NamesSpec(fields[1..]);
      assert forall i :: 0 < i < |fields| ==> fields[i] == fields[1..][i - 1];
      if Names(fields).Some? {
        var r := Names(fields).value;
        assert forall i :: 0 < i < |fields| ==> r[i] == r[1..][i - 1];
      }
    }
  }

  /** A field survives the first phase when its name is one of the type's. */
  predicate Kept(f: Field, typeNames: seq<Value>) {
    Name(f).Some? && Name(f).value in typeNames
  }

  /**
   * The first phase: every object field whose name matches no type field is
   * pulled, together with every other field of the same name. A type
   * without fields pulls nothing.
   */
  function Prune(fields: seq<Field>, typeNames: seq<Value>): seq<Field> {
    if |typeNames| == 0 then fields else KeepNamed(fields, typeNames)
  }

  function KeepNamed(fields: seq<Field>, typeNames: seq<Value>): seq<Field> {
    if |fields| == 0 then []
    else (if Kept(fields[0], typeNames) then [fields[0]] else []) + KeepNamed(fields[1..], typeNames)
  }

  lemma {:induction false} KeepNamedSpec(fields: seq<Field>, typeNames: seq<Value>)
    ensures forall f :: f in KeepNamed(fields, typeNames) <==> f in fields && Kept(f, typeNames)
  {
    if |fields| > 0 {
      KeepNamedSpec(fields[1..], typeNames);
      assert fields == [fields[0]] + fields[1..];
    }
  }

  lemma {:induction false} KeepNamedAll(fields: seq<Field>, typeNames: seq<Value>)
    requires forall i :: 0 <= i < |fields| ==> Kept(fields[i], typeNames)
    ensures KeepNamed(fields, typeNames) == fields
  {
    if |fields| > 0 {
      KeepNamedAll(fields[1..], typeNames);
    }
  }

  /** `'$addToSet'`: the document is added unless an equal one is already there. */
  function AddToSet(arr: seq<Field>, doc: Field): seq<Field> {
    if doc in arr then arr else arr + [doc]
  }

  /** `{"name": name, "value": value}`, the value being the type field's when it has one, else `None`. */
  function NewField(t: Field): Field
    requires Name(t).Some?
  {
    [Member("name", Name(t).value), Member("value", Get(t, "value").GetOr(Null))]
  }

  predicate HasName(fields: seq<Field>, n: Value) {
    exists i :: 0 <= i < |fields| && Name(fields[i]) == Some(n)
  }

  /**
   * The second phase: for each type field whose name the object (as read
   * once, before this phase) lacks, its default is added to the set.
   */
  function AddMissing(snapshot: seq<Field>, current: seq<Field>, typeFields: seq<Field>): seq<Field>
    requires NamedAll(typeFields)
    decreases |typeFields|
  {
    if |typeFields| == 0 then current
    else
      var t := typeFields[0];
      var next := if HasName(snapshot, Name(t).value) then current else AddToSet(current, NewField(t));
      AddMissing(snapshot, next, typeFields[1..])
  }

  /** The clean of one object: a missing name anywhere it is read fails it. */
  function Reconcile(objectFields: seq<Field>, typeFields: seq<Field>): Result<seq<Field>, CleanError> {
    match Names(typeFields)
    case None => Failure(KeyError)
    case Some(typeNames) =>
      if |typeFields| > 0 && Names(objectFields).None? then Failure(KeyError)
      else
        var pruned := Prune(objectFields, typeNames);
        Success(AddMissing(pruned, pruned, typeFields))
  }

  lemma NewFieldName(t: Field)
    requires Name(t).Some?
    ensures Name(NewField(t)) == Name(t)
  {
  }

  /** The second phase only appends. */
  lemma {:induction false} AddMissingPrefix(snapshot: seq<Field>, current: seq<Field>, typeFields: seq<Field>)
    requires NamedAll(typeFields)
    ensures |AddMissing(snapshot, current, typeFields)| >= |current|
    ensures AddMissing(snapshot, current, typeFields)[..|current|] == current
    decreases |typeFields|
  {
    if |typeFields| > 0 {
      var t := typeFields[0];
      var next := if HasName(snapshot, Name(t).value) then current else AddToSet(current, NewField(t));
      AddMissingPrefix(snapshot, next, typeFields[1..]);
      assert next[..|current|] == current;
    }
  }

  lemma AddMissingKeeps(snapshot: seq<Field>, current: seq<Field>, typeFields: seq<Field>, x: Field)
    requires NamedAll(typeFields) && x in current
    ensures x in AddMissing(snapshot, current, typeFields)
  {
    AddMissingPrefix(snapshot, current, typeFields);
    var i :| 0 <= i < |current| && current[i] == x;
    assert AddMissing(snapshot, current, typeFields)[..|current|][i] == x;
  }

  /** Every type field the snapshot has no name for gets its default. */
  lemma {:induction false} AddMissingAdds(snapshot: seq<Field>, current: seq<Field>, typeFields: seq<Field>, j: nat)
    requires NamedAll(typeFields) && j < |typeFields|
    requires !HasName(snapshot, Name(typeFields[j]).value)
    ensures NewField(typeFields[j]) in AddMissing(snapshot, current, typeFields)
    decreases |typeFields|
  {
    var t := typeFields[0];
    var next := if HasName(snapshot, Name(t).value) then current else AddToSet(current, NewField(t));
    if j == 0 {
      AddMissingKeeps(snapshot, next, typeFields[1..], NewField(t));
    } else {
      AddMissingAdds(snapshot, next, typeFields[1..], j - 1);
    }
  }

  /** Everything the second phase adds is the default of some type field. */
  lemma {:induction false} AddMissingOnly(snapshot: seq<Field>, current: seq<Field>, typeFields: seq<Field>, x: Field)
    requires NamedAll(typeFields)
    requires x in AddMissing(snapshot, current, typeFields)
    ensures x in current || exists j :: 0 <= j < |typeFields| && x == NewField(typeFields[j])
    decreases |typeFields|
  {
    if |typeFields| > 0 {
      var t := typeFields[0];
      var next := if HasName(snapshot, Name(t).value) then current else AddToSet(current, NewField(t));
      AddMissingOnly(snapshot, next, typeFields[1..], x);
      if x !in next {
        var j :| 0 <= j < |typeFields[1..]| && x == NewField(typeFields[1..][j]);
        assert typeFields[1..][j] == typeFields[j + 1];
      } else if x !in current {
        assert x == NewField(typeFields[0]);
      }
    }
  }

  /** When the snapshot already names every type field, the second phase changes nothing. */
  lemma {:induction false} AddMissingNothing(snapshot: seq<Field>, current: seq<Field>, typeFields: seq<Field>)
    requires NamedAll(typeFields)
    requires forall j :: 0 <= j < |typeFields| ==> HasName(snapshot, Name(typeFields[j]).value)
    ensures AddMissing(snapshot, current, typeFields) == current
  {
    if |typeFields| > 0 {
      assert HasName(snapshot, Name(typeFields[0]).value);
      AddMissingNothing(snapshot, current, typeFields[1..]);
    }
  }

  /** The clean fails exactly when a type field, or (for a type with fields) an object field, has no name. */
  lemma ReconcileFails(objectFields: seq<Field>, typeFields: seq<Field>)
    ensures Reconcile(objectFields, typeFields).Failure? <==>
      !NamedAll(typeFields) || (|typeFields| > 0 && !NamedAll(objectFields))
  {
    NamesSpec(typeFields);
    NamesSpec(objectFields);
  }

  /** Fields named by the type are kept as they were; with a type that has fields, no other name is left. */
  lemma ReconcileKeeps(objectFields: seq<Field>, typeFields: seq<Field>)
    requires Reconcile(objectFields, typeFields).Success?
    ensures var r := Reconcile(objectFields, typeFields).value;
      forall f :: f in objectFields && (|typeFields| == 0 || Kept(f, Names(typeFields).value)) ==> f in r
    ensures var r := Reconcile(objectFields, typeFields).value;
      |typeFields| > 0 ==> forall f :: f in r ==> Kept(f, Names(typeFields).value)
  {
    var typeNames := Names(typeFields).value;
    NamesSpec(typeFields);
    var pruned := Prune(objectFields, typeNames);
    var r := AddMissing(pruned, pruned, typeFields);
    KeepNamedSpec(objectFields, typeNames);
    forall f | f in objectFields && (|typeFields| == 0 || Kept(f, typeNames)) ensures f in r {
      AddMissingKeeps(pruned, pruned, typeFields, f);
    }
    if |typeFields| > 0 {
      forall f | f in r ensures Kept(f, typeNames) {
        AddMissingOnly(pruned, pruned, typeFields, f);
        if f !in pruned {
          var j :| 0 <= j < |typeFields| && f == NewField(typeFields[j]);
          NewFieldName(typeFields[j]);
          assert typeNames[j] == Name(typeFields[j]).value;
        }
      }
    }
  }

  /** After the clean every field of the type is present by name. */
  lemma ReconcileComplete(objectFields: seq<Field>, typeFields: seq<Field>, j: nat)
    requires Reconcile(objectFields, typeFields).Success?
    requires j < |typeFields|
    ensures HasName(Reconcile(objectFields, typeFields).value, Name(typeFields[j]).value)
  {
    var typeNames := Names(typeFields).value;
    NamesSpec(typeFields);
    var pruned := Prune(objectFields, typeNames);
    var r := AddMissing(pruned, pruned, typeFields);
    var n := Name(typeFields[j]).value;
    if HasName(pruned, n) {
      var i :| 0 <= i < |pruned| && Name(pruned[i]) == Some(n);
      AddMissingPrefix(pruned, pruned, typeFields);
      assert r[..|pruned|][i] == pruned[i];
    } else {
      AddMissingAdds(pruned, pruned, typeFields, j);
      NewFieldName(typeFields[j]);
      var i :| 0 <= i < |r| && r[i] == NewField(typeFields[j]);
      assert Name(r[i]) == Some(n);
    }
  }

  /** Cleaning a cleaned object changes nothing. */
  lemma ReconcileIdempotent(objectFields: seq<Field>, typeFields: seq<Field>)
    requires Reconcile(objectFields, typeFields).Success?
    ensures Reconcile(Reconcile(objectFields, typeFields).value, typeFields)
      == Reconcile(objectFields, typeFields)
  {
    var typeNames := Names(typeFields).value;
    NamesSpec(typeFields);
    var r := Reconcile(objectFields, typeFields).value;
    if |typeFields| > 0 {
      ReconcileKeeps(objectFields, typeFields);
      assert forall i :: 0 <= i < |r| ==> Kept(r[i], typeNames);
      NamesSpec(r);
      KeepNamedAll(r, typeNames);
      forall j | 0 <= j < |typeFields| ensures HasName(r, Name(typeFields[j]).value) {
        ReconcileComplete(objectFields, typeFields, j);
      }
      AddMissingNothing(r, r, typeFields);
    }
  }
}
