/**
 * Object and type fields: `{'name': ..., 'value': ...}` documents, and the
 * by-name search the object and type accessors share.
 */
module Fields {
  import opened Results
  import opened Json

  type Field = seq<Member>

  /** `field.get('name')`. */
  function Name(f: Field): Option<Value> {
    Get(f, "name")
  }

  /** Field `i` carries a name, and not the one asked for. */
  predicate OtherName(fields: seq<Field>, i: int, name: Value)
    requires 0 <= i < |fields|
  {
    Name(fields[i]).Some? && Name(fields[i]).value != name
  }

  /** Where `for f in fields: if f['name'] == name: ...` stops. */
  datatype Found = At(index: nat) | Absent | Unnamed(index: nat)

  /**
   * The index of the first field named `name`, `Absent` when the loop runs
   * out, or the field without a name where `f['name']` raises `KeyError`.
   */
  function Find(fields: seq<Field>, name: Value): (r: Found)
    ensures !r.Absent? ==> r.index < |fields|
  {
    FindFrom(fields, name, 0)
  }

  function FindFrom(fields: seq<Field>, name: Value, start: nat): (r: Found)
    ensures !r.Absent? ==> start <= r.index < |fields|
    decreases |fields| - start
  {
    if start >= |fields| then Absent
    else if Name(fields[start]).None? then Unnamed(start)
    else if Name(fields[start]).value == name then At(start)
    else FindFrom(fields, name, start + 1)
  }

  lemma {:induction false} FindFromSpec(fields: seq<Field>, name: Value, start: nat)
    requires start <= |fields|
    requires forall k :: 0 <= k < start ==> OtherName(fields, k, name)
    ensures FindFrom(fields, name, start) == Absent <==> forall k :: 0 <= k < |fields| ==> OtherName(fields, k, name)
    ensures FindFrom(fields, name, start).At? ==>
      var i := FindFrom(fields, name, start).index;
      i < |fields| && Name(fields[i]) == Some(name) && forall k :: 0 <= k < i ==> OtherName(fields, k, name)
    ensures FindFrom(fields, name, start).Unnamed? ==>
      var i := FindFrom(fields, name, start).index;
      i < |fields| && Name(fields[i]).None? && forall k :: 0 <= k < i ==> OtherName(fields, k, name)
    decreases |fields| - start
  {
    if start < |fields| {
      if OtherName(fields, start, name) {
        FindFromSpec(fields, name, start + 1);
      } else {
        assert !OtherName(fields, start, name);
      }
    }
  }

  /**
   * The search stops at the first field that is named `name` or has no name,
   * having passed only fields with other names; it runs out exactly when
   * every field has another name.
   */
  lemma FindSpec(fields: seq<Field>, name: Value)
    ensures Find(fields, name) == Absent <==> forall k :: 0 <= k < |fields| ==> OtherName(fields, k, name)
    ensures Find(fields, name).At? ==>
      var i := Find(fields, name).index;
      i < |fields| && Name(fields[i]) == Some(name) && forall k :: 0 <= k < i ==> OtherName(fields, k, name)
    ensures Find(fields, name).Unnamed? ==>
      var i := Find(fields, name).index;
      i < |fields| && Name(fields[i]).None? && forall k :: 0 <= k < i ==> OtherName(fields, k, name)
  {
    FindFromSpec(fields, name, 0);
  }

  /** Conversely, the first field named `name` after other names only is where the search stops. */
  lemma FindFirst(fields: seq<Field>, name: Value, i: nat)
    requires i < |fields| && Name(fields[i]) == Some(name)
    requires forall k :: 0 <= k < i ==> OtherName(fields, k, name)
    ensures Find(fields, name) == At(i)
  {
    FindFromStops(fields, name, 0, i);
  }

  /** And a field without a name met before any match is where it fails. */
  lemma FindUnnamed(fields: seq<Field>, name: Value, i: nat)
    requires i < |fields| && Name(fields[i]).None?
    requires forall k :: 0 <= k < i ==> OtherName(fields, k, name)
    ensures Find(fields, name) == Unnamed(i)
  {
    FindFromStops(fields, name, 0, i);
  }

  lemma {:induction false} FindFromStops(fields: seq<Field>, name: Value, start: nat, i: nat)
    requires start <= i < |fields| && !OtherName(fields, i, name)
    requires forall k :: start <= k < i ==> OtherName(fields, k, name)
    ensures FindFrom(fields, name, start) == if Name(fields[i]).None? then Unnamed(i) else At(i)
    decreases i - start
  {
    if start < i {
      assert OtherName(fields, start, name);
      FindFromStops(fields, name, start + 1, i);
    }
  }
}
