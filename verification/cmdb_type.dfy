/**
 * The object type record: its constructor defaults, the render-meta
 * accessors with Python list indexing, the sections sorted by position, and
 * the by-name field lookup.
 */
module CmdbType {
  import opened Results
  import opened Json
  import opened Fields

  // `str.title` on ASCII text.

  predicate IsUpper(c: char) { 'A' <= c <= 'Z' }
  predicate IsLower(c: char) { 'a' <= c <= 'z' }
  predicate IsLetter(c: char) { IsUpper(c) || IsLower(c) }

  function Upper(c: char): char {
    if IsLower(c) then (c as int - 32) as char else c
  }

  function Lower(c: char): char {
    if IsUpper(c) then (c as int + 32) as char else c
  }

  /** A letter starts a word when it comes first or after a character that is not a letter. */
  predicate WordStart(s: string, i: int)
    requires 0 <= i < |s|
  {
    i == 0 || !IsLetter(s[i - 1])
  }

  /** `s.title()`: the first letter of every word upper case, every other letter lower case. */
  function Title(s: string): string {
    seq(|s|, i requires 0 <= i < |s| => if WordStart(s, i) then Upper(s[i]) else Lower(s[i]))
  }

  /**
   * The title keeps every character up to case, and the letters where they
   * were; a letter is upper case exactly where a word starts.
   */
  lemma TitleSpec(s: string)
    ensures |Title(s)| == |s|
    ensures forall i :: 0 <= i < |s| ==> Lower(Title(s)[i]) == Lower(s[i])
    ensures forall i :: 0 <= i < |s| ==> (IsLetter(Title(s)[i]) <==> IsLetter(s[i]))
    ensures forall i :: 0 <= i < |s| && IsLetter(s[i]) ==> (IsUpper(Title(s)[i]) <==> WordStart(s, i))
  {
    forall i | 0 <= i < |s| {
      CaseFacts(s[i]);
    }
  }

  lemma CaseFacts(c: char)
    ensures Lower(Upper(c)) == Lower(c) && Lower(Lower(c)) == Lower(c)
    ensures Upper(Upper(c)) == Upper(c)
    ensures IsLetter(Upper(c)) == IsLetter(c) && IsLetter(Lower(c)) == IsLetter(c)
    ensures IsLetter(c) ==> IsUpper(Upper(c)) && !IsUpper(Lower(c))
  {
  }

  /** Titling a title changes nothing. */
  lemma TitleIdempotent(s: string)
    ensures Title(Title(s)) == Title(s)
  {
    var t := Title(s);
    TitleSpec(s);
    forall i | 0 <= i < |s| ensures Title(t)[i] == t[i] {
      CaseFacts(s[i]);
      assert WordStart(t, i) == WordStart(s, i);
    }
  }

  // The record.

  /** A section of the type's render meta, with the position it is sorted by. */
  datatype Section = Section(position: int, doc: Value)

  datatype RenderMeta = RenderMeta(external: seq<Value>, summary: seq<Value>, sections: seq<Section>)

  datatype Type = Type(
    name: string,
    displayLabel: string,
    description: Value,
    version: string,
    status: Value,
    active: Value,
    authorId: Value,
    creationTime: Value,
    renderMeta: RenderMeta,
    fields: seq<Field>,
    logs: Value)

  /**
   * The constructor: a missing or empty label becomes the titled name,
   * missing fields become no fields, a missing version is `'1.0.0'`.
   */
  function NewType(name: string, description: Value, active: Value, authorId: Value, creationTime: Value,
                   renderMeta: RenderMeta, fields: Option<seq<Field>>, version: Option<string>,
                   givenLabel: Option<string>, status: Value, logs: Value): Type
  {
    Type(name, if givenLabel.Some? && givenLabel.value != "" then givenLabel.value else Title(name), description,
         version.GetOr("1.0.0"), status, active, authorId, creationTime, renderMeta, fields.GetOr([]), logs)
  }

  /** A type always has a label unless its name is empty, and a defaulted label is already a title. */
  lemma NewTypeDefaults(name: string, description: Value, active: Value, authorId: Value, creationTime: Value,
                        renderMeta: RenderMeta, status: Value, logs: Value)
    ensures var t := NewType(name, description, active, authorId, creationTime, renderMeta, None, None, None, status, logs);
      && t.displayLabel == Title(name) && |t.displayLabel| == |name| && Title(t.displayLabel) == t.displayLabel
      && t.fields == [] && t.version == "1.0.0"
  {
    TitleSpec(name);
    TitleIdempotent(name);
  }

  lemma NewTypeLabelGiven(name: string, description: Value, active: Value, authorId: Value, creationTime: Value,
                          renderMeta: RenderMeta, givenLabel: string, status: Value, logs: Value)
    requires givenLabel != ""
    ensures NewType(name, description, active, authorId, creationTime, renderMeta, None, None, Some(givenLabel), status, logs).displayLabel == givenLabel
  {
  }

  // Python list indexing.

  /** `xs[i]` with negative `i` counting from the end; `None` where Python raises `IndexError`. */
  function PyIndex<T>(xs: seq<T>, i: int): Option<T> {
    if 0 <= i < |xs| then Some(xs[i])
    else if -|xs| <= i < 0 then Some(xs[|xs| + i])
    else None
  }

  /** Every element is reachable from both ends, and nothing outside `-len..len-1` is. */
  lemma PyIndexSpec<T>(xs: seq<T>, i: int)
    ensures PyIndex(xs, i).Some? <==> -|xs| <= i < |xs|
    ensures 0 <= i < |xs| ==> PyIndex(xs, i - |xs|) == PyIndex(xs, i) == Some(xs[i])
    ensures |xs| > 0 ==> PyIndex(xs, -1) == Some(xs[|xs| - 1])
  {
  }

  function GetExternal(t: Type, id: int): Option<Value> {
    PyIndex(t.renderMeta.external, id)
  }

  function GetSummary(t: Type, id: int): Option<Value> {
    PyIndex(t.renderMeta.summary, id)
  }

  function GetSection(t: Type, id: int): Option<Section> {
    PyIndex(t.renderMeta.sections, id)
  }

  // Sections sorted by position.

  predicate SortedByPosition(s: seq<Section>) {
    forall i, j :: 0 <= i < j < |s| ==> s[i].position <= s[j].position
  }

  /** `[x for x in s if x.position == p]`. */
  function AtPosition(s: seq<Section>, p: int): seq<Section> {
    if |s| == 0 then [] else (if s[0].position == p then [s[0]] else []) + AtPosition(s[1..], p)
  }

  /** Places `x` before the first section not ahead of it in position. */
  function InsertByPosition(x: Section, s: seq<Section>): seq<Section> {
    if |s| == 0 then [x]
    else if x.position <= s[0].position then [x] + s
    else [s[0]] + InsertByPosition(x, s[1..])
  }

  /** `sorted(sections, key=lambda k: k['position'])`. */
  function SortByPosition(s: seq<Section>): seq<Section> {
    if |s| == 0 then [] else InsertByPosition(s[0], SortByPosition(s[1..]))
  }

  function GetSections(t: Type): seq<Section> {
    SortByPosition(t.renderMeta.sections)
  }

  lemma {:induction false} InsertByPositionElems(x: Section, s: seq<Section>)
    ensures multiset(InsertByPosition(x, s)) == multiset(s) + multiset{x}
  {
    if |s| > 0 && x.position > s[0].position {
      InsertByPositionElems(x, s[1..]);
      assert s == [s[0]] + s[1..];
    }
  }

  /** A bound below `x` and all of `s` stays below everything after the insertion. */
  lemma {:induction false} InsertByPositionAbove(x: Section, s: seq<Section>, b: int)
    requires b <= x.position && forall k :: 0 <= k < |s| ==> b <= s[k].position
    ensures forall k :: 0 <= k < |InsertByPosition(x, s)| ==> b <= InsertByPosition(x, s)[k].position
  {
    if |s| > 0 && x.position > s[0].position {
      InsertByPositionAbove(x, s[1..], b);
    }
  }

  lemma {:induction false} InsertByPositionSorted(x: Section, s: seq<Section>)
    requires SortedByPosition(s)
    ensures SortedByPosition(InsertByPosition(x, s))
  {
    if |s| > 0 && x.position > s[0].position {
      var rest := InsertByPosition(x, s[1..]);
      InsertByPositionSorted(x, s[1..]);
      InsertByPositionAbove(x, s[1..], s[0].position);
      var r := [s[0]] + rest;
      assert r[1..] == rest;
    }
  }

  /** Inserting `x` adds it in front of the sections of its own position and leaves the others' order alone. */
  lemma {:induction false} InsertByPositionStable(x: Section, s: seq<Section>, p: int)
    ensures AtPosition(InsertByPosition(x, s), p) == (if x.position == p then [x] else []) + AtPosition(s, p)
  {
    if |s| == 0 {
      assert [x][1..] == [];
    } else if x.position <= s[0].position {
      var r := [x] + s;
      assert r[0] == x && r[1..] == s;
      assert AtPosition(r, p) == (if x.position == p then [x] else []) + AtPosition(s, p);
    } else {
      var rest := InsertByPosition(x, s[1..]);
      var r := [s[0]] + rest;
      InsertByPositionStable(x, s[1..], p);
      assert r[0] == s[0] && r[1..] == rest;
      var head := if s[0].position == p then [s[0]] else [];
      assert AtPosition(r, p) == head + AtPosition(rest, p);
      assert AtPosition(s, p) == head + AtPosition(s[1..], p);
      if x.position == p {
        assert head == [];
      }
    }
  }

  /** The sorted sections are in ascending position and are the same sections. */
  lemma {:induction false} SortByPositionSpec(s: seq<Section>)
    ensures SortedByPosition(SortByPosition(s))
    ensures multiset(SortByPosition(s)) == multiset(s)
  {
    if |s| > 0 {
      SortByPositionSpec(s[1..]);
      InsertByPositionSorted(s[0], SortByPosition(s[1..]));
      InsertByPositionElems(s[0], SortByPosition(s[1..]));
      assert s == [s[0]] + s[1..];
    }
  }

  /** The sort is stable: sections of equal position keep their relative order. */
  lemma {:induction false} SortByPositionStable(s: seq<Section>, p: int)
    ensures AtPosition(SortByPosition(s), p) == AtPosition(s, p)
  {
    if |s| > 0 {
      SortByPositionStable(s[1..], p);
      InsertByPositionStable(s[0], SortByPosition(s[1..]), p);
    }
  }

  // Field lookup.

  /** `FieldNotFoundError`, naming the field and the type. */
  datatype FieldError = FieldNotFound(fieldName: string, typeName: string) | KeyError

  function FieldNotFoundMessage(fieldName: string, typeName: string): string {
    "Field " + fieldName + " was not found inside input_type: " + typeName
  }

  /** The message names the field right after `Field ` and ends with the type's name. */
  lemma FieldNotFoundMessageNames(fieldName: string, typeName: string)
    ensures var m := FieldNotFoundMessage(fieldName, typeName);
      && m[6..6 + |fieldName|] == fieldName
      && |m| >= |typeName| && m[|m| - |typeName|..] == typeName
  {
  }

  /**
   * `get_field(name)`: the field type built from the first field with that
   * name, `None` when the field type refuses the field, `FieldNotFound` when
   * no field has the name. The field-type constructor is a parameter.
   */
  function GetField<F>(t: Type, name: string, construct: Field -> Option<F>): Result<Option<F>, FieldError> {
    match Find(t.fields, Str(name))
    case Absent => Failure(FieldNotFound(name, t.name))
    case Unnamed(_) => Failure(KeyError)
    case At(i) => Success(construct(t.fields[i]))
  }

  /** Not found exactly when every field has a name other than the one asked for, and the error names both. */
  lemma GetFieldNotFound<F>(t: Type, name: string, construct: Field -> Option<F>)
    ensures GetField(t, name, construct).Failure? && GetField(t, name, construct).error.FieldNotFound?
      <==> forall i :: 0 <= i < |t.fields| ==> OtherName(t.fields, i, Str(name))
    ensures GetField(t, name, construct) == Failure(FieldNotFound(name, t.name))
      <==> forall i :: 0 <= i < |t.fields| ==> OtherName(t.fields, i, Str(name))
  {
    FindSpec(t.fields, Str(name));
  }

  /** The first field with the name is the one built. */
  lemma GetFieldFirst<F>(t: Type, name: string, construct: Field -> Option<F>, i: nat)
    requires i < |t.fields| && Name(t.fields[i]) == Some(Str(name))
    requires forall k :: 0 <= k < i ==> OtherName(t.fields, k, Str(name))
    ensures GetField(t, name, construct) == Success(construct(t.fields[i]))
  {
    FindFirst(t.fields, Str(name), i);
  }
}
