/**
 * The JSON-like documents the server exchanges with the document store:
 * query stages, stored objects and request bodies. A `Dict` is an ordered
 * list of members, so the iteration order Python dicts have is explicit.
 */
module Json {
  import opened Results

  datatype Value =
    | Null
    | Bool(b: bool)
    | Int(i: int)
    | Str(s: string)
    | List(items: seq<Value>)
    | Dict(members: seq<Member>)

  datatype Member = Member(key: string, val: Value)

  /** `d.get(key)` on a dict given as its members: the value of the first member named `key`. */
  function Get(members: seq<Member>, key: string): (r: Option<Value>)
    ensures r.None? <==> forall i :: 0 <= i < |members| ==> members[i].key != key
    ensures r.Some? ==> exists i :: 0 <= i < |members| && members[i].key == key && members[i].val == r.value
  {
    if |members| == 0 then None
    else if members[0].key == key then Some(members[0].val)
    else Get(members[1..], key)
  }

  /** The member at `i` is the first with its key. */
  lemma {:induction false} GetFirst(ms: seq<Member>, i: nat, key: string)
    requires i < |ms| && ms[i].key == key
    requires forall j :: 0 <= j < i ==> ms[j].key != key
    ensures Get(ms, key) == Some(ms[i].val)
  {
    if i > 0 {
      GetFirst(ms[1..], i - 1, key);
    }
  }

  function Keys(members: seq<Member>): (r: seq<string>)
    ensures |r| == |members|
  {
    seq(|members|, i requires 0 <= i < |members| => members[i].key)
  }

  /**
   * `d[key] = val`: an existing key keeps its place and takes the new value,
   * a new key goes last.
   */
  function SetKey(members: seq<Member>, key: string, val: Value): seq<Member> {
    if |members| == 0 then [Member(key, val)]
    else if members[0].key == key then [Member(key, val)] + members[1..]
    else [members[0]] + SetKey(members[1..], key, val)
  }

  /** `del d[key]` on a dict holding `key`, written for any member list: every member named `key` goes. */
  function DelKey(members: seq<Member>, key: string): seq<Member> {
    if |members| == 0 then []
    else if members[0].key == key then DelKey(members[1..], key)
    else [members[0]] + DelKey(members[1..], key)
  }

  /** After `d[key] = val`, `key` reads `val` and every other key reads as before. */
  lemma {:induction false} SetKeyGet(members: seq<Member>, key: string, val: Value, other: string)
    ensures Get(SetKey(members, key, val), key) == Some(val)
    ensures other != key ==> Get(SetKey(members, key, val), other) == Get(members, other)
  {
    if |members| > 0 && members[0].key != key {
      SetKeyGet(members[1..], key, val, other);
    }
  }

  /** Assignment keeps the key order, appending only a key that was absent. */
  lemma {:induction false} SetKeyKeys(members: seq<Member>, key: string, val: Value)
    ensures Keys(SetKey(members, key, val)) == if key in Keys(members) then Keys(members) else Keys(members) + [key]
  {
    if |members| > 0 {
      SetKeyKeys(members[1..], key, val);
      assert Keys(members) == [members[0].key] + Keys(members[1..]);
      if members[0].key == key {
        assert Keys(SetKey(members, key, val)) == [key] + Keys(members[1..]);
      } else {
        assert Keys(SetKey(members, key, val)) == [members[0].key] + Keys(SetKey(members[1..], key, val));
      }
    }
  }

  /** After `del d[key]`, `key` is gone and every other key reads as before. */
  lemma {:induction false} DelKeyGet(members: seq<Member>, key: string, other: string)
    ensures Get(DelKey(members, key), key).None?
    ensures other != key ==> Get(DelKey(members, key), other) == Get(members, other)
  {
    if |members| > 0 {
      DelKeyGet(members[1..], key, other);
    }
  }

  /** Python truthiness of a JSON value. */
  predicate Truthy(v: Value) {
    match v
    case Null => false
    case Bool(b) => b
    case Int(i) => i != 0
    case Str(s) => |s| > 0
    case List(items) => |items| > 0
    case Dict(members) => |members| > 0
  }

  /** A one-member dict `{key: val}`. */
  function Single(key: string, val: Value): Value {
    Dict([Member(key, val)])
  }
}
