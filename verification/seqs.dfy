/** List comprehensions `[x for x in s if f(x)]` and the facts about them the model uses. */
module Seqs {

  function Filter<T>(f: T -> bool, s: seq<T>): (r: seq<T>)
    ensures |r| <= |s|
    ensures forall i :: 0 <= i < |r| ==> r[i] in s && f(r[i])
    ensures forall i :: 0 <= i < |s| && f(s[i]) ==> s[i] in r
  {
    if |s| == 0 then []
    else (if f(s[0]) then [s[0]] else []) + Filter(f, s[1..])
  }

  lemma {:induction false} FilterAppend<T>(f: T -> bool, a: seq<T>, b: seq<T>)
    ensures Filter(f, a + b) == Filter(f, a) + Filter(f, b)
  {
    if |a| == 0 {
      assert a + b == b;
    } else {
      assert (a + b)[0] == a[0];
      assert (a + b)[1..] == a[1..] + b;
      FilterAppend(f, a[1..], b);
    }
  }

  /** Filtering first by a weaker condition changes nothing. */
  lemma {:induction false} FilterSubsumed<T(!new)>(f: T -> bool, g: T -> bool, s: seq<T>)
    requires forall x :: f(x) ==> g(x)
    ensures Filter(f, Filter(g, s)) == Filter(f, s)
  {
    if |s| > 0 {
      FilterSubsumed(f, g, s[1..]);
      if g(s[0]) {
        var t := [s[0]] + Filter(g, s[1..]);
        assert Filter(g, s) == t;
        assert t[0] == s[0] && t[1..] == Filter(g, s[1..]);
        assert Filter(f, t) == (if f(s[0]) then [s[0]] else []) + Filter(f, t[1..]);
      } else {
        assert !f(s[0]);
        assert Filter(g, s) == Filter(g, s[1..]);
        assert Filter(f, s) == Filter(f, s[1..]);
      }
    }
  }
}
