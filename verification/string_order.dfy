/**
 * Python's ordering of `str` values (code point by code point, a proper
 * prefix first) and `sorted` on a list of strings.
 */
module StringOrder {

  /** `a <= b` on Python strings. */
  predicate LexLe(a: string, b: string) {
    if |a| == 0 then true
    else if |b| == 0 then false
    else if a[0] != b[0] then a[0] < b[0]
    else LexLe(a[1..], b[1..])
  }

  lemma {:induction false} LexLeTotal(a: string, b: string)
    ensures LexLe(a, b) || LexLe(b, a)
  {
    if |a| > 0 && |b| > 0 && a[0] == b[0] {
      LexLeTotal(a[1..], b[1..]);
    }
  }

  lemma {:induction false} LexLeAntisymmetric(a: string, b: string)
    requires LexLe(a, b) && LexLe(b, a)
    ensures a == b
  {
    if |a| > 0 && |b| > 0 {
      LexLeAntisymmetric(a[1..], b[1..]);
      assert a == [a[0]] + a[1..] && b == [b[0]] + b[1..];
    }
  }

  lemma {:induction false} LexLeTransitive(a: string, b: string, c: string)
    requires LexLe(a, b) && LexLe(b, c)
    ensures LexLe(a, c)
  {
    if |a| > 0 && |b| > 0 && |c| > 0 && a[0] == b[0] && b[0] == c[0] {
      LexLeTransitive(a[1..], b[1..], c[1..]);
    }
  }

  predicate Sorted(s: seq<string>) {
    forall i, j :: 0 <= i < j < |s| ==> LexLe(s[i], s[j])
  }

  function Insert(x: string, s: seq<string>): (r: seq<string>)
    requires Sorted(s)
    ensures Sorted(r)
    ensures multiset(r) == multiset(s) + multiset{x}
  {
    if |s| == 0 then [x]
    else if LexLe(x, s[0]) then
      assert forall j :: 0 < j < |s| ==> LexLe(x, s[j]) by {
        forall j | 0 < j < |s| ensures LexLe(x, s[j]) {
          LexLeTransitive(x, s[0], s[j]);
        }
      }
      [x] + s
    else
      LexLeTotal(x, s[0]);
      var t := Insert(x, s[1..]);
      assert s == [s[0]] + s[1..];
      assert forall k :: 0 <= k < |t| ==> LexLe(s[0], t[k]) by {
        forall k | 0 <= k < |t| ensures LexLe(s[0], t[k]) {
          assert t[k] in multiset(t);
          assert t[k] in multiset(s[1..]) || t[k] == x;
        }
      }
      [s[0]] + t
  }

  /** Python's `sorted(names)`. */
  function Sort(s: seq<string>): (r: seq<string>)
    ensures Sorted(r)
    ensures multiset(r) == multiset(s)
  {
    if |s| == 0 then []
    else
      assert s == [s[0]] + s[1..];
      Insert(s[0], Sort(s[1..]))
  }

  /** The head of a sorted list is at most every string the list holds. */
  lemma SortedHeadLeast(a: seq<string>, x: string)
    requires Sorted(a) && x in multiset(a)
    ensures |a| > 0 && LexLe(a[0], x)
  {
    var j :| 0 <= j < |a| && a[j] == x;
    if j == 0 {
      LexLeTotal(a[0], a[0]);
    }
  }

  /** Equal heads leave equal multisets of the tails. */
  lemma TailsSameMultiset(a: seq<string>, b: seq<string>)
    requires |a| > 0 && |b| > 0 && a[0] == b[0]
    requires multiset(a) == multiset(b)
    ensures multiset(a[1..]) == multiset(b[1..])
  {
    assert a == [a[0]] + a[1..] && b == [b[0]] + b[1..];
    assert multiset(a) == multiset{a[0]} + multiset(a[1..]);
    assert multiset(b) == multiset{b[0]} + multiset(b[1..]);
    assert multiset(a[1..]) == multiset(a) - multiset{a[0]};
    assert multiset(b[1..]) == multiset(b) - multiset{b[0]};
  }

  /** Two sorted lists holding the same strings, duplicates counted, are equal. */
  lemma {:induction false} SortedUnique(a: seq<string>, b: seq<string>)
    requires Sorted(a) && Sorted(b)
    requires multiset(a) == multiset(b)
    ensures a == b
  {
    if |a| == 0 {
      assert |multiset(b)| == 0;
    } else {
      assert a[0] in multiset(b);
      SortedHeadLeast(b, a[0]);
      assert b[0] in multiset(a);
      SortedHeadLeast(a, b[0]);
      LexLeAntisymmetric(a[0], b[0]);
      TailsSameMultiset(a, b);
      SortedUnique(a[1..], b[1..]);
      assert a == [a[0]] + a[1..] && b == [b[0]] + b[1..];
    }
  }

  /** `sorted(a) == sorted(b)` exactly when the lists hold the same strings with the same multiplicities. */
  lemma SortEqualIffSameMultiset(a: seq<string>, b: seq<string>)
    ensures Sort(a) == Sort(b) <==> multiset(a) == multiset(b)
  {
    if multiset(a) == multiset(b) {
      SortedUnique(Sort(a), Sort(b));
    }
  }
}
