/**
 * The pieces of Python's `str` and `int` behaviour the server relies on:
 * `str.split` on one separator, `str.isdigit`, `int(text)` and `str(number)`.
 * Only ASCII digits are modelled.
 */
module Strings {
  import opened Results

  predicate IsDigit(c: char) {
    '0' <= c <= '9'
  }

  /** `s.isdigit()`: non-empty and made of digits only. */
  predicate IsDigits(s: string) {
    |s| > 0 && forall i :: 0 <= i < |s| ==> IsDigit(s[i])
  }

  function DigitValue(c: char): nat
    requires IsDigit(c)
  {
    c as int - '0' as int
  }

  function DigitChar(d: nat): (c: char)
    requires d < 10
    ensures IsDigit(c) && DigitValue(c) == d
  {
    ('0' as int + d) as char
  }

  /** The number a run of decimal digits denotes; leading zeros are allowed. */
  function DigitsValue(s: string): nat
    requires forall i :: 0 <= i < |s| ==> IsDigit(s[i])
  {
    if |s| == 0 then 0 else DigitsValue(s[..|s| - 1]) * 10 + DigitValue(s[|s| - 1])
  }

  /**
   * Python's `int(text)`: an optional sign followed by at least one digit.
   * `None` stands for the `ValueError` Python raises.
   */
  function ParseInt(s: string): (r: Option<int>)
    ensures r.Some? ==> |s| > 0
    ensures IsDigits(s) ==> r == Some(DigitsValue(s) as int)
  {
    if |s| > 0 && s[0] == '-' && IsDigits(s[1..]) then Some(-(DigitsValue(s[1..]) as int))
    else if |s| > 0 && s[0] == '+' && IsDigits(s[1..]) then Some(DigitsValue(s[1..]) as int)
    else if IsDigits(s) then Some(DigitsValue(s) as int)
    else None
  }

  /** Decimal digits of a natural number, without leading zeros. */
  function NatToString(n: nat): (s: string)
    ensures IsDigits(s)
    ensures DigitsValue(s) == n
    ensures s[0] == '0' ==> n == 0
  {
    if n < 10 then [DigitChar(n)]
    else
      var p := NatToString(n / 10);
      var s := p + [DigitChar(n % 10)];
      assert s[..|s| - 1] == p;
      s
  }

  /** Python's `str(n)` for an integer. */
  function IntToString(n: int): (s: string)
    ensures n >= 0 ==> IsDigits(s)
    ensures n < 0 ==> |s| > 1 && s[0] == '-' && IsDigits(s[1..])
  {
    if n < 0 then "-" + NatToString(-n) else NatToString(n)
  }

  /** `int(str(n)) == n`. */
  lemma ParseIntToString(n: int)
    ensures ParseInt(IntToString(n)) == Some(n)
  {
    var s := IntToString(n);
    if n < 0 {
      assert s[1..] == NatToString(-n);
    }
  }

  /** Only a run of zeros denotes zero. */
  lemma {:induction false} ZeroDigits(s: string)
    requires forall i :: 0 <= i < |s| ==> IsDigit(s[i])
    requires DigitsValue(s) == 0
    ensures forall i :: 0 <= i < |s| ==> s[i] == '0'
  {
    if |s| > 0 {
      var p := s[..|s| - 1];
      ZeroDigits(p);
      assert forall i :: 0 <= i < |p| ==> s[i] == p[i];
    }
  }

  /**
   * `str(int(s))` gives back a digit string exactly when it has no leading
   * zero (or is a single digit): `'007'` comes back as `'7'`.
   */
  lemma {:induction false} DigitsRoundTrip(s: string)
    requires IsDigits(s)
    ensures NatToString(DigitsValue(s)) == s <==> (|s| == 1 || s[0] != '0')
  {
    var n := DigitsValue(s);
    if |s| == 1 {
      assert s == [DigitChar(DigitValue(s[0]))];
    } else if s[0] != '0' {
      var p := s[..|s| - 1];
      assert p[0] == s[0];
      DigitsRoundTrip(p);
      if DigitsValue(p) == 0 {
        ZeroDigits(p);
      }
      assert n / 10 == DigitsValue(p) && n % 10 == DigitValue(s[|s| - 1]);
      assert NatToString(n) == p + [DigitChar(n % 10)];
      assert DigitChar(n % 10) == s[|s| - 1];
      assert p + [s[|s| - 1]] == s;
    }
  }

  /** `str(n)` holds only digits and a leading minus sign. */
  lemma IntToStringChars(n: int, c: char)
    requires c != '-' && !IsDigit(c)
    ensures c !in IntToString(n)
  {
    var s := IntToString(n);
    if n < 0 {
      assert forall i :: 1 <= i < |s| ==> s[i] == s[1..][i - 1];
    }
  }

  /** Python's `s.split(c)`: the pieces between occurrences of `c`, empty ones included. */
  function Split(s: string, c: char): (r: seq<string>)
    ensures |r| > 0
  {
    if |s| == 0 then [""]
    else
      var rest := Split(s[1..], c);
      if s[0] == c then [""] + rest
      else [[s[0]] + rest[0]] + rest[1..]
  }

  /** `c.join(pieces)`. */
  function Join(pieces: seq<string>, c: char): string {
    if |pieces| == 0 then ""
    else if |pieces| == 1 then pieces[0]
    else pieces[0] + [c] + Join(pieces[1..], c)
  }

  /** One piece more than there are separators. */
  lemma {:induction false} SplitCount(s: string, c: char)
    ensures |Split(s, c)| == multiset(s)[c] + 1
  {
    if |s| > 0 {
      assert s == [s[0]] + s[1..];
      SplitCount(s[1..], c);
    }
  }

  /** No piece holds the separator. */
  lemma {:induction false} SplitPiecesClean(s: string, c: char)
    ensures forall k :: 0 <= k < |Split(s, c)| ==> c !in Split(s, c)[k]
  {
    if |s| > 0 {
      SplitPiecesClean(s[1..], c);
      var rest := Split(s[1..], c);
      var r := Split(s, c);
      if s[0] != c {
        assert r == [[s[0]] + rest[0]] + rest[1..];
        forall k | 0 <= k < |r| ensures c !in r[k] {
          if k > 0 {
            assert r[k] == rest[k];
          }
        }
      } else {
        assert r == [""] + rest;
        forall k | 0 <= k < |r| ensures c !in r[k] {
          if k > 0 {
            assert r[k] == rest[k - 1];
          }
        }
      }
    }
  }

  /** Joining the pieces with the separator restores the text. */
  lemma {:induction false} SplitJoinBack(s: string, c: char)
    ensures Join(Split(s, c), c) == s
  {
    if |s| > 0 {
      assert s == [s[0]] + s[1..];
      SplitJoinBack(s[1..], c);
      var rest := Split(s[1..], c);
      var r := Split(s, c);
      if s[0] != c {
        assert r == [[s[0]] + rest[0]] + rest[1..];
        if |rest| == 1 {
          assert Join(r, c) == [s[0]] + rest[0];
        } else {
          assert Join(rest, c) == rest[0] + [c] + Join(rest[1..], c);
          assert r[1..] == rest[1..];
          assert Join(r, c) == ([s[0]] + rest[0]) + [c] + Join(rest[1..], c);
        }
      } else {
        assert r == [""] + rest;
        assert r[1..] == rest;
        assert Join(r, c) == "" + [c] + Join(rest, c);
      }
    }
  }

  lemma {:induction false} SplitNoSeparator(p: string, c: char)
    requires c !in p
    ensures Split(p, c) == [p]
  {
    if |p| > 0 {
      SplitNoSeparator(p[1..], c);
      assert [p[0]] + p[1..] == p;
    }
  }

  lemma {:induction false} SplitFirstPiece(p: string, c: char, rest: string)
    requires c !in p
    ensures Split(p + [c] + rest, c) == [p] + Split(rest, c)
  {
    if |p| == 0 {
      assert p + [c] + rest == [c] + rest;
      assert ([c] + rest)[1..] == rest;
    } else {
      var s := p + [c] + rest;
      assert s[1..] == p[1..] + [c] + rest;
      SplitFirstPiece(p[1..], c, rest);
      var tail := Split(s[1..], c);
      assert tail == [p[1..]] + Split(rest, c);
      assert s[0] == p[0] && p[0] != c;
      assert Split(s, c) == [[p[0]] + tail[0]] + tail[1..];
      assert [p[0]] + p[1..] == p;
    }
  }

  /** Splitting what `Join` glued together gives the pieces back. */
  lemma {:induction false} SplitJoin(pieces: seq<string>, c: char)
    requires |pieces| > 0
    requires forall k :: 0 <= k < |pieces| ==> c !in pieces[k]
    ensures Split(Join(pieces, c), c) == pieces
  {
    if |pieces| == 1 {
      SplitNoSeparator(pieces[0], c);
    } else {
      SplitJoin(pieces[1..], c);
      SplitFirstPiece(pieces[0], c, Join(pieces[1..], c));
      assert [pieces[0]] + pieces[1..] == pieces;
    }
  }
}
