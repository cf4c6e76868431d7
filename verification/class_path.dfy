/**
 * The name split of `load_class`: a dotted class path is cut at its last dot
 * into a module name and a class name, as the greedy full match of
 * `(.*)\.(.*)` does. Importing the module is outside the model.
 */
module ClassPath {
  import opened Results

  /** `Exception("Could not load class ...")`. */
  datatype LoadError = CouldNotLoad(message: string)

  /** The position of the last `c` in `s`. */
  function LastIndexOf(s: string, c: char): (r: Option<nat>)
    ensures r.Some? ==> r.value < |s| && s[r.value] == c && forall j :: r.value < j < |s| ==> s[j] != c
    ensures r.None? ==> c !in s
  {
    if |s| == 0 then None
    else if s[|s| - 1] == c then Some(|s| - 1)
    else LastIndexOf(s[..|s| - 1], c)
  }

  /**
   * A way the full match can succeed: `.` matches any character but a
   * newline, so both groups are free of newlines and a literal dot sits
   * between them.
   */
  predicate Matches(s: string, moduleName: string, className: string) {
    '\n' !in moduleName && '\n' !in className && s == moduleName + "." + className
  }

  /** The module and class names of a class path, or the error `load_class` raises. */
  function Split(s: string): Result<(string, string), LoadError> {
    if '\n' in s then Failure(CouldNotLoad("Could not load class " + s))
    else
      match LastIndexOf(s, '.')
      case None => Failure(CouldNotLoad("Could not load class " + s))
      case Some(k) => Success((s[..k], s[k + 1..]))
  }

  /** Any match forces a dot and rules out newlines; the dot after the module name is in the path. */
  lemma MatchShape(s: string, moduleName: string, className: string)
    requires Matches(s, moduleName, className)
    ensures '\n' !in s
    ensures |moduleName| < |s| && s[|moduleName|] == '.'
  {
    assert s[|moduleName|] == (moduleName + "." + className)[|moduleName|];
    forall i | 0 <= i < |s| ensures s[i] != '\n' {
      if i < |moduleName| {
        assert s[i] == moduleName[i];
      } else if i > |moduleName| {
        assert s[i] == className[i - |moduleName| - 1];
      }
    }
  }

  /** The split is one of the matches, its class name holds no dot, and joining the parts gives the path back. */
  lemma SplitSound(s: string)
    requires Split(s).Success?
    ensures Matches(s, Split(s).value.0, Split(s).value.1)
    ensures '.' !in Split(s).value.1
    ensures Split(s).value.0 + "." + Split(s).value.1 == s
  {
    var k := LastIndexOf(s, '.').value;
    var (m, c) := (s[..k], s[k + 1..]);
    assert s == m + "." + c;
    forall j | 0 <= j < |c| ensures c[j] != '.' {
      assert c[j] == s[k + 1 + j];
    }
  }

  /** The split takes the longest module name any match allows: it is cut at the last dot. */
  lemma SplitGreedy(s: string, moduleName: string, className: string)
    requires Matches(s, moduleName, className)
    ensures Split(s).Success?
    ensures |moduleName| <= |Split(s).value.0|
  {
    MatchShape(s, moduleName, className);
  }

  /** The split fails exactly when no match exists: no dot, or a newline anywhere. */
  lemma SplitFails(s: string)
    ensures Split(s).Failure? <==> forall m, c :: !Matches(s, m, c)
    ensures Split(s).Failure? <==> ('.' !in s || '\n' in s)
    ensures Split(s).Failure? ==> Split(s).error.message == "Could not load class " + s
  {
    if Split(s).Success? {
      SplitSound(s);
    } else {
      forall m, c ensures !Matches(s, m, c) {
        if Matches(s, m, c) {
          SplitGreedy(s, m, c);
        }
      }
    }
  }

  lemma SplitExamples()
    ensures Split("a.b.C") == Success(("a.b", "C"))
    ensures Split("Plain").Failure?
  {
    var s := "a.b.C";
    assert '\n' !in s;
    var k := LastIndexOf(s, '.').value;
    assert s[3] == '.';
    assert k == 3;
    assert s[..3] == "a.b" && s[4..] == "C";
    assert '.' !in "Plain";
  }
}
