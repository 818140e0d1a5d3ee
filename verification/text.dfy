/** The few string operations the controller relies on: Go's
    `strings.Split(s, sep)[0]`, `strings.LastIndex` and the slicing built on
    them, each characterised by the property callers depend on. */
module Text {

  /** The text of `s` before the first `c`; all of `s` when `c` does not
      occur. This is `strings.Split(s, string(c))[0]`, which is `""` for an
      empty `s`. */
  function Before(s: string, c: char): (r: string)
    ensures r <= s
    ensures c !in r
    ensures r == s || s[|r|] == c
    decreases |s|
  {
    if |s| == 0 || s[0] == c then "" else [s[0]] + Before(s[1..], c)
  }

  /** The three facts `Before` ensures pin its result down: no other prefix
      has them. */
  lemma {:induction false} BeforeUnique(s: string, c: char, p: string)
    requires p <= s && c !in p
    requires p == s || s[|p|] == c
    ensures p == Before(s, c)
    decreases |s|
  {
    if |s| == 0 {
    } else if s[0] == c {
      assert p == s[..|p|];
    } else {
      assert |p| > 0 && p[0] == s[0];
      assert p[1..] <= s[1..];
      assert forall i :: 0 <= i < |p[1..]| ==> p[1..][i] == p[i + 1];
      BeforeUnique(s[1..], c, p[1..]);
      assert p == [s[0]] + p[1..];
    }
  }

  /** Splitting `a + [c] + b` at its first `c` gives back `a`. */
  lemma BeforeConcat(a: string, c: char, b: string)
    requires c !in a
    ensures Before(a + [c] + b, c) == a
  {
    var s := a + [c] + b;
    assert a <= s;
    assert s[|a|] == c;
    BeforeUnique(s, c, a);
  }

  /** `Before` of a string without `c` is the whole string. */
  lemma BeforeAbsent(s: string, c: char)
    requires c !in s
    ensures Before(s, c) == s
  {
    BeforeUnique(s, c, s);
  }

  /** Go's `strings.LastIndex(s, string(c))`: the index of the last `c` in
      `s`, or -1 when there is none. */
  function LastIndex(s: string, c: char): (r: int)
    ensures -1 <= r < |s|
    ensures 0 <= r ==> s[r] == c
    ensures forall j :: r < j < |s| ==> s[j] != c
    decreases |s|
  {
    if |s| == 0 then -1
    else if s[|s| - 1] == c then |s| - 1
    else LastIndex(s[..|s| - 1], c)
  }

  /** LastIndex is -1 exactly when `c` does not occur. */
  lemma LastIndexAbsent(s: string, c: char)
    ensures LastIndex(s, c) == -1 <==> c !in s
  {
    var r := LastIndex(s, c);
    if c in s {
      var j :| 0 <= j < |s| && s[j] == c;
      assert j <= r;
    }
  }

  /** The text of `s` after its last `c`; all of `s` when `c` does not occur. */
  function AfterLast(s: string, c: char): (r: string)
    ensures |r| <= |s| && r == s[|s| - |r|..]
    ensures c !in r
    ensures r == s || s[|s| - |r| - 1] == c
  {
    s[LastIndex(s, c) + 1..]
  }

  /** The suffix after the last `c` of `a + [c] + b` is `b` when `b` has no `c`. */
  lemma AfterLastConcat(a: string, c: char, b: string)
    requires c !in b
    ensures AfterLast(a + [c] + b, c) == b
  {
    var s := a + [c] + b;
    var r := LastIndex(s, c);
    assert s[|a|] == c;
    assert r >= |a|;
    forall j | |a| < j < |s|
      ensures s[j] != c
    {
      assert s[j] == b[j - |a| - 1];
    }
    assert s[|a| + 1..] == b;
  }

  /** The text after the last `c` of a string without `c` is the whole string. */
  lemma AfterLastAbsent(s: string, c: char)
    requires c !in s
    ensures AfterLast(s, c) == s
  {
    LastIndexAbsent(s, c);
  }
}
