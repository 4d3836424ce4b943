/** Shared vocabulary of the analysis pipeline: optional and fallible
    results, the real-number helpers that stand for the `math` package,
    running sums over sample sequences and substring tests. */
module Common {

  datatype Option<T> = None | Some(value: T)

  datatype Result<T, E> = Success(value: T) | Failure(error: E)

  /** `math.Abs`. */
  function Abs(x: real): real
  {
    if x < 0.0 then -x else x
  }

  /** `math.Max` on finite values. */
  function Max(a: real, b: real): real
  {
    if a >= b then a else b
  }

  /** `math.Min` on finite values. */
  function Min(a: real, b: real): real
  {
    if a <= b then a else b
  }

  function MinInt(a: int, b: int): int
  {
    if a <= b then a else b
  }

  /** Sum of a sequence, accumulated left to right as the loops do. */
  function Sum(s: seq<real>): real
  {
    if |s| == 0 then 0.0 else Sum(s[..|s| - 1]) + s[|s| - 1]
  }

  lemma SumExtend(s: seq<real>, i: nat)
    requires i < |s|
    ensures Sum(s[..i + 1]) == Sum(s[..i]) + s[i]
  {
    assert s[..i + 1][..i] == s[..i];
  }

  lemma SumSliceExtend(s: seq<real>, lo: nat, hi: nat)
    requires lo <= hi < |s|
    ensures Sum(s[lo..hi + 1]) == Sum(s[lo..hi]) + s[hi]
  {
    assert s[lo..hi + 1][..hi - lo] == s[lo..hi];
  }

  lemma SumAll(s: seq<real>)
    ensures Sum(s[..|s|]) == Sum(s)
  {
    assert s[..|s|] == s;
  }

  /** `strings.Contains(s, sub)`. */
  predicate Contains(s: string, sub: string)
    decreases |s|
  {
    sub <= s || (|s| > 0 && Contains(s[1..], sub))
  }

  /** `strings.HasSuffix(s, suffix)`. */
  predicate EndsWith(s: string, suffix: string)
  {
    |suffix| <= |s| && s[|s| - |suffix|..] == suffix
  }

  /** `strings.HasPrefix(s, prefix)`. */
  predicate StartsWith(s: string, prefix: string)
  {
    prefix <= s
  }

  lemma {:induction false} ContainsInfix(a: string, sub: string, b: string)
    ensures Contains(a + sub + b, sub)
    decreases |a|
  {
    if |a| == 0 {
      assert a + sub + b == sub + b;
    } else {
      assert (a + sub + b)[1..] == a[1..] + sub + b;
      ContainsInfix(a[1..], sub, b);
    }
  }

  lemma {:induction false} ContainsExtend(a: string, s: string, b: string, sub: string)
    requires Contains(s, sub)
    ensures Contains(a + s + b, sub)
    decreases |a|, |s|
  {
    if |a| > 0 {
      assert (a + s + b)[1..] == a[1..] + s + b;
      ContainsExtend(a[1..], s, b, sub);
    } else if sub <= s {
      assert a + s + b == s + b;
    } else {
      assert (a + s + b)[1..] == s[1..] + b;
      assert s[1..] + b == [] + s[1..] + b;
      ContainsExtend([], s[1..], b, sub);
    }
  }
  lemma ContainsSelf(s: string)
    ensures Contains(s, s)
  {
    assert s <= s;
  }

  /** Containment survives appending on the right. */
  lemma ContainsAppend(s: string, b: string, sub: string)
    requires Contains(s, sub)
    ensures Contains(s + b, sub)
  {
    ContainsExtend([], s, b, sub);
    assert [] + s + b == s + b;
  }

  /** Containment survives prepending on the left. */
  lemma ContainsPrepend(a: string, s: string, sub: string)
    requires Contains(s, sub)
    ensures Contains(a + s, sub)
  {
    ContainsExtend(a, s, [], sub);
    assert a + s + [] == a + s;
  }

  lemma StartsWithConcat(a: string, b: string)
    ensures StartsWith(a + b, a)
  {
    assert (a + b)[..|a|] == a;
  }

  lemma EndsWithConcat(a: string, b: string)
    ensures EndsWith(a + b, b)
  {
    assert (a + b)[|a|..] == b;
  }
}
