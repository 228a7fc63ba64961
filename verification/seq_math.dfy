/** Sums over sequences of reals, folded from the left as the source's loops and
    `reduce` calls do. */
module SeqMath {

  import RealFacts

  function Sum(s: seq<real>): real
    decreases |s|
  {
    if |s| == 0 then 0.0 else Sum(s[..|s| - 1]) + s[|s| - 1]
  }

  predicate AllNonNegative(s: seq<real>) {
    forall i :: 0 <= i < |s| ==> 0.0 <= s[i]
  }

  /** One more step of a left fold. */
  lemma SumStep(s: seq<real>, i: nat)
    requires i < |s|
    ensures Sum(s[..i + 1]) == Sum(s[..i]) + s[i]
  {
    assert s[..i + 1][..i] == s[..i];
  }

  lemma {:induction false} SumNonNegative(s: seq<real>)
    requires AllNonNegative(s)
    ensures 0.0 <= Sum(s)
  {
    if |s| > 0 {
      SumNonNegative(s[..|s| - 1]);
    }
  }

  lemma {:induction false} SumOfZeros(s: seq<real>)
    requires forall i :: 0 <= i < |s| ==> s[i] == 0.0
    ensures Sum(s) == 0.0
  {
    if |s| > 0 {
      SumOfZeros(s[..|s| - 1]);
    }
  }

  /** Summing a constant sequence. */
  lemma {:induction false} SumOfConstant(s: seq<real>, c: real)
    requires forall i :: 0 <= i < |s| ==> s[i] == c
    ensures Sum(s) == |s| as real * c
  {
    if |s| > 0 {
      SumOfConstant(s[..|s| - 1], c);
    }
  }

  /** The sum of all elements equals the sum of any prefix plus the rest. */
  lemma {:induction false} SumSplit(s: seq<real>, k: nat)
    requires k <= |s|
    ensures Sum(s) == Sum(s[..k]) + Sum(s[k..])
    decreases |s|
  {
    if k == |s| {
      assert s[..k] == s;
      assert s[k..] == [];
    } else {
      var n := |s| - 1;
      SumSplit(s[..n], k);
      assert s[..n][..k] == s[..k];
      assert s[k..][..|s[k..]| - 1] == s[..n][k..];
    }
  }

  /** Sums of non-negative reals grow with the prefix. */
  lemma PrefixSumMonotone(s: seq<real>, i: nat, j: nat)
    requires AllNonNegative(s)
    requires i <= j <= |s|
    ensures Sum(s[..i]) <= Sum(s[..j])
  {
    SumSplit(s[..j], i);
    assert s[..j][..i] == s[..i];
    assert AllNonNegative(s[..j][i..]);
    SumNonNegative(s[..j][i..]);
  }

  /** Sums are monotone in every element. */
  lemma {:induction false} SumMonotone(s: seq<real>, t: seq<real>)
    requires |s| == |t|
    requires forall i :: 0 <= i < |s| ==> s[i] <= t[i]
    ensures Sum(s) <= Sum(t)
  {
    if |s| > 0 {
      SumMonotone(s[..|s| - 1], t[..|t| - 1]);
    }
  }

  /** A constant factor comes out of a sum. */
  lemma {:induction false} SumOfScaled(s: seq<real>, q: seq<real>, c: real)
    requires |q| == |s|
    requires forall i :: 0 <= i < |s| ==> q[i] == c * s[i]
    ensures Sum(q) == c * Sum(s)
  {
    if |s| > 0 {
      var n := |s| - 1;
      SumOfScaled(s[..n], q[..n], c);
      assert c * Sum(s) == c * Sum(s[..n]) + c * s[n];
    }
  }

  /** A constant divisor comes out of a sum. */
  lemma {:induction false} SumOfQuotients(s: seq<real>, q: seq<real>, d: real)
    requires d != 0.0 && |q| == |s|
    requires forall i :: 0 <= i < |s| ==> q[i] == s[i] / d
    ensures Sum(q) == Sum(s) / d
  {
    if |s| > 0 {
      var n := |s| - 1;
      SumOfQuotients(s[..n], q[..n], d);
      RealFacts.QuotientSum(Sum(s[..n]), s[n], d);
    }
  }
}
