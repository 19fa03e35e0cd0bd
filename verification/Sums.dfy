/** Sums of a weight over a sequence, and how one update or one append changes them. */
module Sums {

  function Sum<T>(s: seq<T>, weight: T -> nat): nat {
    if s == [] then 0 else Sum(s[..|s| - 1], weight) + weight(s[|s| - 1])
  }

  lemma SumAppend<T>(s: seq<T>, x: T, weight: T -> nat)
    ensures Sum(s + [x], weight) == Sum(s, weight) + weight(x)
  {
    assert (s + [x])[..|s|] == s;
  }

  lemma {:induction false} SumUpdate<T>(s: seq<T>, i: nat, x: T, weight: T -> nat)
    requires i < |s|
    ensures Sum(s[i := x], weight) + weight(s[i]) == Sum(s, weight) + weight(x)
  {
    var n := |s| - 1;
    if i == n {
      assert s[i := x][..n] == s[..n];
    } else {
      SumUpdate(s[..n], i, x, weight);
      assert s[i := x][..n] == s[..n][i := x];
    }
  }

  lemma {:induction false} SumAtLeast<T>(s: seq<T>, i: nat, weight: T -> nat)
    requires i < |s|
    ensures Sum(s, weight) >= weight(s[i])
  {
    if i < |s| - 1 {
      SumAtLeast(s[..|s| - 1], i, weight);
    }
  }

  lemma {:induction false} SumAtLeastTwo<T>(s: seq<T>, i: nat, k: nat, weight: T -> nat)
    requires i < k < |s|
    ensures Sum(s, weight) >= weight(s[i]) + weight(s[k])
  {
    var n := |s| - 1;
    if k == n {
      SumAtLeast(s[..n], i, weight);
    } else {
      SumAtLeastTwo(s[..n], i, k, weight);
    }
  }

  lemma {:induction false} SumZero<T>(s: seq<T>, weight: T -> nat)
    requires forall i :: 0 <= i < |s| ==> weight(s[i]) == 0
    ensures Sum(s, weight) == 0
  {
    if s != [] {
      SumZero(s[..|s| - 1], weight);
    }
  }

  /** A pointwise comparison of two weights carries over to the sums. */
  lemma {:induction false} SumMonotone<T>(s: seq<T>, light: T -> nat, heavy: T -> nat)
    requires forall i :: 0 <= i < |s| ==> light(s[i]) <= heavy(s[i])
    ensures Sum(s, light) <= Sum(s, heavy)
  {
    if s != [] {
      SumMonotone(s[..|s| - 1], light, heavy);
    }
  }

  lemma {:induction false} SumScale<T>(s: seq<T>, weight: T -> nat, factor: nat, scaled: T -> nat)
    requires forall i :: 0 <= i < |s| ==> scaled(s[i]) == factor * weight(s[i])
    ensures Sum(s, scaled) == factor * Sum(s, weight)
  {
    if s != [] {
      var n := |s| - 1;
      SumScale(s[..n], weight, factor, scaled);
      assert factor * (Sum(s[..n], weight) + weight(s[n])) == factor * Sum(s[..n], weight) + factor * weight(s[n]);
    }
  }

  /** Two sequences that weigh the same position by position weigh the same in total. */
  lemma {:induction false} SumPointwise<T, U>(s: seq<T>, t: seq<U>, v: T -> nat, w: U -> nat)
    requires |s| == |t| && forall i :: 0 <= i < |s| ==> v(s[i]) == w(t[i])
    ensures Sum(s, v) == Sum(t, w)
  {
    if s != [] {
      SumPointwise(s[..|s| - 1], t[..|t| - 1], v, w);
    }
  }

  lemma {:induction false} SumConcat<T>(s: seq<T>, t: seq<T>, weight: T -> nat)
    ensures Sum(s + t, weight) == Sum(s, weight) + Sum(t, weight)
  {
    if t == [] {
      assert s + t == s;
    } else {
      var n := |t| - 1;
      assert (s + t)[..|s| + n] == s + t[..n];
      SumConcat(s, t[..n], weight);
    }
  }

  lemma {:induction false} SumBounded<T>(s: seq<T>, weight: T -> nat, bound: nat)
    requires forall i :: 0 <= i < |s| ==> weight(s[i]) <= bound
    ensures Sum(s, weight) <= |s| * bound
  {
    if s != [] {
      SumBounded(s[..|s| - 1], weight, bound);
      assert |s| * bound == (|s| - 1) * bound + bound;
    }
  }
}
