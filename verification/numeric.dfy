/** Arithmetic over exact reals standing in for Python floats: `sum`, the
    mean `sum(xs) / len(xs)`, and `round(x, n)`. */
module Numeric {

  /** `sum(xs)`. */
  function Sum(xs: seq<real>): real {
    if |xs| == 0 then 0.0 else xs[0] + Sum(xs[1..])
  }

  /** `sum(xs) / len(xs)`; Python raises on an empty list, callers avoid it. */
  function Mean(xs: seq<real>): real
    requires |xs| > 0
  {
    Sum(xs) / |xs| as real
  }

  lemma {:induction false} SumConcat(a: seq<real>, b: seq<real>)
    ensures Sum(a + b) == Sum(a) + Sum(b)
  {
    if |a| == 0 {
      assert a + b == b;
    } else {
      assert (a + b)[1..] == a[1..] + b;
      SumConcat(a[1..], b);
    }
  }

  /** Removing position `i` takes `xs[i]` out of the sum. */
  lemma SumRemove(xs: seq<real>, i: nat)
    requires i < |xs|
    ensures Sum(xs) == xs[i] + Sum(xs[..i] + xs[i + 1..])
  {
    assert xs == xs[..i] + [xs[i]] + xs[i + 1..];
    SumConcat(xs[..i] + [xs[i]], xs[i + 1..]);
    SumConcat(xs[..i], [xs[i]]);
    SumConcat(xs[..i], xs[i + 1..]);
    assert Sum([xs[i]]) == xs[i] + Sum([]);
  }

  /** Taking the same element out of two permutations leaves permutations. */
  lemma PermutationStep<T>(a: seq<T>, b: seq<T>) returns (i: nat)
    requires |a| > 0 && multiset(a) == multiset(b)
    ensures i < |b| && b[i] == a[0]
    ensures multiset(a[1..]) == multiset(b[..i] + b[i + 1..])
  {
    assert a[0] in multiset(b);
    i :| 0 <= i < |b| && b[i] == a[0];
    var rest := b[..i] + b[i + 1..];
    assert a == [a[0]] + a[1..];
    assert multiset(a) == multiset{a[0]} + multiset(a[1..]);
    assert b == b[..i] + [b[i]] + b[i + 1..];
    assert multiset(b) == multiset(b[..i]) + multiset{b[i]} + multiset(b[i + 1..]);
    assert multiset(rest) == multiset(b[..i]) + multiset(b[i + 1..]);
    assert multiset(a[1..]) == multiset(a) - multiset{a[0]};
    assert multiset(rest) == multiset(b) - multiset{b[i]};
  }

  /** Over reals, the order of the summands does not matter. */
  lemma {:induction false} SumPermutation(a: seq<real>, b: seq<real>)
    requires multiset(a) == multiset(b)
    ensures Sum(a) == Sum(b)
    decreases |a|
  {
    if |a| == 0 {
      assert |b| == |multiset(b)| == 0;
    } else {
      var i := PermutationStep(a, b);
      var rest := b[..i] + b[i + 1..];
      SumPermutation(a[1..], rest);
      SumRemove(b, i);
    }
  }

  /** The smallest element of a non-empty sequence. */
  function Min(xs: seq<real>): (m: real)
    requires |xs| > 0
    ensures m in xs
    ensures forall i :: 0 <= i < |xs| ==> m <= xs[i]
  {
    if |xs| == 1 then xs[0]
    else var m := Min(xs[1..]); if xs[0] <= m then xs[0] else m
  }

  /** The largest element of a non-empty sequence. */
  function Max(xs: seq<real>): (m: real)
    requires |xs| > 0
    ensures m in xs
    ensures forall i :: 0 <= i < |xs| ==> xs[i] <= m
  {
    if |xs| == 1 then xs[0]
    else var m := Max(xs[1..]); if xs[0] >= m then xs[0] else m
  }

  lemma {:induction false} SumBounds(xs: seq<real>, lo: real, hi: real)
    requires forall i :: 0 <= i < |xs| ==> lo <= xs[i] <= hi
    ensures |xs| as real * lo <= Sum(xs) <= |xs| as real * hi
  {
    if |xs| > 0 {
      SumBounds(xs[1..], lo, hi);
    }
  }

  /** A mean lies between the extreme values it averages. */
  lemma MeanBetween(xs: seq<real>, lo: real, hi: real)
    requires |xs| > 0
    requires forall i :: 0 <= i < |xs| ==> lo <= xs[i] <= hi
    ensures lo <= Mean(xs) <= hi
  {
    SumBounds(xs, lo, hi);
    var n := |xs| as real;
    assert Mean(xs) * n == Sum(xs);
  }

  lemma MeanWithinRange(xs: seq<real>)
    requires |xs| > 0
    ensures Min(xs) <= Mean(xs) <= Max(xs)
  {
    MeanBetween(xs, Min(xs), Max(xs));
  }

  /** The mean of a permutation is the same mean. */
  lemma MeanPermutation(a: seq<real>, b: seq<real>)
    requires |a| > 0
    requires multiset(a) == multiset(b)
    ensures |b| == |a| && Mean(a) == Mean(b)
  {
    assert |a| == |multiset(a)| == |multiset(b)| == |b|;
    SumPermutation(a, b);
  }

  function Pow10(n: nat): (p: nat)
    ensures p >= 1
  {
    if n == 0 then 1 else 10 * Pow10(n - 1)
  }

  /** Half a unit in the last kept decimal place: the most `Round` may move a value. */
  function HalfUnit(places: nat): real {
    1.0 / (2 * Pow10(places)) as real
  }

  /** The integer nearest to `y`, the even one on a tie. */
  function NearestEven(y: real): (n: int)
    ensures -0.5 <= n as real - y <= 0.5
    ensures y.Floor <= n <= y.Floor + 1
    ensures y == y.Floor as real ==> n == y.Floor
  {
    var f := y.Floor;
    var frac := y - f as real;
    if frac < 0.5 then f
    else if frac > 0.5 then f + 1
    else if f % 2 == 0 then f else f + 1
  }

  /** Whether `r` has at most `places` decimals: scaled by 10^places it is
      a whole number. */
  predicate OnGrid(r: real, places: nat) {
    var y := r * Pow10(places) as real;
    y == y.Floor as real
  }

  /** `round(x, places)`: to the nearest multiple of 10^-places, ties to the
      even multiple, as Python rounds. */
  function Round(x: real, places: nat): (r: real)
    ensures OnGrid(r, places)
    ensures -HalfUnit(places) <= r - x <= HalfUnit(places)
    ensures -1.0 <= x <= 1.0 ==> -1.0 <= r <= 1.0
    ensures forall g :: OnGrid(g, places) ==> Abs(r - x) <= Abs(g - x)
  {
    var p := Pow10(places);
    var n := NearestEven(x * p as real);
    RoundWithinHalf(x, places, p, n);
    RoundUnit(x, p, n);
    NearestOnGrid(x, places, p, n);
    UnscaleOnGrid(n, places);
    n as real / p as real
  }

  lemma RoundWithinHalf(x: real, places: nat, p: nat, n: int)
    requires p == Pow10(places) && -0.5 <= n as real - x * p as real <= 0.5
    ensures -HalfUnit(places) <= n as real / p as real - x <= HalfUnit(places)
  {
    var pr := p as real;
    RoundError(x, pr, n as real);
    assert HalfUnit(places) == 1.0 / (2.0 * pr);
  }

  function Abs(v: real): real { if v < 0.0 then -v else v }

  /** No value with `places` decimals is closer to `x` than `n / 10^places`
      when `n` is within half a unit of `x * 10^places`. */
  lemma NearestOnGrid(x: real, places: nat, p: nat, n: int)
    requires p == Pow10(places) && -0.5 <= n as real - x * p as real <= 0.5
    ensures forall g :: OnGrid(g, places) ==> Abs(n as real / p as real - x) <= Abs(g - x)
  {
    var pr := p as real;
    var y := x * pr;
    var r := n as real / pr;
    assert r * pr == n as real;
    ScaleDistance(r, x, pr, n as real);
    forall g | OnGrid(g, places)
      ensures Abs(r - x) <= Abs(g - x)
    {
      var m := GridUnits(g, places);
      NearestInteger(y, n, m);
      ScaleDistance(g, x, pr, m as real);
      DivideMonotone(Abs(n as real - y), Abs(m as real - y), pr);
    }
  }

  /** A value with `places` decimals is a whole number of 10^-places units. */
  lemma GridUnits(g: real, places: nat) returns (m: int)
    requires OnGrid(g, places)
    ensures g * Pow10(places) as real == m as real
  {
    m := (g * Pow10(places) as real).Floor;
  }

  lemma DivideMonotone(a: real, b: real, p: real)
    requires a <= b && p >= 1.0
    ensures a / p <= b / p
  {
  }

  /** An integer within half a unit of `y` is at least as close to it as any
      other integer. */
  lemma NearestInteger(y: real, n: int, m: int)
    requires -0.5 <= n as real - y <= 0.5
    ensures Abs(n as real - y) <= Abs(m as real - y)
  {
    if m > n {
      assert m as real >= n as real + 1.0;
    } else if m < n {
      assert m as real <= n as real - 1.0;
    }
  }

  /** Distances scale with the unit: if `v * p` is `w`, the distance from `v`
      to `x` is that from `w` to `x * p`, divided by `p`. */
  lemma ScaleDistance(v: real, x: real, p: real, w: real)
    requires p >= 1.0 && v * p == w
    ensures Abs(v - x) == Abs(w - x * p) / p
  {
    assert w - x * p == (v - x) * p;
  }

  /** An integer count of 10^-places units has at most `places` decimals. */
  lemma UnscaleOnGrid(n: int, places: nat)
    ensures OnGrid(n as real / Pow10(places) as real, places)
  {
    var pr := Pow10(places) as real;
    assert (n as real / pr) * pr == n as real;
  }

  /** An integer within half a unit of a value in [-p, p] is in [-p, p]. */
  lemma RoundUnit(x: real, p: nat, n: int)
    requires p >= 1 && -0.5 <= n as real - x * p as real <= 0.5
    ensures -1.0 <= x <= 1.0 ==> -1.0 <= n as real / p as real <= 1.0
  {
    if -1.0 <= x <= 1.0 {
      var pr := p as real;
      ScaleWithin(x, pr);
      IntWithin(n, p, pr);
      UnscaleWithin(n as real, pr);
    }
  }

  lemma RoundError(x: real, p: real, n: real)
    requires p >= 1.0
    requires -0.5 <= n - x * p <= 0.5
    ensures -1.0 / (2.0 * p) <= n / p - x <= 1.0 / (2.0 * p)
  {
    assert n / p - x == (n - x * p) / p;
  }

  lemma IntWithin(n: int, p: int, pr: real)
    requires pr == p as real && -pr - 0.5 <= n as real <= pr + 0.5
    ensures -pr <= n as real <= pr
  {
  }

  lemma ScaleWithin(x: real, p: real)
    requires -1.0 <= x <= 1.0 && p >= 1.0
    ensures -p <= x * p <= p
  {
  }

  lemma UnscaleWithin(y: real, p: real)
    requires p >= 1.0 && -p <= y <= p
    ensures -1.0 <= y / p <= 1.0
  {
  }
}
