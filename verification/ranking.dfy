/** Selection, ordering and truncation as Python does them: filtering,
    `sorted(xs, key=..., reverse=True)`, slicing `xs[:n]`, and
    `Counter.most_common(n)`. */
module Ranking {

  /** Every element is ranked at least as high as every later one. */
  ghost predicate NonIncreasing<T>(xs: seq<T>, key: T -> int) {
    forall i, j :: 0 <= i < j < |xs| ==> key(xs[i]) >= key(xs[j])
  }

  /** `rank` strictly increases along `xs`. */
  ghost predicate Increasing<T>(xs: seq<T>, rank: T -> int) {
    forall i, j :: 0 <= i < j < |xs| ==> rank(xs[i]) < rank(xs[j])
  }

  /** Descending by `key`, and among equal keys ascending by `rank`. */
  ghost predicate RankedBy<T>(xs: seq<T>, key: T -> int, rank: T -> int) {
    forall i, j :: 0 <= i < j < |xs| ==>
      key(xs[i]) > key(xs[j]) || (key(xs[i]) == key(xs[j]) && rank(xs[i]) < rank(xs[j]))
  }

  /** Put `x`, which came before every element of `ys` in the input, in front
      of the first element whose key does not exceed its own. */
  function Insert<T>(x: T, ys: seq<T>, key: T -> int): (r: seq<T>)
    ensures multiset(r) == multiset(ys) + multiset{x}
  {
    if |ys| == 0 || key(ys[0]) <= key(x) then [x] + ys
    else
      assert ys == [ys[0]] + ys[1..];
      [ys[0]] + Insert(x, ys[1..], key)
  }

  /** Every element of `Insert(x, ys)` is `x` or an element of `ys`. */
  lemma InsertMembers<T>(x: T, ys: seq<T>, key: T -> int, z: T)
    requires z in Insert(x, ys, key)
    ensures z == x || z in ys
  {
    assert z in multiset(Insert(x, ys, key));
  }

  lemma {:induction false} InsertSorted<T>(x: T, ys: seq<T>, key: T -> int)
    requires NonIncreasing(ys, key)
    ensures NonIncreasing(Insert(x, ys, key), key)
  {
    if |ys| > 0 && key(ys[0]) > key(x) {
      var rest := Insert(x, ys[1..], key);
      InsertSorted(x, ys[1..], key);
      var r := [ys[0]] + rest;
      forall i, j | 0 <= i < j < |r|
        ensures key(r[i]) >= key(r[j])
      {
        if i == 0 {
          InsertMembers(x, ys[1..], key, r[j]);
        } else {
          assert r[i] == rest[i - 1] && r[j] == rest[j - 1];
        }
      }
    }
  }

  /** `sorted(xs, key=key, reverse=True)`: Python's sort is stable even when
      reversed, so equal keys keep their input order. */
  function SortDesc<T>(xs: seq<T>, key: T -> int): (r: seq<T>)
    ensures multiset(r) == multiset(xs)
    ensures |r| == |xs|
    ensures NonIncreasing(r, key)
  {
    if |xs| == 0 then []
    else
      assert xs == [xs[0]] + xs[1..];
      var rest := SortDesc(xs[1..], key);
      InsertSorted(xs[0], rest, key);
      Insert(xs[0], rest, key)
  }

  lemma {:induction false} InsertRanked<T>(x: T, ys: seq<T>, key: T -> int, rank: T -> int)
    requires RankedBy(ys, key, rank)
    requires forall i :: 0 <= i < |ys| ==> rank(x) < rank(ys[i])
    ensures RankedBy(Insert(x, ys, key), key, rank)
  {
    if |ys| > 0 && key(ys[0]) > key(x) {
      var rest := Insert(x, ys[1..], key);
      InsertRanked(x, ys[1..], key, rank);
      var r := [ys[0]] + rest;
      forall i, j | 0 <= i < j < |r|
        ensures key(r[i]) > key(r[j]) || (key(r[i]) == key(r[j]) && rank(r[i]) < rank(r[j]))
      {
        if i == 0 {
          InsertMembers(x, ys[1..], key, r[j]);
          if r[j] != x {
            var k :| 0 <= k < |ys[1..]| && ys[1..][k] == r[j];
            assert ys[k + 1] == r[j];
          }
        } else {
          assert r[i] == rest[i - 1] && r[j] == rest[j - 1];
        }
      }
    }
  }

  /** Stability: when the input lists elements in increasing `rank`, the sorted
      list is ordered by descending key and, among equal keys, by `rank`. */
  lemma {:induction false} SortDescStable<T>(xs: seq<T>, key: T -> int, rank: T -> int)
    requires Increasing(xs, rank)
    ensures RankedBy(SortDesc(xs, key), key, rank)
  {
    if |xs| > 0 {
      var sorted := SortDesc(xs[1..], key);
      SortDescStable(xs[1..], key, rank);
      forall i | 0 <= i < |sorted|
        ensures rank(xs[0]) < rank(sorted[i])
      {
        assert sorted[i] in multiset(xs[1..]);
        var k :| 0 <= k < |xs[1..]| && xs[1..][k] == sorted[i];
        assert xs[1..][k] == xs[k + 1];
      }
      InsertRanked(xs[0], sorted, key, rank);
    }
  }

  /** Sorting a list that is already in descending order changes nothing. */
  lemma {:induction false} SortDescOfSorted<T>(xs: seq<T>, key: T -> int)
    requires NonIncreasing(xs, key)
    ensures SortDesc(xs, key) == xs
  {
    if |xs| > 0 {
      SortDescOfSorted(xs[1..], key);
      assert [xs[0]] + xs[1..] == xs;
    }
  }

  /** `xs[:n]`, negative `n` counting from the end. */
  function Slice<T>(xs: seq<T>, n: int): (r: seq<T>)
    ensures |r| <= |xs|
    ensures n >= 0 ==> |r| == if n < |xs| then n else |xs|
    ensures n < 0 ==> |r| == if |xs| + n > 0 then |xs| + n else 0
    ensures r == xs[..|r|]
  {
    if n >= 0 then (if n < |xs| then xs[..n] else xs)
    else if |xs| + n > 0 then xs[..|xs| + n] else []
  }

  /** `Counter.most_common(n)`: nothing for `n <= 0`, otherwise the `n` highest
      counts, equal counts in the order the Counter first saw them (the
      tie order `heapq.nlargest` and the stable sort behind it give). */
  function MostCommon<T>(items: seq<T>, count: T -> int, n: int): (r: seq<T>)
    ensures |r| == (if n <= 0 then 0 else if n < |items| then n else |items|)
    ensures multiset(r) <= multiset(items)
    ensures NonIncreasing(r, count)
  {
    if n <= 0 then []
    else
      var s := SortDesc(items, count);
      var r := Slice(s, n);
      PrefixIsTop(s, |r|, count);
      r
  }

  /** `most_common(n)` holds the top of the counter: everything left out
      counts no more than anything kept. */
  lemma MostCommonIsTop<T>(items: seq<T>, count: T -> int, n: int)
    ensures var r := MostCommon(items, count, n);
            && |r| == (if n <= 0 then 0 else if n < |items| then n else |items|)
            && multiset(r) <= multiset(items)
            && NonIncreasing(r, count)
            && forall x :: x in multiset(items) - multiset(r) ==>
                 forall y :: y in r ==> count(y) >= count(x)
  {
    if n > 0 {
      var s := SortDesc(items, count);
      var r := Slice(s, n);
      PrefixIsTop(s, |r|, count);
      assert r == s[..|r|];
    }
  }

  /** With the entries listed in increasing `rank` (first seen first),
      `most_common(n)` is ordered by count and then by rank, and at the cut an
      entry is kept ahead of every entry with the same count and a later rank:
      `heapq.nlargest`, which `most_common` uses, keeps the first of equals. */
  lemma MostCommonTies<T>(items: seq<T>, count: T -> int, rank: T -> int, n: int)
    requires Increasing(items, rank)
    ensures var r := MostCommon(items, count, n);
            && RankedBy(r, count, rank)
            && forall x :: x in multiset(items) - multiset(r) ==>
                 forall y :: y in r ==> count(y) > count(x) || (count(y) == count(x) && rank(y) < rank(x))
  {
    if n > 0 {
      var s := SortDesc(items, count);
      var r := Slice(s, n);
      SortDescStable(items, count, rank);
      assert r == s[..|r|];
      RankedPrefix(s, |r|, count, rank);
      PrefixOutranks(s, |r|, count, rank);
    }
  }

  /** Two entries with equal counts: `most_common(1)` keeps the one seen first. */
  lemma MostCommonTieExample(a: string, b: string)
    requires a != b
    ensures var items := [(a, 2), (b, 2)];
            MostCommon(items, (p: (string, int)) => p.1, 1) == [(a, 2)]
  {
    var items := [(a, 2), (b, 2)];
    var count := (p: (string, int)) => p.1;
    var rank := (p: (string, int)) => if p == (a, 2) then 0 else 1;
    MostCommonTies(items, count, rank, 1);
    var r := MostCommon(items, count, 1);
    assert |r| == 1;
    assert r[0] in multiset(items);
  }

  lemma RankedPrefix<T>(xs: seq<T>, n: nat, key: T -> int, rank: T -> int)
    requires n <= |xs| && RankedBy(xs, key, rank)
    ensures RankedBy(xs[..n], key, rank)
  {
    assert forall i :: 0 <= i < n ==> xs[..n][i] == xs[i];
  }

  /** Everything a prefix of a ranked list leaves out is outranked by
      everything the prefix keeps. */
  lemma PrefixOutranks<T>(s: seq<T>, m: nat, key: T -> int, rank: T -> int)
    requires m <= |s| && RankedBy(s, key, rank)
    ensures forall x :: x in multiset(s) - multiset(s[..m]) ==>
              forall y :: y in s[..m] ==> key(y) > key(x) || (key(y) == key(x) && rank(y) < rank(x))
  {
    forall x | x in multiset(s) - multiset(s[..m])
      ensures forall y :: y in s[..m] ==> key(y) > key(x) || (key(y) == key(x) && rank(y) < rank(x))
    {
      var k := LeftOutIsLater(s, m, x);
      forall y | y in s[..m]
        ensures key(y) > key(x) || (key(y) == key(x) && rank(y) < rank(x))
      {
        var j := KeptIsEarlier(s, m, y);
      }
    }
  }

  /** What a prefix leaves out sits at or after the cut. */
  lemma LeftOutIsLater<T>(s: seq<T>, m: nat, x: T) returns (k: nat)
    requires m <= |s| && x in multiset(s) - multiset(s[..m])
    ensures m <= k < |s| && s[k] == x
  {
    assert s == s[..m] + s[m..];
    assert multiset(s) == multiset(s[..m]) + multiset(s[m..]);
    assert x in multiset(s[m..]);
    var i :| 0 <= i < |s[m..]| && s[m..][i] == x;
    k := m + i;
  }

  /** What a prefix keeps sits before the cut. */
  lemma KeptIsEarlier<T>(s: seq<T>, m: nat, y: T) returns (j: nat)
    requires m <= |s| && y in s[..m]
    ensures j < m && s[j] == y
  {
    var i :| 0 <= i < m && s[..m][i] == y;
    j := i;
  }

  /** A prefix of a list in descending order holds its top. */
  lemma PrefixIsTop<T>(s: seq<T>, m: nat, count: T -> int)
    requires m <= |s| && NonIncreasing(s, count)
    ensures multiset(s[..m]) <= multiset(s)
    ensures NonIncreasing(s[..m], count)
    ensures forall x :: x in multiset(s) - multiset(s[..m]) ==>
              forall y :: y in s[..m] ==> count(y) >= count(x)
  {
    var r := s[..m];
    assert s == r + s[m..];
    assert multiset(s) == multiset(r) + multiset(s[m..]);
    forall x | x in multiset(s) - multiset(r)
      ensures forall y :: y in r ==> count(y) >= count(x)
    {
      var k := LeftOutIsLater(s, m, x);
      forall y | y in r
        ensures count(y) >= count(x)
      {
        var j := KeptIsEarlier(s, m, y);
      }
    }
  }

  /** Every element of a sub-multiset is an element of the whole. */
  lemma SubMembers<T>(part: seq<T>, whole: seq<T>)
    requires multiset(part) <= multiset(whole)
    ensures forall x :: x in part ==> x in whole
  {
    forall x | x in part ensures x in whole {
      assert x in multiset(part);
    }
  }

  /** A sub-multiset that misses an element is strictly smaller. */
  lemma SubMultisetShorter<T>(part: seq<T>, whole: seq<T>, x: T)
    requires multiset(part) <= multiset(whole)
    requires x in whole && x !in part
    ensures |part| < |whole|
  {
    var rest := multiset(whole) - multiset(part);
    assert multiset(whole) == multiset(part) + rest;
    assert x in rest;
  }

  /** The elements of `xs` that satisfy `p`, in order. */
  function Filter<T>(xs: seq<T>, p: T -> bool): (r: seq<T>)
    ensures |r| <= |xs|
    ensures forall i :: 0 <= i < |r| ==> r[i] in xs && p(r[i])
    ensures forall i :: 0 <= i < |xs| && p(xs[i]) ==> xs[i] in r
    ensures multiset(r) <= multiset(xs)
  {
    if |xs| == 0 then []
    else
      var rest := Filter(xs[1..], p);
      FilterStep(xs, rest, p);
      if p(xs[0]) then [xs[0]] + rest else rest
  }

  /** One step of `Filter`: what holds of the tail carries over to the list. */
  lemma FilterStep<T>(xs: seq<T>, rest: seq<T>, p: T -> bool)
    requires |xs| > 0
    requires |rest| <= |xs[1..]|
    requires forall i :: 0 <= i < |rest| ==> rest[i] in xs[1..] && p(rest[i])
    requires forall i :: 0 <= i < |xs[1..]| && p(xs[1..][i]) ==> xs[1..][i] in rest
    requires multiset(rest) <= multiset(xs[1..])
    ensures var r := if p(xs[0]) then [xs[0]] + rest else rest;
            && |r| <= |xs|
            && (forall i :: 0 <= i < |r| ==> r[i] in xs && p(r[i]))
            && (forall i :: 0 <= i < |xs| && p(xs[i]) ==> xs[i] in r)
            && multiset(r) <= multiset(xs)
  {
    assert xs == [xs[0]] + xs[1..];
    var r := if p(xs[0]) then [xs[0]] + rest else rest;
    forall i | 0 <= i < |r| ensures r[i] in xs && p(r[i]) {
      if p(xs[0]) && i > 0 {
        assert r[i] == rest[i - 1];
      }
    }
    forall i | 0 <= i < |xs| && p(xs[i]) ensures xs[i] in r {
      if i > 0 {
        assert xs[i] == xs[1..][i - 1];
      }
    }
  }

  /** Splitting the last element off a concatenation. */
  lemma SplitLast<T>(a: seq<T>, b: seq<T>)
    requires |b| > 0
    ensures a + b == a + b[..|b| - 1] + [b[|b| - 1]]
    ensures (a + b)[..|a + b| - 1] == a + b[..|b| - 1]
    ensures (a + b)[|a + b| - 1] == b[|b| - 1]
  {
  }
}
