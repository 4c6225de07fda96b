/** Stable descending order of scores, as sorted() with reverse=True or key (-score, index) gives it. */
module Ranking {

  function Range(n: nat): (r: seq<int>)
    ensures |r| == n && forall i :: 0 <= i < n ==> r[i] == i
  {
    seq(n, i => i)
  }

  predicate Distinct(s: seq<int>) {
    forall i, j :: 0 <= i < j < |s| ==> s[i] != s[j]
  }

  /** a is ranked before b: a higher score, or an equal score and a smaller index. */
  predicate Before(scores: seq<real>, a: int, b: int) {
    && 0 <= a < |scores| && 0 <= b < |scores|
    && (scores[a] > scores[b] || (scores[a] == scores[b] && a < b))
  }

  predicate Sorted(scores: seq<real>, order: seq<int>) {
    && (forall i :: 0 <= i < |order| ==> 0 <= order[i] < |scores|)
    && (forall i, j :: 0 <= i < j < |order| ==> Before(scores, order[i], order[j]))
  }

  predicate IsStableOrder(scores: seq<real>, order: seq<int>) {
    multiset(order) == multiset(Range(|scores|)) && Sorted(scores, order)
  }

  function Insert(scores: seq<real>, order: seq<int>, k: int): seq<int>
    requires 0 <= k < |scores| && Sorted(scores, order)
  {
    if order == [] then [k]
    else if scores[order[0]] < scores[k] then [k] + order
    else [order[0]] + Insert(scores, order[1..], k)
  }

  function OrderPrefix(scores: seq<real>, n: nat): (order: seq<int>)
    requires n <= |scores|
    ensures Sorted(scores, order) && multiset(order) == multiset(Range(n))
  {
    if n == 0 then [] else
      var order := OrderPrefix(scores, n - 1);
      PrefixGrows(scores, order, n - 1);
      Insert(scores, order, n - 1)
  }

  function StableOrder(scores: seq<real>): (order: seq<int>)
    ensures IsStableOrder(scores, order)
  {
    OrderPrefix(scores, |scores|)
  }

  lemma {:induction false} MembersOf(a: seq<int>, b: seq<int>)
    requires multiset(a) == multiset(b)
    ensures forall x :: x in a <==> x in b
    ensures |a| == |b|
  {
    forall x ensures x in a <==> x in b {
      assert x in a <==> x in multiset(a);
      assert x in b <==> x in multiset(b);
    }
    assert |multiset(a)| == |a| && |multiset(b)| == |b|;
  }

  lemma {:induction false} PrefixGrows(scores: seq<real>, order: seq<int>, k: nat)
    requires k < |scores| && Sorted(scores, order) && multiset(order) == multiset(Range(k))
    ensures Sorted(scores, Insert(scores, order, k))
    ensures multiset(Insert(scores, order, k)) == multiset(Range(k + 1))
  {
    forall x | x in order ensures x < k {
      assert x in multiset(order);
      assert x in Range(k);
    }
    InsertKeeps(scores, order, k);
    InsertAdds(scores, order, k);
    assert Range(k + 1) == Range(k) + [k];
  }

  lemma {:induction false} Prepend(scores: seq<real>, head: int, tail: seq<int>)
    requires 0 <= head < |scores| && Sorted(scores, tail)
    requires forall x :: x in tail ==> Before(scores, head, x)
    ensures Sorted(scores, [head] + tail)
  {
    var all := [head] + tail;
    forall i, j | 0 <= i < j < |all| ensures Before(scores, all[i], all[j]) {
      assert all[j] == tail[j - 1];
      if i == 0 {
        assert tail[j - 1] in tail;
      } else {
        assert all[i] == tail[i - 1];
      }
    }
  }

  lemma {:induction false} InsertAdds(scores: seq<real>, order: seq<int>, k: nat)
    requires k < |scores| && Sorted(scores, order)
    ensures multiset(Insert(scores, order, k)) == multiset(order) + multiset{k}
    decreases |order|
  {
    if order != [] {
      var head, rest := order[0], order[1..];
      assert order == [head] + rest;
      if scores[head] >= scores[k] {
        TailSorted(scores, order);
        InsertAdds(scores, rest, k);
      }
    }
  }

  lemma {:induction false} InsertMembers(scores: seq<real>, order: seq<int>, k: nat, x: int)
    requires k < |scores| && Sorted(scores, order) && x in Insert(scores, order, k)
    ensures x in order || x == k
  {
    InsertAdds(scores, order, k);
    assert x in multiset(Insert(scores, order, k));
  }

  lemma {:induction false} InsertKeeps(scores: seq<real>, order: seq<int>, k: nat)
    requires k < |scores| && Sorted(scores, order) && forall x :: x in order ==> x < k
    ensures Sorted(scores, Insert(scores, order, k))
    decreases |order|
  {
    if order != [] {
      var head, rest := order[0], order[1..];
      if scores[head] < scores[k] {
        forall x | x in order ensures Before(scores, k, x) {
          HeadIsFirst(scores, order, x);
        }
        Prepend(scores, k, order);
      } else {
        TailSorted(scores, order);
        assert forall x :: x in rest ==> x in order;
        InsertKeeps(scores, rest, k);
        assert head in order;
        forall x | x in Insert(scores, rest, k) ensures Before(scores, head, x) {
          InsertMembers(scores, rest, k, x);
          if x != k {
            HeadBeforeTail(scores, order, x);
          }
        }
        Prepend(scores, head, Insert(scores, rest, k));
      }
    }
  }

  lemma {:induction false} HeadBeforeTail(scores: seq<real>, order: seq<int>, x: int)
    requires Sorted(scores, order) && order != [] && x in order[1..]
    ensures Before(scores, order[0], x)
  {
    var i :| 0 <= i < |order| - 1 && order[1..][i] == x;
    assert Before(scores, order[0], order[i + 1]);
  }

  lemma {:induction false} HeadIsFirst(scores: seq<real>, order: seq<int>, x: int)
    requires Sorted(scores, order) && x in order
    ensures x == order[0] || Before(scores, order[0], x)
  {
    var i :| 0 <= i < |order| && order[i] == x;
    if i > 0 {
      assert Before(scores, order[0], order[i]);
    }
  }

  lemma {:induction false} TailMultiset(s: seq<int>)
    requires s != []
    ensures multiset(s[1..]) == multiset(s) - multiset{s[0]}
  {
    assert s == [s[0]] + s[1..];
  }

  lemma {:induction false} TailSorted(scores: seq<real>, order: seq<int>)
    requires Sorted(scores, order) && order != []
    ensures Sorted(scores, order[1..])
  {
    forall i, j | 0 <= i < j < |order| - 1 ensures Before(scores, order[1..][i], order[1..][j]) {
      assert Before(scores, order[i + 1], order[j + 1]);
    }
  }

  /** There is only one stable order: any correct sort gives the same ranking. */
  lemma {:induction false} SortedUnique(scores: seq<real>, a: seq<int>, b: seq<int>)
    requires Sorted(scores, a) && Sorted(scores, b) && multiset(a) == multiset(b)
    ensures a == b
    decreases |a|
  {
    assert |a| == |b| by { MembersOf(a, b); }
    if a != [] {
      assert a[0] == b[0] by {
        MembersOf(a, b);
        HeadIsFirst(scores, a, b[0]);
        HeadIsFirst(scores, b, a[0]);
      }
      assert multiset(a[1..]) == multiset(b[1..]) by {
        TailMultiset(a);
        TailMultiset(b);
      }
      assert Sorted(scores, a[1..]) && Sorted(scores, b[1..]) by {
        TailSorted(scores, a);
        TailSorted(scores, b);
      }
      SortedUnique(scores, a[1..], b[1..]);
      assert a == [a[0]] + a[1..] && b == [b[0]] + b[1..];
    }
  }

  lemma {:induction false} StableOrderUnique(scores: seq<real>, order: seq<int>)
    requires IsStableOrder(scores, order)
    ensures order == StableOrder(scores)
  {
    SortedUnique(scores, order, StableOrder(scores));
  }

  lemma {:induction false} SortedDistinct(scores: seq<real>, order: seq<int>)
    requires Sorted(scores, order)
    ensures Distinct(order)
  {
    forall i, j | 0 <= i < j < |order| ensures order[i] != order[j] {
      assert Before(scores, order[i], order[j]);
    }
  }

  /** The position of a row in the order: its rank. */
  function PositionOf(order: seq<int>, row: int): (r: nat)
    requires row in order
    ensures r < |order| && order[r] == row
  {
    if order[0] == row then 0 else 1 + PositionOf(order[1..], row)
  }

  lemma {:induction false} StableOrderCovers(scores: seq<real>)
    ensures |StableOrder(scores)| == |scores|
    ensures Distinct(StableOrder(scores))
    ensures forall i :: 0 <= i < |scores| ==> i in StableOrder(scores)
  {
    MembersOf(StableOrder(scores), Range(|scores|));
    SortedDistinct(scores, StableOrder(scores));
    forall i | 0 <= i < |scores| ensures i in StableOrder(scores) {
      assert Range(|scores|)[i] == i;
    }
  }
}

/**
 Spearman rank correlation in its two implementations:
 _spearman of scripts/querit_legacy_canary_equivalence.py and spearman_rank_correlation of
 scripts/embedding_endpoint_equivalence.py, in exact arithmetic.
 */
module Spearman {
  import opened Foundations
  import opened Ranking

  function Sum(f: int -> int, s: seq<int>): int {
    if s == [] then 0 else Sum(f, s[..|s| - 1]) + f(s[|s| - 1])
  }

  function Same(x: int): int {
    x
  }

  function Square(x: int): int {
    x * x
  }

  /** Position of a value in a ranking: a later duplicate wins, as in a dict comprehension. */
  function Place(ranking: seq<int>, value: int): (r: nat)
    requires value in ranking
    ensures r < |ranking| && ranking[r] == value
  {
    if ranking[|ranking| - 1] == value then |ranking| - 1 else Place(ranking[..|ranking| - 1], value)
  }

  /** For every position in left, the position of the same value in right. */
  function Places(left: seq<int>, right: seq<int>): (p: seq<int>)
    requires forall v :: v in left ==> v in right
    ensures |p| == |left|
  {
    seq(|left|, i requires 0 <= i < |left| => Place(right, left[i]))
  }

  /** The sum over positions i of (i - p[i]) squared. */
  function Gap(p: seq<int>): int {
    if p == [] then 0 else Gap(p[..|p| - 1]) + Square(|p| - 1 - p[|p| - 1])
  }

  function Coefficient(distance: int, count: int): real
    requires count >= 2
  {
    assert count * (count * count - 1) > 0 by { Positive(count); }
    1.0 - 6.0 * distance as real / (count * (count * count - 1)) as real
  }

  ghost predicate Comparable(left: seq<int>, right: seq<int>) {
    |left| == |right| && (forall v :: v in left <==> v in right)
  }

  /** _spearman; None is the "rankings are incomparable" error. */
  function Legacy(left: seq<int>, right: seq<int>): Option<real> {
    var ls, rs := set v | v in left, set v | v in right;
    if |left| != |right| || ls != rs then None
    else if |left| < 2 then Some(1.0)
    else
      assert forall v :: v in left ==> v in ls;
      assert forall v :: v in rs ==> v in right;
      Some(Coefficient(Gap(Places(left, right)), |left|))
  }

  predicate IsPermutation(s: seq<int>) {
    multiset(s) == multiset(Range(|s|))
  }

  /** The summand of the second implementation, for one document. */
  function PlaceGap(a: seq<int>, b: seq<int>, value: int): int {
    if value in a && value in b then Square(Place(a, value) - Place(b, value)) else 0
  }

  function Endpoint(a: seq<int>, b: seq<int>): real
    requires IsPermutation(a) && IsPermutation(b) && |a| == |b|
  {
    if |a| < 2 then 1.0 else Coefficient(Sum(v => PlaceGap(a, b, v), Range(|a|)), |a|)
  }

  // ----- sums do not depend on the order -----

  lemma {:induction false} SumRemove(f: int -> int, s: seq<int>, k: nat)
    requires k < |s|
    ensures Sum(f, s) == Sum(f, s[..k] + s[k + 1..]) + f(s[k])
    decreases |s|
  {
    var most, last := s[..|s| - 1], s[|s| - 1];
    if k == |s| - 1 {
      assert s[..k] + s[k + 1..] == most;
    } else {
      SumRemove(f, most, k);
      var less := s[..k] + s[k + 1..];
      assert less[..|less| - 1] == most[..k] + most[k + 1..];
      assert less[|less| - 1] == last;
    }
  }

  lemma {:induction false} SumRearranges(f: int -> int, a: seq<int>, b: seq<int>)
    requires multiset(a) == multiset(b)
    ensures Sum(f, a) == Sum(f, b)
    decreases |a|
  {
    MembersOf(a, b);
    if a != [] {
      var most, last := a[..|a| - 1], a[|a| - 1];
      assert a == most + [last];
      assert last in b;
      var k :| 0 <= k < |b| && b[k] == last;
      var less := b[..k] + b[k + 1..];
      assert multiset(less) == multiset(most) by {
        RemoveOne(b, k);
        RemoveOne(a, |a| - 1);
        assert a[..|a| - 1] + a[|a|..] == most;
      }
      assert Sum(f, most) == Sum(f, less) by {
        SumRearranges(f, most, less);
      }
      SumRemove(f, b, k);
    }
  }

  lemma {:induction false} RemoveOne(s: seq<int>, k: nat)
    requires k < |s|
    ensures multiset(s[..k] + s[k + 1..]) == multiset(s) - multiset{s[k]}
  {
    assert s == s[..k] + [s[k]] + s[k + 1..];
  }

  lemma {:induction false} DistinctCount(s: seq<int>, x: int)
    requires Distinct(s)
    ensures multiset(s)[x] == if x in s then 1 else 0
    decreases |s|
  {
    if s != [] {
      var most, last := s[..|s| - 1], s[|s| - 1];
      DistinctCount(most, x);
      assert s == most + [last];
      assert last !in most;
    }
  }

  lemma {:induction false} SameElementsSameMultiset(a: seq<int>, b: seq<int>)
    requires Distinct(a) && Distinct(b) && forall x :: x in a <==> x in b
    ensures multiset(a) == multiset(b)
  {
    forall x: int ensures multiset(a)[x] == multiset(b)[x] {
      DistinctCount(a, x);
      DistinctCount(b, x);
    }
  }

  // ----- the identity behind the bounds -----

  /** The sum over positions i of (i + p[i] - (n - 1)) squared: zero for a reversal. */
  function Anti(p: seq<int>, n: int): int {
    if p == [] then 0 else Anti(p[..|p| - 1], n) + Square(|p| - 1 + p[|p| - 1] - (n - 1))
  }

  function Reduced(squares: int, sums: int, n: int, k: int): int {
    2 * squares - 2 * ((n - 1) * sums) + k * ((n - 1) * (n - 1))
  }

  lemma {:induction false} Expand(i: int, q: int, n: int)
    ensures Square(i - q) + Square(i + q - (n - 1))
            == 2 * (Square(i) + Square(q)) - 2 * ((n - 1) * (i + q)) + (n - 1) * (n - 1)
  {
    var m := n - 1;
    assert Square(i - q) == Square(i) - 2 * (i * q) + Square(q);
    assert Square(i + q - m) == Square(i + q) - 2 * (m * (i + q)) + m * m;
    assert Square(i + q) == Square(i) + 2 * (i * q) + Square(q);
  }

  lemma {:induction false} ReducedGrows(squares: int, sums: int, n: int, k: int, square: int, term: int)
    ensures Reduced(squares + square, sums + term, n, k + 1)
            == Reduced(squares, sums, n, k) + 2 * square - 2 * ((n - 1) * term) + (n - 1) * (n - 1)
  {
    var m := n - 1;
    assert m * (sums + term) == m * sums + m * term;
    assert (k + 1) * (m * m) == k * (m * m) + m * m;
  }

  lemma {:induction false} GapPlusAnti(p: seq<int>, n: int)
    ensures Gap(p) + Anti(p, n)
            == Reduced(Sum(Square, Range(|p|)) + Sum(Square, p), Sum(Same, Range(|p|)) + Sum(Same, p), n, |p|)
    decreases |p|
  {
    if p != [] {
      var most, q, i := p[..|p| - 1], p[|p| - 1], |p| - 1;
      GapPlusAnti(most, n);
      Expand(i, q, n);
      assert Range(|p|)[..|p| - 1] == Range(i);
      var squares := Sum(Square, Range(i)) + Sum(Square, most);
      var sums := Sum(Same, Range(i)) + Sum(Same, most);
      assert Sum(Square, Range(|p|)) + Sum(Square, p) == squares + (Square(i) + Square(q));
      assert Sum(Same, Range(|p|)) + Sum(Same, p) == sums + (i + q);
      ReducedGrows(squares, sums, n, i, Square(i) + Square(q), i + q);
    }
  }

  lemma {:induction false} RangeSums(n: nat)
    ensures 2 * Sum(Same, Range(n)) == n * (n - 1)
    ensures 6 * Sum(Square, Range(n)) == n * (n - 1) * (2 * n - 1)
  {
    if n > 0 {
      RangeSums(n - 1);
      assert Range(n)[..n - 1] == Range(n - 1);
      assert n * (n - 1) == (n - 1) * (n - 2) + 2 * (n - 1);
      assert n * (n - 1) * (2 * n - 1) == (n - 1) * (n - 2) * (2 * n - 3) + 6 * ((n - 1) * (n - 1)) by {
        Cubic(n);
      }
    }
  }

  lemma {:induction false} Cubic(n: int)
    ensures n * (n - 1) * (2 * n - 1) == (n - 1) * (n - 2) * (2 * n - 3) + 6 * ((n - 1) * (n - 1))
  {
    var m := n - 1;
    assert n * m * (2 * n - 1) == m * ((m + 1) * (2 * m + 1));
    assert (m + 1) * (2 * m + 1) == 2 * (m * m) + 3 * m + 1;
    assert m * (n - 2) * (2 * n - 3) == m * ((m - 1) * (2 * m - 1));
    assert (m - 1) * (2 * m - 1) == 2 * (m * m) - 3 * m + 1;
    assert m * (2 * (m * m) + 3 * m + 1) == m * (2 * (m * m) - 3 * m + 1) + 6 * (m * m);
  }

  lemma {:induction false} Positive(n: int)
    requires n >= 2
    ensures n * (n * n - 1) > 0
  {
    assert n * n >= 4;
  }

  /** For a permutation of positions the two sums of squares always add up to the same number. */
  lemma {:induction false} PermutationIdentity(p: seq<int>)
    requires IsPermutation(p)
    ensures 3 * (Gap(p) + Anti(p, |p|)) == |p| * (|p| * |p| - 1)
  {
    var n := |p|;
    var s1, s2 := Sum(Same, Range(n)), Sum(Square, Range(n));
    assert Gap(p) + Anti(p, n) == Reduced(s2 + s2, s1 + s1, n, n) by {
      GapPlusAnti(p, n);
      SumRearranges(Same, p, Range(n));
      SumRearranges(Square, p, Range(n));
    }
    RangeSums(n);
    Substitute(s1, s2, n);
  }

  /** The substitution of the two sums, over plain integers. */
  lemma {:induction false} Substitute(s1: int, s2: int, n: int)
    ensures 2 * s1 == n * (n - 1) && 6 * s2 == n * (n - 1) * (2 * n - 1) ==>
              3 * Reduced(s2 + s2, s1 + s1, n, n) == n * (n * n - 1)
  {
    if 2 * s1 == n * (n - 1) && 6 * s2 == n * (n - 1) * (2 * n - 1) {
      assert s2 + s2 == 2 * s2 && s1 + s1 == n * (n - 1);
      Finish(n, s2);
    }
  }

  lemma {:induction false} Finish(n: int, s2: int)
    requires 6 * s2 == n * (n - 1) * (2 * n - 1)
    ensures 3 * Reduced(2 * s2, n * (n - 1), n, n) == n * (n * n - 1)
  {
    var m := n - 1;
    var a := n * m;
    assert 6 * s2 == a * (2 * n - 1);
    assert m * (n * m) == a * m;
    assert n * (m * m) == a * m;
    assert 3 * Reduced(2 * s2, n * m, n, n) == 12 * s2 - 6 * (a * m) + 3 * (a * m);
    assert a * (2 * n - 1) == 2 * (a * n) - a;
    assert a * m == a * n - a;
    assert 3 * Reduced(2 * s2, n * m, n, n) == a * n + a;
    assert n * (n * n - 1) == a * (n + 1) by {
      assert n * n - 1 == m * (n + 1);
      assert n * (m * (n + 1)) == n * m * (n + 1);
    }
  }

  lemma {:induction false} GapZero(p: seq<int>)
    ensures Gap(p) >= 0
    ensures Gap(p) == 0 <==> forall i :: 0 <= i < |p| ==> p[i] == i
    decreases |p|
  {
    if p != [] {
      var most, q, i := p[..|p| - 1], p[|p| - 1], |p| - 1;
      GapZero(most);
      SquareZero(i - q);
      assert forall j :: 0 <= j < i ==> most[j] == p[j];
    }
  }

  lemma {:induction false} SquareZero(x: int)
    ensures Square(x) >= 0
    ensures Square(x) == 0 <==> x == 0
  {
  }

  lemma {:induction false} AntiZero(p: seq<int>, n: int)
    ensures Anti(p, n) >= 0
    ensures Anti(p, n) == 0 <==> forall i :: 0 <= i < |p| ==> p[i] == n - 1 - i
    decreases |p|
  {
    if p != [] {
      var most, q, i := p[..|p| - 1], p[|p| - 1], |p| - 1;
      AntiZero(most, n);
      SquareZero(i + q - (n - 1));
      assert forall j :: 0 <= j < i ==> most[j] == p[j];
    }
  }

  lemma {:induction false} CoefficientBounds(distance: int, rest: int, n: int)
    requires n >= 2 && distance >= 0 && rest >= 0
    requires 3 * (distance + rest) == n * (n * n - 1)
    ensures -1.0 <= Coefficient(distance, n) <= 1.0
    ensures Coefficient(distance, n) == 1.0 <==> distance == 0
    ensures Coefficient(distance, n) == -1.0 <==> rest == 0
  {
    Positive(n);
    var total := (n * (n * n - 1)) as real;
    var ratio := 6.0 * distance as real / total;
    assert ratio * total == 6.0 * distance as real;
    assert 6.0 * distance as real == 2.0 * total - 6.0 * rest as real;
    Ratio(ratio, total, 6.0 * distance as real, 6.0 * rest as real);
  }

  lemma {:induction false} Ratio(ratio: real, total: real, part: real, rest: real)
    requires total > 0.0 && part >= 0.0 && rest >= 0.0
    requires ratio * total == part && part == 2.0 * total - rest
    ensures 0.0 <= ratio <= 2.0
    ensures ratio == 0.0 <==> part == 0.0
    ensures ratio == 2.0 <==> rest == 0.0
  {
    assert (2.0 - ratio) * total == rest;
    NonNegative(ratio, total);
    NonNegative(2.0 - ratio, total);
  }

  lemma {:induction false} NonNegative(x: real, total: real)
    requires total > 0.0 && x * total >= 0.0
    ensures x >= 0.0
    ensures x == 0.0 <==> x * total == 0.0
  {
  }

  // ----- the rankings -----

  function Reversed(s: seq<int>): (r: seq<int>)
    ensures |r| == |s|
  {
    seq(|s|, i requires 0 <= i < |s| => s[|s| - 1 - i])
  }

  lemma {:induction false} PlacesPermute(left: seq<int>, right: seq<int>)
    requires Distinct(left) && Distinct(right) && Comparable(left, right)
    ensures IsPermutation(Places(left, right))
  {
    var p := Places(left, right);
    assert Distinct(p) by {
      forall i, j | 0 <= i < j < |p| ensures p[i] != p[j] {
        assert right[p[i]] == left[i] && right[p[j]] == left[j];
      }
    }
    forall x ensures x in p <==> x in Range(|p|) {
      if x in p {
        assert Range(|p|)[x] == x;
      }
      if x in Range(|p|) {
        var v := right[x];
        assert v in right;
        assert v in left;
        var i :| 0 <= i < |left| && left[i] == v;
        assert p[i] == x;
      }
    }
    SameElementsSameMultiset(p, Range(|p|));
  }

  lemma {:induction false} PlacesInOrder(left: seq<int>, right: seq<int>)
    requires Distinct(right) && Comparable(left, right)
    ensures (forall i :: 0 <= i < |left| ==> Places(left, right)[i] == i) <==> left == right
  {
    var p := Places(left, right);
    assert forall i :: 0 <= i < |left| ==> right[p[i]] == left[i];
  }

  lemma {:induction false} PlacesReversed(left: seq<int>, right: seq<int>)
    requires Distinct(right) && Comparable(left, right)
    ensures (forall i :: 0 <= i < |left| ==> Places(left, right)[i] == |left| - 1 - i) <==> right == Reversed(left)
  {
    var p, n := Places(left, right), |left|;
    if forall i :: 0 <= i < n ==> p[i] == n - 1 - i {
      forall j | 0 <= j < n ensures right[j] == Reversed(left)[j] {
        assert p[n - 1 - j] == j;
        assert right[p[n - 1 - j]] == left[n - 1 - j];
      }
      assert right == Reversed(left);
    }
    if right == Reversed(left) {
      forall i | 0 <= i < n ensures p[i] == n - 1 - i {
        assert Reversed(left)[n - 1 - i] == left[i];
        PlaceIs(right, left[i], n - 1 - i);
      }
    }
  }

  lemma {:induction false} PlaceIs(ranking: seq<int>, value: int, at: nat)
    requires Distinct(ranking) && at < |ranking| && ranking[at] == value
    ensures value in ranking && Place(ranking, value) == at
  {}

  /** Bounds and extremes of _spearman on any two rankings of the same distinct items. */
  lemma {:induction false} LegacyBounds(left: seq<int>, right: seq<int>)
    requires Distinct(left) && Distinct(right) && Comparable(left, right) && |left| >= 2
    ensures Legacy(left, right).Some?
    ensures -1.0 <= Legacy(left, right).value <= 1.0
    ensures Legacy(left, right).value == 1.0 <==> left == right
    ensures Legacy(left, right).value == -1.0 <==> right == Reversed(left)
  {
    assert (set v | v in left) == (set v | v in right);
    var p, n := Places(left, right), |left|;
    assert 3 * (Gap(p) + Anti(p, n)) == n * (n * n - 1) by {
      PlacesPermute(left, right);
      PermutationIdentity(p);
    }
    GapZero(p);
    AntiZero(p, n);
    CoefficientBounds(Gap(p), Anti(p, n), n);
    PlacesInOrder(left, right);
    PlacesReversed(left, right);
  }

  /** The sum over positions of the products of twice the distances of i and p[i] from the middle. */
  function Product(p: seq<int>, n: int): int {
    if p == [] then 0
    else Product(p[..|p| - 1], n) + (2 * (|p| - 1) - (n - 1)) * (2 * p[|p| - 1] - (n - 1))
  }

  lemma {:induction false} ProductIsDifference(p: seq<int>, n: int)
    ensures Product(p, n) == Anti(p, n) - Gap(p)
    decreases |p|
  {
    if p != [] {
      var i, q, m := |p| - 1, p[|p| - 1], n - 1;
      ProductIsDifference(p[..|p| - 1], n);
      var a, b := i + q - m, i - q;
      assert (2 * i - m) * (2 * q - m) == (a + b) * (a - b) == a * a - b * b;
    }
  }

  lemma {:induction false} RangeHasNoGap(n: nat)
    ensures Gap(Range(n)) == 0
  {
    if n > 0 {
      assert Range(n)[..n - 1] == Range(n - 1);
      RangeHasNoGap(n - 1);
    }
  }

  predicate IsQuotient(value: Option<real>, product: int, spread: int) {
    match value
    case None => false
    case Some(c) => spread > 0 && c * spread as real == product as real
  }

  /** The value is the sum of products over the spread of a ranking, which is positive and the same for both. */
  predicate IsCorrelation(value: Option<real>, p: seq<int>) {
    IsQuotient(value, Product(p, |p|), Product(Range(|p|), |p|))
  }

  lemma {:induction false} PermutationCorrelates(p: seq<int>)
    requires IsPermutation(p) && |p| >= 2
    ensures IsCorrelation(Some(Coefficient(Gap(p), |p|)), p)
  {
    var n := |p|;
    SpreadOf(n);
    assert 3 * (Gap(p) + Anti(p, n)) == n * (n * n - 1) by {
      PermutationIdentity(p);
    }
    ProductIsDifference(p, n);
    Correlates(Gap(p), Anti(p, n), Product(Range(n), n), n);
  }

  lemma {:induction false} SpreadOf(n: nat)
    ensures 3 * Product(Range(n), n) == n * (n * n - 1)
  {
    PermutationIdentity(Range(n));
    RangeHasNoGap(n);
    ProductIsDifference(Range(n), n);
  }

  lemma {:induction false} LegacyValue(left: seq<int>, right: seq<int>)
    requires Distinct(left) && Distinct(right) && Comparable(left, right) && |left| >= 2
    ensures IsPermutation(Places(left, right)) && |Places(left, right)| == |left|
    ensures Legacy(left, right) == Some(Coefficient(Gap(Places(left, right)), |Places(left, right)|))
  {
    assert (set v | v in left) == (set v | v in right);
    PlacesPermute(left, right);
  }

  /** The formula of the source is the correlation of the two rankings, whose spreads are equal. */
  lemma {:induction false} LegacyIsCorrelation(left: seq<int>, right: seq<int>)
    requires Distinct(left) && Distinct(right) && Comparable(left, right) && |left| >= 2
    ensures IsCorrelation(Legacy(left, right), Places(left, right))
  {
    LegacyValue(left, right);
    PermutationCorrelates(Places(left, right));
  }

  lemma {:induction false} Correlates(gap: int, anti: int, spread: int, n: int)
    requires n >= 2 && 3 * (gap + anti) == n * (n * n - 1) && 3 * spread == n * (n * n - 1)
    ensures IsQuotient(Some(Coefficient(gap, n)), anti - gap, spread)
  {
    Positive(n);
    var total := (n * (n * n - 1)) as real;
    var ratio := 6.0 * gap as real / total;
    assert ratio * total == 6.0 * gap as real && total == 3.0 * spread as real;
    assert ratio * spread as real == 2.0 * gap as real by {
      assert 3.0 * (ratio * spread as real) == ratio * total;
    }
    assert (1.0 - ratio) * spread as real == spread as real - ratio * spread as real;
    assert spread == gap + anti;
  }

  lemma {:induction false} PermutationDistinct(s: seq<int>)
    requires IsPermutation(s)
    ensures Distinct(s)
    ensures forall v :: v in s <==> 0 <= v < |s|
  {
    MembersOf(s, Range(|s|));
    forall v ensures v in s <==> 0 <= v < |s| {
      if 0 <= v < |s| { assert Range(|s|)[v] == v; }
    }
    forall i, j | 0 <= i < j < |s| ensures s[i] != s[j] {
      DistinctCount(Range(|s|), s[i]);
      if s[i] == s[j] {
        Twice(s, i, j);
      }
    }
  }

  lemma {:induction false} Twice(s: seq<int>, i: nat, j: nat)
    requires i < j < |s| && s[i] == s[j]
    ensures multiset(s)[s[i]] >= 2
  {
    assert s == s[..j] + [s[j]] + s[j + 1..];
    assert s[..j][i] == s[i];
    assert s[i] in multiset(s[..j]);
  }

  lemma {:induction false} GapIsSum(a: seq<int>, b: seq<int>, k: nat)
    requires Distinct(a) && (forall v :: v in a ==> v in b) && k <= |a|
    ensures Sum(v => PlaceGap(a, b, v), a[..k]) == Gap(Places(a, b)[..k])
    decreases k
  {
    if k > 0 {
      GapIsSum(a, b, k - 1);
      var p := Places(a, b);
      assert a[..k][..k - 1] == a[..k - 1] && p[..k][..k - 1] == p[..k - 1];
      assert a[k - 1] in a;
      assert Place(a, a[k - 1]) == k - 1;
    }
  }

  /** The two implementations agree on every pair of permutations, and so share the bounds. */
  lemma {:induction false} ImplementationsAgree(a: seq<int>, b: seq<int>)
    requires IsPermutation(a) && IsPermutation(b) && |a| == |b|
    ensures Legacy(a, b) == Some(Endpoint(a, b))
  {
    PermutationDistinct(a);
    PermutationDistinct(b);
    assert (set v | v in a) == (set v | v in b);
    GapIsSum(a, b, |a|);
    assert a[..|a|] == a && Places(a, b)[..|a|] == Places(a, b);
    SumRearranges(v => PlaceGap(a, b, v), a, Range(|a|));
  }

  /** rank_documents gives permutations, so the coefficient of two runs is always in range. */
  lemma {:induction false} DocumentRankingsCompare(similaritiesA: seq<real>, similaritiesB: seq<real>)
    requires |similaritiesA| == |similaritiesB| >= 2
    ensures var a, b := StableOrder(similaritiesA), StableOrder(similaritiesB);
            && |a| == |b| == |similaritiesA| && IsPermutation(a) && IsPermutation(b)
            && -1.0 <= Endpoint(a, b) <= 1.0
            && (Endpoint(a, b) == 1.0 <==> a == b)
  {
    var a, b := StableOrder(similaritiesA), StableOrder(similaritiesB);
    StableOrderCovers(similaritiesA);
    StableOrderCovers(similaritiesB);
    PermutationDistinct(a);
    PermutationDistinct(b);
    ImplementationsAgree(a, b);
    LegacyBounds(a, b);
  }
}
