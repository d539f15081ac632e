/**
 * Rank orderings and Reciprocal Rank Fusion.  An ordering of `n` documents is
 * a permutation of `0..n-1`, best first, as `np.argsort(-scores)` returns it.
 */
module Ranking {

  /** The RRF damping constant `k`. */
  const RrfK: nat := 60

  /** `[0, 1, ..., n-1]`. */
  function Iota(n: nat): (r: seq<nat>)
    ensures |r| == n && forall i :: 0 <= i < n ==> r[i] == i
  {
    seq(n, i requires 0 <= i < n => i)
  }

  lemma {:induction false} IotaCount(n: nat, d: nat)
    ensures multiset(Iota(n))[d] == if d < n then 1 else 0
  {
    if n > 0 {
      assert Iota(n) == Iota(n - 1) + [n - 1];
      IotaCount(n - 1, d);
    }
  }

  /** `order` lists each of the documents `0..n-1` exactly once. */
  ghost predicate IsPermutation(order: seq<nat>, n: nat) {
    multiset(order) == multiset(Iota(n))
  }

  /** In a permutation every document occurs exactly once and nothing else occurs. */
  lemma PermutationOccurrences(order: seq<nat>, n: nat, d: nat)
    requires IsPermutation(order, n)
    ensures multiset(order)[d] == if d < n then 1 else 0
    ensures d < n ==> d in order
  {
    IotaCount(n, d);
  }

  lemma PermutationFacts(order: seq<nat>, n: nat)
    requires IsPermutation(order, n)
    ensures |order| == n
    ensures forall i :: 0 <= i < |order| ==> order[i] < n
    ensures forall i, j :: 0 <= i < j < |order| ==> order[i] != order[j]
  {
    assert |order| == |multiset(order)| == |multiset(Iota(n))| == n;
    forall i | 0 <= i < |order| ensures order[i] < n {
      assert order[i] in multiset(order);
      PermutationOccurrences(order, n, order[i]);
    }
    forall i, j | 0 <= i < j < |order| ensures order[i] != order[j] {
      if order[i] == order[j] {
        var d := order[i];
        assert order == order[..i] + [d] + order[i + 1..j] + [d] + order[j + 1..];
        assert multiset(order)[d] >= 2;
        PermutationOccurrences(order, n, d);
      }
    }
  }

  /** The documents of `order` appear by non-increasing score. */
  ghost predicate SortedDesc(order: seq<nat>, scores: seq<real>) {
    && (forall i :: 0 <= i < |order| ==> order[i] < |scores|)
    && (forall i, j :: 0 <= i < j < |order| ==> scores[order[i]] >= scores[order[j]])
  }

  /** Putting a document no worse than all of a sorted list in front keeps it sorted. */
  lemma SortedCons(head: nat, rest: seq<nat>, scores: seq<real>)
    requires head < |scores| && SortedDesc(rest, scores)
    requires forall j :: 0 <= j < |rest| ==> scores[rest[j]] <= scores[head]
    ensures SortedDesc([head] + rest, scores)
  {
    var r := [head] + rest;
    assert forall i :: 1 <= i < |r| ==> r[i] == rest[i - 1];
  }

  /** Whatever `rest` holds is `x` or an element of `tail`, so it scores at most `head`. */
  lemma BoundedByHead(head: nat, tail: seq<nat>, x: nat, rest: seq<nat>, scores: seq<real>)
    requires head < |scores| && x < |scores| && scores[x] < scores[head]
    requires SortedDesc([head] + tail, scores)
    requires multiset(rest) == multiset(tail) + multiset{x}
    requires forall j :: 0 <= j < |rest| ==> rest[j] < |scores|
    ensures forall j :: 0 <= j < |rest| ==> scores[rest[j]] <= scores[head]
  {
    var sorted := [head] + tail;
    forall j | 0 <= j < |rest|
      ensures scores[rest[j]] <= scores[head]
    {
      var y := rest[j];
      assert y in multiset(rest);
      if y != x {
        assert y in multiset(tail);
        var k :| 0 <= k < |tail| && tail[k] == y;
        assert sorted[0] == head && sorted[k + 1] == y;
      }
    }
  }

  function InsertDesc(x: nat, sorted: seq<nat>, scores: seq<real>): (r: seq<nat>)
    requires x < |scores| && SortedDesc(sorted, scores)
    ensures multiset(r) == multiset(sorted) + multiset{x}
    ensures SortedDesc(r, scores)
  {
    if |sorted| == 0 then [x]
    else if scores[x] >= scores[sorted[0]] then
      SortedCons(x, sorted, scores);
      [x] + sorted
    else
      var head, tail := sorted[0], sorted[1..];
      assert sorted == [head] + tail;
      var rest := InsertDesc(x, tail, scores);
      BoundedByHead(head, tail, x, rest, scores);
      SortedCons(head, rest, scores);
      [head] + rest
  }

  function SortDesc(xs: seq<nat>, scores: seq<real>): (r: seq<nat>)
    requires forall i :: 0 <= i < |xs| ==> xs[i] < |scores|
    ensures multiset(r) == multiset(xs)
    ensures SortedDesc(r, scores)
  {
    if |xs| == 0 then []
    else
      assert xs == [xs[0]] + xs[1..];
      InsertDesc(xs[0], SortDesc(xs[1..], scores), scores)
  }

  /**
   * `np.argsort(-scores)`: the documents best first.  The order among equal
   * scores is not part of the contract (numpy's default sort is not stable).
   */
  function ArgsortDesc(scores: seq<real>): (order: seq<nat>)
    ensures IsPermutation(order, |scores|)
    ensures SortedDesc(order, scores)
  {
    SortDesc(Iota(|scores|), scores)
  }

  /** Sum of `1/(k + rank)` over the first `p` positions of `order` that hold `d` (rank counted from 1). */
  function PrefixContribution(order: seq<nat>, d: nat, p: nat): real
    requires p <= |order|
  {
    if p == 0 then 0.0
    else PrefixContribution(order, d, p - 1) + (if order[p - 1] == d then 1.0 / (RrfK + p) as real else 0.0)
  }

  /** What one ranking adds to document `d`'s fused score. */
  function Contribution(order: seq<nat>, d: nat): real {
    PrefixContribution(order, d, |order|)
  }

  /** Fused score of `d` over the first `r` rankings. */
  function RrfPrefix(ranks: seq<seq<nat>>, d: nat, r: nat): real
    requires r <= |ranks|
  {
    if r == 0 then 0.0 else RrfPrefix(ranks, d, r - 1) + Contribution(ranks[r - 1], d)
  }

  /** `score[d] = sum over rankings of 1/(k + rank of d)`. */
  function RrfScore(ranks: seq<seq<nat>>, d: nat): real {
    RrfPrefix(ranks, d, |ranks|)
  }

  /**
   * `_rrf(ranks, n_docs)`: accumulates `1/(k + rank)` into a zeroed score
   * vector, ranking by ranking and position by position.
   */
  method Rrf(ranks: seq<seq<nat>>, n: nat) returns (scores: seq<real>)
    requires forall r, p :: 0 <= r < |ranks| && 0 <= p < |ranks[r]| ==> ranks[r][p] < n
    ensures |scores| == n
    ensures forall d :: 0 <= d < n ==> scores[d] == RrfScore(ranks, d)
  {
    var acc := new real[n](_ => 0.0);
    var r := 0;
    while r < |ranks|
      invariant 0 <= r <= |ranks|
      invariant forall d :: 0 <= d < n ==> acc[d] == RrfPrefix(ranks, d, r)
    {
      var order := ranks[r];
      var p := 0;
      while p < |order|
        invariant 0 <= p <= |order|
        invariant forall d :: 0 <= d < n ==> acc[d] == RrfPrefix(ranks, d, r) + PrefixContribution(order, d, p)
      {
        var idx := order[p];
        acc[idx] := acc[idx] + 1.0 / (RrfK + p + 1) as real;
        p := p + 1;
      }
      r := r + 1;
    }
    scores := acc[..];
  }

  lemma RecipAntitone(a: real, b: real)
    requires 0.0 < a <= b
    ensures 1.0 / b <= 1.0 / a
  {
    calc {
      1.0 / b;
    == (1.0 / a) * (a / b);
    <= { assert a / b <= 1.0; } 1.0 / a;
    }
  }

  /**
   * Within the first `p` positions a document that occurs once contributes
   * between `1/(k+p)` and `1/(k+1)`, and one that does not occur contributes 0.
   */
  lemma {:induction false} PrefixContributionBounds(order: seq<nat>, d: nat, p: nat)
    requires p <= |order|
    ensures multiset(order[..p])[d] == 0 ==> PrefixContribution(order, d, p) == 0.0
    ensures multiset(order[..p])[d] == 1 ==>
      1.0 / (RrfK + p) as real <= PrefixContribution(order, d, p) <= 1.0 / (RrfK + 1) as real
  {
    if p > 0 {
      PrefixContributionBounds(order, d, p - 1);
      assert order[..p] == order[..p - 1] + [order[p - 1]];
      RecipAntitone((RrfK + 1) as real, (RrfK + p) as real);
      RecipAntitone((RrfK + p - 1) as real, (RrfK + p) as real);
    }
  }

  /** A ranking that is a permutation of `n` documents gives each of them between `1/(k+n)` and `1/(k+1)`. */
  lemma ContributionOfPermutation(order: seq<nat>, n: nat, d: nat)
    requires IsPermutation(order, n) && d < n
    ensures 1.0 / (RrfK + n) as real <= Contribution(order, d) <= 1.0 / (RrfK + 1) as real
  {
    PermutationOccurrences(order, n, d);
    PermutationFacts(order, n);
    assert order[..|order|] == order;
    PrefixContributionBounds(order, d, |order|);
  }

  /**
   * Fusing two rankings of `n` documents gives every document a score in
   * `[2/(k+n), 2/(k+1)]`, that is `[2/(60+n), 2/61]`.
   */
  lemma TwoRankingBounds(first: seq<nat>, second: seq<nat>, n: nat, d: nat)
    requires IsPermutation(first, n) && IsPermutation(second, n) && d < n
    ensures 2.0 / (RrfK + n) as real <= RrfScore([first, second], d) <= 2.0 / 61.0
  {
    ContributionOfPermutation(first, n, d);
    ContributionOfPermutation(second, n, d);
    var ranks := [first, second];
    assert RrfPrefix(ranks, d, 1) == Contribution(first, d);
    assert RrfScore(ranks, d) == RrfPrefix(ranks, d, 1) + Contribution(second, d);
  }

  /** `2/(60+n)`: the fused score of a document ranked last of `n` in both rankings. */
  function FusedFloor(n: nat): real {
    2.0 / (RrfK + n) as real
  }

  /**
   * The hybrid score of the two backends: RRF over the best-first orderings
   * of two score vectors.  Every document ends in `[2/(60+n), 2/61]`.
   */
  function FusedScores(a: seq<real>, b: seq<real>): (r: seq<real>)
    requires |a| == |b|
    ensures |r| == |a|
    ensures forall d :: 0 <= d < |a| ==> r[d] == RrfScore([ArgsortDesc(a), ArgsortDesc(b)], d)
    ensures forall d :: 0 <= d < |a| ==> FusedFloor(|a|) <= r[d] <= 2.0 / 61.0
  {
    var first, second := ArgsortDesc(a), ArgsortDesc(b);
    AllTwoRankingBounds(first, second, |a|);
    seq(|a|, d requires 0 <= d < |a| => RrfScore([first, second], d))
  }

  lemma AllTwoRankingBounds(first: seq<nat>, second: seq<nat>, n: nat)
    requires IsPermutation(first, n) && IsPermutation(second, n)
    ensures forall d :: 0 <= d < n ==> FusedFloor(n) <= RrfScore([first, second], d) <= 2.0 / 61.0
  {
    forall d | 0 <= d < n
      ensures FusedFloor(n) <= RrfScore([first, second], d) <= 2.0 / 61.0
    {
      TwoRankingBounds(first, second, n, d);
    }
  }
}
