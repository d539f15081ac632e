/**
 * Score vectors: the sparse (BM25) scorer with its max-normalisation, the
 * token-set Jaccard fallback, and the min-max normalisation of dense scores.
 */
module Scoring {
  import opened Wrappers
  import opened Tokenizer
  import opened Foreign
  import opened RealArith

  /** The gap below which a dense score range counts as collapsed (`1e-9`). */
  const Epsilon: real := 0.000000001

  function SeqMax(s: seq<real>): (m: real)
    requires |s| > 0
    ensures forall i :: 0 <= i < |s| ==> s[i] <= m
    ensures exists i :: 0 <= i < |s| && s[i] == m
  {
    if |s| == 1 then s[0]
    else
      var m := SeqMax(s[1..]);
      assert forall i :: 1 <= i < |s| ==> s[i] == s[1..][i - 1];
      if s[0] >= m then s[0] else m
  }

  function SeqMin(s: seq<real>): (m: real)
    requires |s| > 0
    ensures forall i :: 0 <= i < |s| ==> m <= s[i]
    ensures exists i :: 0 <= i < |s| && s[i] == m
  {
    if |s| == 1 then s[0]
    else
      var m := SeqMin(s[1..]);
      assert forall i :: 1 <= i < |s| ==> s[i] == s[1..][i - 1];
      if s[0] <= m then s[0] else m
  }

  /**
   * `scores / mx if mx > 0 else scores` with `mx` the largest score: with a
   * positive maximum every score is at most 1 and the best ones become exactly
   * 1; the order of the documents is kept; otherwise nothing changes.
   */
  function MaxNormalize(scores: seq<real>): (r: seq<real>)
    ensures |r| == |scores|
    ensures |scores| > 0 && SeqMax(scores) > 0.0 ==>
      && (forall i :: 0 <= i < |r| ==> r[i] <= 1.0)
      && (forall i :: 0 <= i < |r| && scores[i] == SeqMax(scores) ==> r[i] == 1.0)
    ensures (|scores| == 0 || SeqMax(scores) <= 0.0) ==> r == scores
    ensures (forall i :: 0 <= i < |scores| ==> scores[i] >= 0.0) ==> forall i :: 0 <= i < |r| ==> 0.0 <= r[i] <= 1.0
    ensures forall i, j :: 0 <= i < |r| && 0 <= j < |r| ==> (scores[i] <= scores[j] <==> r[i] <= r[j])
  {
    var mx := if |scores| > 0 then SeqMax(scores) else 0.0;
    if mx > 0.0 then
      var r := seq(|scores|, i requires 0 <= i < |scores| => scores[i] / mx);
      assert forall i :: 0 <= i < |r| ==> (r[i] <= 1.0 && (scores[i] >= 0.0 ==> r[i] >= 0.0)
                                          && (scores[i] == mx ==> r[i] == 1.0)) by {
        forall i | 0 <= i < |r| { DivBounds(scores[i], mx); }
      }
      assert forall i, j :: 0 <= i < |r| && 0 <= j < |r| ==> (scores[i] <= scores[j] <==> r[i] <= r[j]) by {
        forall i, j | 0 <= i < |r| && 0 <= j < |r| { DivMonotone(scores[i], scores[j], mx); }
      }
      r
    else scores
  }

  function Dot(a: seq<real>, b: seq<real>): real
    requires |a| == |b|
  {
    if |a| == 0 then 0.0 else a[0] * b[0] + Dot(a[1..], b[1..])
  }

  /**
   * The min-max step of `_dense_scores`: `None` for an empty vector (`np.min`
   * raises and the error is absorbed), all zeros when the range is below
   * `1e-9`, otherwise `(s - min) / (max - min)`, which lies in `[0, 1]`, maps
   * the minimum to 0 and the maximum to 1 and keeps the order.
   */
  function MinMaxNormalize(raw: seq<real>): (r: Option<seq<real>>)
    ensures r.None? <==> |raw| == 0
    ensures r.Some? ==> |r.value| == |raw| && forall i :: 0 <= i < |raw| ==> 0.0 <= r.value[i] <= 1.0
    ensures r.Some? && SeqMax(raw) - SeqMin(raw) < Epsilon ==> forall i :: 0 <= i < |raw| ==> r.value[i] == 0.0
    ensures r.Some? && SeqMax(raw) - SeqMin(raw) >= Epsilon ==>
      && (forall i :: 0 <= i < |raw| && raw[i] == SeqMin(raw) ==> r.value[i] == 0.0)
      && (forall i :: 0 <= i < |raw| && raw[i] == SeqMax(raw) ==> r.value[i] == 1.0)
      && (forall i, j :: 0 <= i < |raw| && 0 <= j < |raw| ==> (raw[i] <= raw[j] <==> r.value[i] <= r.value[j]))
  {
    if |raw| == 0 then None
    else
      var mn, mx := SeqMin(raw), SeqMax(raw);
      if mx - mn < Epsilon then Some(seq(|raw|, i requires 0 <= i < |raw| => 0.0))
      else
        Some(Rescale(raw, mn, mx))
  }

  /**
   * `(s - lo) / (hi - lo)` for every score between `lo` and `hi`: the result
   * lies in `[0, 1]`, `lo` goes to 0, `hi` to 1, and the order is kept.
   */
  function Rescale(raw: seq<real>, lo: real, hi: real): (r: seq<real>)
    requires lo < hi && forall i :: 0 <= i < |raw| ==> lo <= raw[i] <= hi
    ensures |r| == |raw|
    ensures forall i :: 0 <= i < |raw| ==>
      0.0 <= r[i] <= 1.0 && (raw[i] == lo ==> r[i] == 0.0) && (raw[i] == hi ==> r[i] == 1.0)
    ensures forall i, j :: 0 <= i < |raw| && 0 <= j < |raw| ==> (raw[i] <= raw[j] <==> r[i] <= r[j])
  {
    var r := seq(|raw|, i requires 0 <= i < |raw| => (raw[i] - lo) / (hi - lo));
    assert forall i :: 0 <= i < |r| ==> (0.0 <= r[i] <= 1.0 && (raw[i] == lo ==> r[i] == 0.0)
                                        && (raw[i] == hi ==> r[i] == 1.0)) by {
      forall i | 0 <= i < |r| { DivBounds(raw[i] - lo, hi - lo); }
    }
    assert forall i, j :: 0 <= i < |r| && 0 <= j < |r| ==> (raw[i] <= raw[j] <==> r[i] <= r[j]) by {
      forall i, j | 0 <= i < |r| && 0 <= j < |r| { DivMonotone(raw[i] - lo, raw[j] - lo, hi - lo); }
    }
    r
  }

  /**
   * `_dense_scores`: `None` when no embeddings were computed at index time,
   * when encoding the query failed, or when the shapes do not match (the
   * product raises and the error is absorbed); otherwise the min-max
   * normalised dot products of the document embeddings with the query's.
   */
  function DenseScores(embeddings: Option<seq<seq<real>>>, query: Option<seq<real>>): (r: Option<seq<real>>)
    ensures r.Some? ==> embeddings.Some? && query.Some? && |r.value| == |embeddings.value|
    ensures r.Some? ==> forall i :: 0 <= i < |r.value| ==> 0.0 <= r.value[i] <= 1.0
  {
    if embeddings.None? || query.None? then None
    else
      var rows, q := embeddings.value, query.value;
      if exists i :: 0 <= i < |rows| && |rows[i]| != |q| then None
      else MinMaxNormalize(seq(|rows|, i requires 0 <= i < |rows| => Dot(rows[i], q)))
  }

  function ToSet(tokens: seq<string>): set<string> {
    set t | t in tokens
  }

  /**
   * Token-set Jaccard overlap `|q ∩ d| / |q ∪ d|`, 0 when both sets are empty:
   * always in `[0, 1]`, and exactly 1 when the sets are equal and non-empty.
   */
  function Jaccard(q: set<string>, d: set<string>): (r: real)
    ensures 0.0 <= r <= 1.0
    ensures q + d == {} ==> r == 0.0
    ensures r == 1.0 <==> q == d && q != {}
    ensures q * d == {} ==> r == 0.0
  {
    if |q + d| == 0 then 0.0
    else
      assert q * d <= q + d;
      assert |q * d| == |q + d| ==> q == d by {
        if |q * d| == |q + d| { SubsetOfSameSize(q * d, q + d); }
      }
      SubsetSize(q * d, q + d);
      DivBounds(|q * d| as real, |q + d| as real);
      assert q == d ==> q * d == q + d;
      (|q * d| as real) / (|q + d| as real)
  }

  lemma SubsetSize<T>(a: set<T>, b: set<T>)
    requires a <= b
    ensures |a| <= |b|
  {
    assert |b - a| == |b| - |a|;
  }

  lemma SubsetOfSameSize<T>(a: set<T>, b: set<T>)
    requires a <= b && |a| == |b|
    ensures a == b
  {
    assert |b - a| == |b| - |a|;
  }

  /** The fallback loop of `_sparse_scores`: one Jaccard overlap per document, in corpus order. */
  method JaccardScores(queryTokens: seq<string>, docs: seq<seq<string>>) returns (overlaps: seq<real>)
    ensures |overlaps| == |docs|
    ensures forall i :: 0 <= i < |docs| ==> overlaps[i] == Jaccard(ToSet(queryTokens), ToSet(docs[i]))
    ensures forall i :: 0 <= i < |docs| ==> 0.0 <= overlaps[i] <= 1.0
  {
    var qSet := ToSet(queryTokens);
    overlaps := [];
    var i := 0;
    while i < |docs|
      invariant 0 <= i <= |docs|
      invariant |overlaps| == i
      invariant forall j :: 0 <= j < i ==> overlaps[j] == Jaccard(qSet, ToSet(docs[j]))
    {
      var dSet := ToSet(docs[i]);
      var inter := |qSet * dSet|;
      var union := |qSet + dSet|;
      overlaps := overlaps + [if union > 0 then (inter as real) / (union as real) else 0.0];
      i := i + 1;
    }
  }

  /**
   * `_sparse_scores` over a fitted corpus: empty for no documents, all zeros
   * for a query without tokens (such as `"???"`), otherwise the BM25 scores
   * divided by their maximum.  Every score lies in `[0, 1]`.
   */
  function SparseScores(corpus: seq<seq<string>>, query: string, c: Collaborators): (r: seq<real>)
    requires WellBehaved(c)
    ensures |r| == |corpus|
    ensures forall i :: 0 <= i < |r| ==> 0.0 <= r[i] <= 1.0
    ensures Tokenize(query) == [] ==> forall i :: 0 <= i < |r| ==> r[i] == 0.0
    ensures Tokenize(query) != [] ==> r == MaxNormalize(c.bm25(corpus, Tokenize(query)))
  {
    var qTokens := Tokenize(query);
    if |corpus| == 0 then []
    else if qTokens == [] then seq(|corpus|, i requires 0 <= i < |corpus| => 0.0)
    else MaxNormalize(c.bm25(corpus, qTokens))
  }

  /** The best-matching documents of a query with tokens get sparse score exactly 1 when any BM25 score is positive. */
  lemma SparseTopScoresOne(corpus: seq<seq<string>>, query: string, c: Collaborators, d: nat)
    requires WellBehaved(c) && Tokenize(query) != [] && d < |corpus|
    requires var raw := c.bm25(corpus, Tokenize(query)); SeqMax(raw) > 0.0 && raw[d] == SeqMax(raw)
    ensures SparseScores(corpus, query, c)[d] == 1.0
  {
  }

  function HasPositive(s: seq<real>): bool {
    exists i :: 0 <= i < |s| && s[i] > 0.0
  }

  /** The smallest positive entry. */
  function MinPositive(s: seq<real>): (m: real)
    requires HasPositive(s)
    ensures m > 0.0
    ensures forall i :: 0 <= i < |s| && s[i] > 0.0 ==> m <= s[i]
    ensures exists i :: 0 <= i < |s| && s[i] == m
  {
    if s[0] > 0.0 && !HasPositive(s[1..]) then s[0]
    else if s[0] <= 0.0 then
      assert forall i :: 1 <= i < |s| ==> s[i] == s[1..][i - 1];
      assert HasPositive(s[1..]) by { var i :| 0 <= i < |s| && s[i] > 0.0; assert s[1..][i - 1] > 0.0; }
      MinPositive(s[1..])
    else
      assert forall i :: 1 <= i < |s| ==> s[i] == s[1..][i - 1];
      var m := MinPositive(s[1..]);
      if s[0] <= m then s[0] else m
  }

  /**
   * The masked normalisation of the store backend's dense scores: with `mx`
   * the largest entry (0 when every entry is 0) and `mn` the smallest positive
   * entry (0 when there is none), when `mx - mn > 1e-9` every positive entry
   * `x` becomes `(x - mn) / (mx - mn)`; other entries are kept.
   */
  function PositiveNormalized(s: seq<real>): (r: seq<real>)
    ensures |r| == |s|
  {
    var mx, mn := UpperOf(s), LowerOf(s);
    if mx - mn > Epsilon then RescalePositives(s, mn, mx) else s
  }

  function RescalePositives(s: seq<real>, mn: real, mx: real): (r: seq<real>)
    requires mx - mn > 0.0
    ensures |r| == |s|
    ensures forall i :: 0 <= i < |s| ==> r[i] == if s[i] > 0.0 then (s[i] - mn) / (mx - mn) else s[i]
  {
    seq(|s|, i requires 0 <= i < |s| => if s[i] > 0.0 then (s[i] - mn) / (mx - mn) else s[i])
  }

  /** `np.max(dense_scores) if np.any(dense_scores) else 0.0`. */
  function UpperOf(s: seq<real>): real {
    if exists i :: 0 <= i < |s| && s[i] != 0.0 then SeqMax(s) else 0.0
  }

  /** `np.min(dense_scores[dense_scores > 0]) if np.any(dense_scores > 0) else 0.0`. */
  function LowerOf(s: seq<real>): real {
    if HasPositive(s) then MinPositive(s) else 0.0
  }

  /** With a positive entry the bounds are the largest entry and the smallest positive one; without, their gap is not positive. */
  lemma PositiveBounds(s: seq<real>)
    ensures HasPositive(s) ==> UpperOf(s) == SeqMax(s) && LowerOf(s) == MinPositive(s) && UpperOf(s) >= LowerOf(s)
    ensures !HasPositive(s) ==> UpperOf(s) - LowerOf(s) <= 0.0
  {
    if HasPositive(s) {
      var k :| 0 <= k < |s| && s[k] > 0.0;
      assert s[k] != 0.0;
    } else if exists i :: 0 <= i < |s| && s[i] != 0.0 {
      var m := SeqMax(s);
      assert m <= 0.0;
    }
  }

  /**
   * Only positive entries move: with no positive entry, or with a positive
   * range of at most `1e-9`, nothing changes at all.
   */
  lemma PositiveNormalizedKeeps(s: seq<real>)
    ensures forall i :: 0 <= i < |s| && s[i] <= 0.0 ==> PositiveNormalized(s)[i] == s[i]
    ensures !HasPositive(s) ==> PositiveNormalized(s) == s
    ensures HasPositive(s) && SeqMax(s) - MinPositive(s) <= Epsilon ==> PositiveNormalized(s) == s
  {
    PositiveBounds(s);
  }

  /**
   * When the positive entries span more than `1e-9`, they land in `[0, 1]`,
   * the largest becoming exactly 1 and the smallest positive exactly 0.
   */
  lemma PositiveNormalizedRescales(s: seq<real>)
    requires HasPositive(s) && SeqMax(s) - MinPositive(s) > Epsilon
    ensures forall i :: 0 <= i < |s| && s[i] > 0.0 ==> 0.0 <= PositiveNormalized(s)[i] <= 1.0
    ensures forall i :: 0 <= i < |s| && s[i] == SeqMax(s) ==> PositiveNormalized(s)[i] == 1.0
    ensures forall i :: 0 <= i < |s| && s[i] == MinPositive(s) ==> PositiveNormalized(s)[i] == 0.0
  {
    forall i | 0 <= i < |s| && s[i] > 0.0 {
      RescaledAt(s, i);
    }
    var k :| 0 <= k < |s| && s[k] > 0.0;
    assert s[k] <= SeqMax(s);
  }

  lemma RescaledAt(s: seq<real>, i: nat)
    requires HasPositive(s) && SeqMax(s) - MinPositive(s) > Epsilon
    requires i < |s| && s[i] > 0.0
    ensures 0.0 <= PositiveNormalized(s)[i] <= 1.0
    ensures s[i] == SeqMax(s) ==> PositiveNormalized(s)[i] == 1.0
    ensures s[i] == MinPositive(s) ==> PositiveNormalized(s)[i] == 0.0
  {
    PositiveBounds(s);
    var mx, mn := SeqMax(s), MinPositive(s);
    assert PositiveNormalized(s) == RescalePositives(s, mn, mx);
    assert mn <= s[i] <= mx;
    RescaleAt(s, mn, mx, i);
  }

  lemma RescaleAt(s: seq<real>, mn: real, mx: real, i: nat)
    requires mx - mn > 0.0 && i < |s| && 0.0 < s[i] && mn <= s[i] <= mx
    ensures 0.0 <= RescalePositives(s, mn, mx)[i] <= 1.0
    ensures s[i] == mx ==> RescalePositives(s, mn, mx)[i] == 1.0
    ensures s[i] == mn ==> RescalePositives(s, mn, mx)[i] == 0.0
  {
    DivBounds(s[i] - mn, mx - mn);
  }

  /** The in-place rewrite of the positive entries, `dense_scores[mask] = (dense_scores[mask] - mn) / (mx - mn)`. */
  method NormalizePositiveInPlace(a: array<real>)
    modifies a
    ensures a[..] == PositiveNormalized(old(a[..]))
  {
    var mx, mn := UpperOf(a[..]), LowerOf(a[..]);
    if mx - mn > Epsilon {
      RescalePositivesInPlace(a, mn, mx);
    }
  }

  /** The masked assignment itself: every positive entry rescaled by `mn` and `mx`, the others kept. */
  method RescalePositivesInPlace(a: array<real>, mn: real, mx: real)
    requires mx - mn > 0.0
    modifies a
    ensures a[..] == RescalePositives(old(a[..]), mn, mx)
  {
    ghost var t := RescalePositives(a[..], mn, mx);
    var i := 0;
    while i < a.Length
      invariant 0 <= i <= a.Length
      invariant forall j :: 0 <= j < i ==> a[j] == t[j]
      invariant forall j :: i <= j < a.Length ==> a[j] == old(a[j])
    {
      var x := a[i];
      if x > 0.0 {
        a[i] := (x - mn) / (mx - mn);
      }
      i := i + 1;
    }
    assert a[..] == t;
  }
}
