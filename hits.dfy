/**
 * What both backends do after scoring: clamp `top_k`, pick the best
 * documents by fused score (`np.argsort(-hybrid)[:top_k]`) and turn each
 * picked document into a `RetrievalHit`.
 */
module Hits {
  import opened Wrappers
  import opened Models
  import opened Ranking

  /** The most hits a query ever returns. */
  const MaxHits: nat := 20

  function Min(a: int, b: int): int { if a <= b then a else b }
  function Max(a: int, b: int): int { if a >= b then a else b }

  /**
   * `max(1, min(int(top_k), min(20, n)))`: the requested count pulled into
   * `[1, min(20, n)]` — kept when it is already inside, raised to 1 below it,
   * lowered to `min(20, n)` above it.  With no cards the result is still 1.
   */
  function ClampTopK(topK: int, n: nat): (k: nat)
    ensures k >= 1
    ensures n > 0 ==> k <= n && k <= MaxHits
    ensures 1 <= topK <= Min(MaxHits, n) ==> k == topK
    ensures topK < 1 ==> k == 1
    ensures n > 0 && topK > Min(MaxHits, n) ==> k == Min(MaxHits, n)
  {
    Max(1, Min(topK, Min(MaxHits, n)))
  }

  /**
   * `min(n, max(top_k * 3, 20))`: how many neighbours the vector store is
   * asked for.  Never more than the corpus, and never fewer than the hits
   * wanted nor than `min(n, 20)`.
   */
  function CandidatePoolSize(topK: nat, n: nat): (m: nat)
    ensures m <= n
    ensures topK <= n ==> topK <= m
    ensures Min(n, MaxHits) <= m
    ensures m == n || m == Max(3 * topK, MaxHits)
  {
    Min(n, Max(3 * topK, MaxHits))
  }

  /**
   * `np.argsort(-hybrid)[:k]`: the positions of the `k` best documents, best
   * first.  They are distinct, their scores do not increase, and no document
   * left out scores above any document picked.
   */
  function TopIndices(hybrid: seq<real>, k: nat): (idx: seq<nat>)
    requires k <= |hybrid|
    ensures |idx| == k
    ensures forall j :: 0 <= j < k ==> idx[j] < |hybrid|
    ensures forall i, j :: 0 <= i < j < k ==> idx[i] != idx[j]
    ensures forall i, j :: 0 <= i < j < k ==> hybrid[idx[i]] >= hybrid[idx[j]]
    ensures forall d, j :: 0 <= d < |hybrid| && d !in idx && 0 <= j < k ==> hybrid[d] <= hybrid[idx[j]]
  {
    var order := ArgsortDesc(hybrid);
    PermutationFacts(order, |hybrid|);
    TopIsBest(order, hybrid, k);
    order[..k]
  }

  /** In a sorted permutation, everything after position `k` scores at most what is before it. */
  lemma TopIsBest(order: seq<nat>, hybrid: seq<real>, k: nat)
    requires IsPermutation(order, |hybrid|) && SortedDesc(order, hybrid) && k <= |order|
    ensures forall d, j :: 0 <= d < |hybrid| && d !in order[..k] && 0 <= j < k ==> hybrid[d] <= hybrid[order[j]]
  {
    forall d, j | 0 <= d < |hybrid| && d !in order[..k] && 0 <= j < k
      ensures hybrid[d] <= hybrid[order[j]]
    {
      PermutationOccurrences(order, |hybrid|, d);
      var p :| 0 <= p < |order| && order[p] == d;
    }
  }

  /** The hit for document `d`: its card, fused score, sparse score and, when dense scoring ran, dense score. */
  function HitAt(cards: seq<ToolCard>, hybrid: seq<real>, sparse: seq<real>, dense: Option<seq<real>>, d: nat): (h: RetrievalHit)
    requires d < |cards| == |hybrid| == |sparse|
    requires dense.Some? ==> |dense.value| == |cards|
    ensures h.card == cards[d] && h.score == hybrid[d] && h.sparseScore == sparse[d]
    ensures h.denseScore.None? <==> dense.None?
    ensures dense.Some? ==> h.denseScore == Some(dense.value[d])
  {
    RetrievalHit(cards[d], hybrid[d], sparse[d], if dense.Some? then Some(dense.value[d]) else None)
  }

  /** Well-formed score vectors: one score per card. */
  predicate Aligned(cards: seq<ToolCard>, hybrid: seq<real>, sparse: seq<real>, dense: Option<seq<real>>) {
    |cards| == |hybrid| == |sparse| && (dense.Some? ==> |dense.value| == |cards|)
  }

  /**
   * The `k` hits a query returns: by non-increasing score, each from a
   * different document, no document left out scoring above the last hit;
   * without dense scores a hit's score is its sparse score and it carries no
   * dense score, with them every hit carries one.
   */
  function TopHits(cards: seq<ToolCard>, hybrid: seq<real>, sparse: seq<real>, dense: Option<seq<real>>, k: nat): (hits: seq<RetrievalHit>)
    requires Aligned(cards, hybrid, sparse, dense) && k <= |cards|
    ensures |hits| == k
    ensures forall j :: 0 <= j < k ==> hits[j] == HitAt(cards, hybrid, sparse, dense, TopIndices(hybrid, k)[j])
    ensures forall i, j :: 0 <= i < j < k ==> hits[i].score >= hits[j].score
    ensures k > 0 ==> forall d :: 0 <= d < |cards| && d !in TopIndices(hybrid, k) ==> hybrid[d] <= hits[k - 1].score
    ensures forall j :: 0 <= j < k ==> (hits[j].denseScore.None? <==> dense.None?)
    ensures hybrid == sparse && dense.None? ==> forall j :: 0 <= j < k ==> hits[j].score == hits[j].sparseScore
  {
    var idx := TopIndices(hybrid, k);
    seq(k, j requires 0 <= j < k => HitAt(cards, hybrid, sparse, dense, idx[j]))
  }

  /**
   * The loop at the end of `query`: one hit per picked position, in order.
   */
  method CollectHits(cards: seq<ToolCard>, idx: seq<nat>, hybrid: seq<real>, sparse: seq<real>, dense: Option<seq<real>>)
    returns (hits: seq<RetrievalHit>)
    requires Aligned(cards, hybrid, sparse, dense)
    requires forall j :: 0 <= j < |idx| ==> idx[j] < |cards|
    ensures |hits| == |idx|
    ensures forall j :: 0 <= j < |idx| ==> hits[j] == HitAt(cards, hybrid, sparse, dense, idx[j])
  {
    hits := [];
    for j := 0 to |idx|
      invariant |hits| == j
      invariant forall i :: 0 <= i < j ==> hits[i] == HitAt(cards, hybrid, sparse, dense, idx[i])
    {
      var i := idx[j];
      var denseScore := if dense.None? then None else Some(dense.value[i]);
      hits := hits + [RetrievalHit(cards[i], hybrid[i], sparse[i], denseScore)];
    }
  }

  /** The score both backends rank by: the sparse scores alone without dense scores, otherwise their fusion with the dense ones. */
  function Hybrid(sparse: seq<real>, dense: Option<seq<real>>): (r: seq<real>)
    requires dense.Some? ==> |dense.value| == |sparse|
    ensures |r| == |sparse|
    ensures dense.None? ==> r == sparse
    ensures dense.Some? ==> r == FusedScores(sparse, dense.value)
  {
    if dense.None? then sparse else FusedScores(sparse, dense.value)
  }

  /**
   * The end of `query`: rank by sparse score, fuse with the dense ranking
   * when there is one, and collect the `k` best documents as hits.
   */
  method FuseAndPick(cards: seq<ToolCard>, sparse: seq<real>, dense: Option<seq<real>>, k: nat) returns (hits: seq<RetrievalHit>)
    requires |sparse| == |cards| && (dense.Some? ==> |dense.value| == |cards|) && k <= |cards|
    ensures hits == TopHits(cards, Hybrid(sparse, dense), sparse, dense, k)
    ensures forall i, j :: 0 <= i < j < |hits| ==> hits[i].score >= hits[j].score
    ensures forall j :: 0 <= j < |hits| ==> hits[j].card in cards
    ensures dense.None? ==>
      forall j :: 0 <= j < |hits| ==> hits[j].score == hits[j].sparseScore && hits[j].denseScore.None?
    ensures dense.Some? ==>
      forall j :: 0 <= j < |hits| ==>
        && FusedFloor(|cards|) <= hits[j].score <= 2.0 / 61.0
        && hits[j].denseScore.Some?
  {
    var n := |cards|;
    var sparseRank := ArgsortDesc(sparse);
    var hybrid;
    if dense.None? {
      hybrid := sparse;
    } else {
      var denseRank := ArgsortDesc(dense.value);
      PermutationFacts(sparseRank, n);
      PermutationFacts(denseRank, n);
      hybrid := Rrf([sparseRank, denseRank], n);
    }
    assert hybrid == Hybrid(sparse, dense);
    var idx := TopIndices(hybrid, k);
    hits := CollectHits(cards, idx, hybrid, sparse, dense);
    assert hits == TopHits(cards, hybrid, sparse, dense, k);
    HybridHitsRanked(cards, sparse, dense, k);
    if dense.None? {
      SparseOnlyHits(cards, sparse, k);
    } else {
      FusedHits(cards, sparse, dense.value, k);
    }
  }

  /** The hits over the hybrid score come by non-increasing score and each is one of the indexed cards. */
  lemma HybridHitsRanked(cards: seq<ToolCard>, sparse: seq<real>, dense: Option<seq<real>>, k: nat)
    requires |sparse| == |cards| && (dense.Some? ==> |dense.value| == |cards|) && k <= |cards|
    ensures var hits := TopHits(cards, Hybrid(sparse, dense), sparse, dense, k);
      && (forall i, j :: 0 <= i < j < |hits| ==> hits[i].score >= hits[j].score)
      && (forall j :: 0 <= j < |hits| ==> hits[j].card in cards)
  {
    var hybrid := Hybrid(sparse, dense);
    var hits := TopHits(cards, hybrid, sparse, dense, k);
    var idx := TopIndices(hybrid, k);
    forall j | 0 <= j < k
      ensures hits[j].card in cards
    {
      assert hits[j] == HitAt(cards, hybrid, sparse, dense, idx[j]);
    }
  }

  /** Without dense scores each hit's score is its sparse score and it carries no dense score. */
  lemma SparseOnlyHits(cards: seq<ToolCard>, sparse: seq<real>, k: nat)
    requires |sparse| == |cards| && k <= |cards|
    ensures var hits := TopHits(cards, Hybrid(sparse, None), sparse, None, k);
      forall j :: 0 <= j < |hits| ==> hits[j].score == hits[j].sparseScore && hits[j].denseScore.None?
  {
  }

  /** When every document scores within `[lo, hi]`, so does every hit. */
  lemma HitsWithin(cards: seq<ToolCard>, hybrid: seq<real>, sparse: seq<real>, dense: Option<seq<real>>, k: nat, lo: real, hi: real)
    requires Aligned(cards, hybrid, sparse, dense) && k <= |cards|
    requires forall d :: 0 <= d < |hybrid| ==> lo <= hybrid[d] <= hi
    ensures var hits := TopHits(cards, hybrid, sparse, dense, k);
      forall j :: 0 <= j < |hits| ==> lo <= hits[j].score <= hi
  {
    var hits := TopHits(cards, hybrid, sparse, dense, k);
    forall j | 0 <= j < k
      ensures lo <= hits[j].score <= hi
    {
      HitScore(cards, hybrid, sparse, dense, k, j);
    }
  }

  /** Hit `j` scores what its document scores in `hybrid`. */
  lemma HitScore(cards: seq<ToolCard>, hybrid: seq<real>, sparse: seq<real>, dense: Option<seq<real>>, k: nat, j: nat)
    requires Aligned(cards, hybrid, sparse, dense) && j < k <= |cards|
    ensures exists d :: 0 <= d < |hybrid| && TopHits(cards, hybrid, sparse, dense, k)[j].score == hybrid[d]
  {
    var d := TopIndices(hybrid, k)[j];
    assert TopHits(cards, hybrid, sparse, dense, k)[j].score == hybrid[d];
  }

  /** With dense scores each hit's score is an RRF score in `[2/(60+n), 2/61]` and it carries a dense score. */
  lemma FusedHits(cards: seq<ToolCard>, sparse: seq<real>, dense: seq<real>, k: nat)
    requires |sparse| == |cards| && |dense| == |cards| && k <= |cards|
    ensures var hits := TopHits(cards, Hybrid(sparse, Some(dense)), sparse, Some(dense), k);
      forall j :: 0 <= j < |hits| ==>
        && FusedFloor(|cards|) <= hits[j].score <= 2.0 / 61.0
        && hits[j].denseScore.Some?
  {
    var fused := FusedScores(sparse, dense);
    assert Hybrid(sparse, Some(dense)) == fused;
    HitsWithin(cards, fused, sparse, Some(dense), k, FusedFloor(|sparse|), 2.0 / 61.0);
  }
}
