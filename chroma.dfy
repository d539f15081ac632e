/**
 * The vector-store backend: documents live in an external nearest-neighbour
 * store (here a ghost map from id to document and metadata), BM25 runs
 * locally, and the two rankings are always fused with RRF.
 */
module Chroma {
  import opened Wrappers
  import opened Models
  import opened Tokenizer
  import opened Ranking
  import opened Scoring
  import opened Foreign
  import opened Compose
  import opened Hits
  import Memory

  /** The store's upsert limit per call. */
  const BatchSize: nat := 500

  /** The keys of a list of (key, value) pairs, in order. */
  function KeysOf<V>(es: seq<(string, V)>): (r: seq<string>)
    ensures |r| == |es| && forall i :: 0 <= i < |es| ==> r[i] == es[i].0
  {
    seq(|es|, i requires 0 <= i < |es| => es[i].0)
  }

  /** The position of the last occurrence of `key`, if any. */
  function LastIndexOf(keys: seq<string>, key: string): (r: Option<nat>)
    ensures r.None? <==> key !in keys
    ensures r.Some? ==> r.value < |keys| && keys[r.value] == key
    ensures r.Some? ==> forall j :: r.value < j < |keys| ==> keys[j] != key
  {
    if |keys| == 0 then None
    else if keys[|keys| - 1] == key then Some(|keys| - 1)
    else
      assert forall j :: 0 <= j < |keys| - 1 ==> keys[j] == keys[..|keys| - 1][j];
      LastIndexOf(keys[..|keys| - 1], key)
  }

  /** Writing the pairs into a map one after the other: `d[k] = v` for each, or a store upsert. */
  function Upsert<V>(m: map<string, V>, es: seq<(string, V)>): map<string, V> {
    if |es| == 0 then m else Upsert(m, es[..|es| - 1])[es[|es| - 1].0 := es[|es| - 1].1]
  }

  /** The upserted map holds the old keys and every key of a pair. */
  lemma {:induction false} UpsertKeys<V>(m: map<string, V>, es: seq<(string, V)>)
    ensures Upsert(m, es).Keys == m.Keys + set i | 0 <= i < |es| :: es[i].0
  {
    if |es| > 0 {
      var init := es[..|es| - 1];
      UpsertKeys(m, init);
      assert (set i | 0 <= i < |es| :: es[i].0) == (set i | 0 <= i < |init| :: init[i].0) + {es[|es| - 1].0};
    }
  }

  /**
   * After the upserts a key holds the value of its last pair; a key no pair
   * mentions keeps its old value.
   */
  lemma {:induction false} UpsertLookup<V>(m: map<string, V>, es: seq<(string, V)>, key: string)
    ensures var last := LastIndexOf(KeysOf(es), key);
      && (last.Some? ==> key in Upsert(m, es) && Upsert(m, es)[key] == es[last.value].1)
      && (last.None? ==> (key in Upsert(m, es) <==> key in m))
      && (last.None? && key in m ==> Upsert(m, es)[key] == m[key])
  {
    if |es| > 0 {
      var init := es[..|es| - 1];
      UpsertLookup(m, init, key);
      assert KeysOf(es)[..|es| - 1] == KeysOf(init);
    }
  }

  /** Upserting two lists is upserting the first, then the second. */
  lemma {:induction false} UpsertAppend<V>(m: map<string, V>, a: seq<(string, V)>, b: seq<(string, V)>)
    ensures Upsert(m, a + b) == Upsert(Upsert(m, a), b)
  {
    if |b| == 0 {
      assert a + b == a;
    } else {
      assert (a + b)[..|a + b| - 1] == a + b[..|b| - 1];
      UpsertAppend(m, a, b[..|b| - 1]);
    }
  }

  /** The records `index` upserts: each card's id with its document and its sidecar. */
  function StoreRecords(cards: seq<ToolCard>, c: Collaborators): (r: seq<(string, (string, Sidecar))>)
    requires WellBehaved(c)
    ensures |r| == |cards|
  {
    seq(|cards|, i requires 0 <= i < |cards| => (cards[i].id, (ComposeDoc(cards[i]), SidecarOf(cards[i], c))))
  }

  /** The (id, card) pairs, or (id, position) pairs, of a card list. */
  function CardPairs(cards: seq<ToolCard>): (r: seq<(string, ToolCard)>)
    ensures |r| == |cards| && forall i :: 0 <= i < |cards| ==> r[i] == (cards[i].id, cards[i])
  {
    seq(|cards|, i requires 0 <= i < |cards| => (cards[i].id, cards[i]))
  }

  function IdsOf(cards: seq<ToolCard>): (r: seq<string>)
    ensures |r| == |cards| && forall i :: 0 <= i < |cards| ==> r[i] == cards[i].id
  {
    seq(|cards|, i requires 0 <= i < |cards| => cards[i].id)
  }

  /**
   * `{c.id: i for i, c in enumerate(cards)}`: every id of the corpus maps to
   * the position of the last card carrying it.
   */
  function IdIndex(cards: seq<ToolCard>): (m: map<string, nat>)
    ensures m.Keys == set i | 0 <= i < |cards| :: cards[i].id
    ensures forall id :: id in m ==> m[id] < |cards| && cards[m[id]].id == id
    ensures forall id :: id in m ==> forall j :: m[id] < j < |cards| ==> cards[j].id != id
  {
    var es := seq(|cards|, i requires 0 <= i < |cards| => (cards[i].id, i));
    var m := Upsert(map[], es);
    UpsertKeys(map[], es);
    assert KeysOf(es) == IdsOf(cards);
    forall id | id in m
      ensures exists j :: 0 <= j < |cards| && m[id] == j && cards[j].id == id
                          && forall j' :: j < j' < |cards| ==> cards[j'].id != id
    {
      UpsertLookup(map[], es, id);
      var last := LastIndexOf(KeysOf(es), id);
      assert m[id] == es[last.value].1 == last.value;
    }
    m
  }

  /** Concatenation of a list of batches. */
  function Flatten(batches: seq<seq<string>>): seq<string> {
    if |batches| == 0 then [] else Flatten(batches[..|batches| - 1]) + batches[|batches| - 1]
  }

  /**
   * Well-formed batching of `n` ids: every batch but the last holds exactly
   * 500 ids, the last between 1 and 500, so there are `ceil(n / 500)` batches.
   */
  ghost predicate BatchShape(batches: seq<seq<string>>, n: nat) {
    && (forall b :: 0 <= b < |batches| ==> 1 <= |batches[b]| <= BatchSize)
    && (forall b :: 0 <= b < |batches| - 1 ==> |batches[b]| == BatchSize)
    && (n == 0 <==> |batches| == 0)
    && (n > 0 ==> BatchSize * (|batches| - 1) < n <= BatchSize * |batches|)
  }

  /** The dense score a returned candidate at `rank` (0-based) gets: `1 - distance`, or `1/(rank+1)` without distances. */
  function CandidateScore(resp: StoreResponse, rank: nat): real
    requires rank < |resp.ids|
    requires resp.distances.Some? ==> |resp.distances.value| == |resp.ids|
  {
    if resp.distances.Some? then 1.0 - resp.distances.value[rank] else 1.0 / (rank + 1) as real
  }

  /** Which corpus position the candidate at `rank` fills, if its id is in the corpus. */
  function Target(idIdx: map<string, nat>, resp: StoreResponse, rank: nat): Option<nat>
    requires rank < |resp.ids|
  {
    if resp.ids[rank] in idIdx then Some(idIdx[resp.ids[rank]]) else None
  }

  /**
   * The dense score vector after the first `r` candidates: zeros, then each
   * candidate whose id is in the corpus writes its score at that id's position.
   */
  function FillPrefix(idIdx: map<string, nat>, n: nat, resp: StoreResponse, r: nat): (s: seq<real>)
    requires r <= |resp.ids|
    requires resp.distances.Some? ==> |resp.distances.value| == |resp.ids|
    requires forall id :: id in idIdx ==> idIdx[id] < n
    ensures |s| == n
  {
    if r == 0 then seq(n, _ => 0.0)
    else
      var prev := FillPrefix(idIdx, n, resp, r - 1);
      match Target(idIdx, resp, r - 1)
      case Some(d) => prev[d := CandidateScore(resp, r - 1)]
      case None => prev
  }

  /** A position none of the first `r` candidates targets keeps 0. */
  lemma {:induction false} FillPrefixUntouched(idIdx: map<string, nat>, n: nat, resp: StoreResponse, r: nat, d: nat)
    requires r <= |resp.ids|
    requires resp.distances.Some? ==> |resp.distances.value| == |resp.ids|
    requires forall id :: id in idIdx ==> idIdx[id] < n
    requires d < n
    requires forall q :: 0 <= q < r ==> Target(idIdx, resp, q) != Some(d)
    ensures FillPrefix(idIdx, n, resp, r)[d] == 0.0
  {
    if r > 0 {
      FillPrefixUntouched(idIdx, n, resp, r - 1, d);
    }
  }

  /** A position holds the score of the last of the first `r` candidates that targets it. */
  lemma {:induction false} FillPrefixLast(idIdx: map<string, nat>, n: nat, resp: StoreResponse, r: nat, d: nat, q: nat)
    requires q < r <= |resp.ids|
    requires resp.distances.Some? ==> |resp.distances.value| == |resp.ids|
    requires forall id :: id in idIdx ==> idIdx[id] < n
    requires d < n
    requires Target(idIdx, resp, q) == Some(d)
    requires forall q' :: q < q' < r ==> Target(idIdx, resp, q') != Some(d)
    ensures FillPrefix(idIdx, n, resp, r)[d] == CandidateScore(resp, q)
  {
    if q < r - 1 {
      FillPrefixLast(idIdx, n, resp, r - 1, d, q);
    }
  }

  /** The dense scores of the candidates the store returned, before normalisation. */
  function CandidateScores(cards: seq<ToolCard>, resp: StoreResponse): (s: seq<real>)
    requires resp.distances.Some? ==> |resp.distances.value| == |resp.ids|
    ensures |s| == |cards|
  {
    FillPrefix(IdIndex(cards), |cards|, resp, |resp.ids|)
  }

  /**
   * A corpus document that no returned candidate names keeps dense score 0;
   * a named one gets the score of the last candidate naming it (ids outside
   * the corpus are ignored, and a duplicated id lands on its last card).
   */
  lemma CandidateScoresAt(cards: seq<ToolCard>, resp: StoreResponse, d: nat)
    requires resp.distances.Some? ==> |resp.distances.value| == |resp.ids|
    requires d < |cards|
    ensures var idIdx := IdIndex(cards);
      && ((forall q :: 0 <= q < |resp.ids| ==> Target(idIdx, resp, q) != Some(d)) ==> CandidateScores(cards, resp)[d] == 0.0)
      && (forall q :: 0 <= q < |resp.ids| && Target(idIdx, resp, q) == Some(d)
                      && (forall q' :: q < q' < |resp.ids| ==> Target(idIdx, resp, q') != Some(d)) ==>
            CandidateScores(cards, resp)[d] == CandidateScore(resp, q))
  {
    var idIdx, r := IdIndex(cards), |resp.ids|;
    if forall q :: 0 <= q < r ==> Target(idIdx, resp, q) != Some(d) {
      FillPrefixUntouched(idIdx, |cards|, resp, r, d);
    }
    forall q | 0 <= q < r && Target(idIdx, resp, q) == Some(d)
                && (forall q' :: q < q' < r ==> Target(idIdx, resp, q') != Some(d))
      ensures CandidateScores(cards, resp)[d] == CandidateScore(resp, q)
    {
      FillPrefixLast(idIdx, |cards|, resp, r, d, q);
    }
  }

  /** Batching progress after the ids before `i` were sent: the shape of `BatchShape`, with every batch full while ids remain. */
  ghost predicate BatchProgress(calls: seq<seq<string>>, i: nat, n: nat) {
    && i <= n
    && (forall b :: 0 <= b < |calls| ==> 1 <= |calls[b]| <= BatchSize)
    && (forall b :: 0 <= b < |calls| - 1 ==> |calls[b]| == BatchSize)
    && (i < n ==> forall b :: 0 <= b < |calls| ==> |calls[b]| == BatchSize)
    && (i == 0 <==> |calls| == 0)
    && (i < n ==> i == BatchSize * |calls|)
    && (i > 0 ==> BatchSize * (|calls| - 1) < i <= BatchSize * |calls|)
  }

  lemma BatchProgressStep(calls: seq<seq<string>>, i: nat, n: nat, batch: seq<string>)
    requires BatchProgress(calls, i, n) && i < n
    requires |batch| == (if i + BatchSize < n then BatchSize else n - i)
    ensures BatchProgress(calls + [batch], i + |batch|, n)
  {
  }

  /**
   * The upsert loop of `index`: slices `[i, min(i + 500, n))` for
   * `i = 0, 500, 1000, ...`, each written to the store in one call.
   */
  method UpsertInBatches<V>(ids: seq<string>, ghost entries: seq<(string, V)>)
    returns (ghost upserted: map<string, V>, ghost calls: seq<seq<string>>)
    requires |entries| == |ids|
    ensures upserted == Upsert(map[], entries)
    ensures Flatten(calls) == ids && BatchShape(calls, |ids|)
  {
    upserted := map[];
    calls := [];
    var i := 0;
    while i < |ids|
      invariant 0 <= i <= |ids|
      invariant Flatten(calls) == ids[..i]
      invariant upserted == Upsert(map[], entries[..i])
      invariant BatchProgress(calls, i, |ids|)
    {
      var end := Min(i + BatchSize, |ids|);
      UpsertSlice(entries, i, end);
      upserted := Upsert(upserted, entries[i..end]);
      FlattenSlice(ids, calls, i, end);
      BatchProgressStep(calls, i, |ids|, ids[i..end]);
      calls := calls + [ids[i..end]];
      i := end;
    }
    BatchProgressDone(calls, i);
    assert entries[..i] == entries && ids[..i] == ids;
  }

  /** Upserting the slice `[i, end)` after the prefix before `i` upserts the prefix before `end`. */
  lemma UpsertSlice<V>(entries: seq<(string, V)>, i: nat, end: nat)
    requires i <= end <= |entries|
    ensures Upsert(Upsert(map[], entries[..i]), entries[i..end]) == Upsert(map[], entries[..end])
  {
    UpsertAppend(map[], entries[..i], entries[i..end]);
    assert entries[..i] + entries[i..end] == entries[..end];
  }

  /** Sending the slice `[i, end)` after batches that flatten to the prefix before `i` flattens to the prefix before `end`. */
  lemma FlattenSlice(ids: seq<string>, calls: seq<seq<string>>, i: nat, end: nat)
    requires i <= end <= |ids| && Flatten(calls) == ids[..i]
    ensures Flatten(calls + [ids[i..end]]) == ids[..end]
  {
    assert (calls + [ids[i..end]])[..|calls|] == calls;
    assert ids[..i] + ids[i..end] == ids[..end];
  }

  /** Once every id was sent, the progress invariant is the batch shape. */
  lemma BatchProgressDone(calls: seq<seq<string>>, n: nat)
    requires BatchProgress(calls, n, n)
    ensures BatchShape(calls, n)
  {
  }

  class ChromaBackend {
    var cards: seq<ToolCard>
    /** `{c.id: c for c in cards}`. */
    var cardMap: map<string, ToolCard>
    var tokens: seq<seq<string>>
    var bm25Fitted: bool
    /** Whether a collection handle is held (the source keeps `None` otherwise). */
    var hasCollection: bool
    /** What the store's collection holds: id to document and sidecar. */
    ghost var store: map<string, (string, Sidecar)>
    /** The id lists of the upsert calls of the last `index`. */
    ghost var batches: seq<seq<string>>

    ghost predicate Valid()
      reads this
    {
      && |tokens| == |cards|
      && bm25Fitted == (|cards| > 0)
      && hasCollection == (|cards| > 0)
    }

    /** A fresh backend: empty, with no collection. */
    constructor()
      ensures cards == [] && cardMap == map[] && tokens == [] && !bm25Fitted && !hasCollection
      ensures store == map[] && batches == []
      ensures Valid()
    {
      cards := [];
      cardMap := map[];
      tokens := [];
      bm25Fitted := false;
      hasCollection := false;
      store := map[];
      batches := [];
    }

    /**
     * `index(cards)`.  With no cards every field is reset and the store is
     * left alone.  Otherwise the collection is dropped and re-created and the
     * cards are upserted in consecutive batches of at most 500, which
     * together list every id once, in corpus order.
     */
    method Index(newCards: seq<ToolCard>, c: Collaborators)
      requires WellBehaved(c)
      modifies this
      ensures Valid()
      ensures cards == newCards && tokens == Memory.TokenLists(Memory.DocTexts(newCards))
      ensures cardMap == Upsert(map[], CardPairs(newCards))
      ensures |newCards| == 0 ==> store == old(store) && batches == old(batches)
      ensures |newCards| > 0 ==>
        store == Upsert(map[], StoreRecords(newCards, c))
      ensures |newCards| > 0 ==> Flatten(batches) == IdsOf(newCards) && BatchShape(batches, |newCards|)
    {
      if |newCards| == 0 {
        Reset();
        assert CardPairs(newCards) == [];
      } else {
        Load(newCards, c);
      }
    }

    /** The early return of `index([])`: forget the cards, BM25 and the collection handle. */
    method Reset()
      modifies this
      ensures cards == [] && cardMap == map[] && tokens == [] && !bm25Fitted && !hasCollection
      ensures store == old(store) && batches == old(batches)
    {
      cards := [];
      cardMap := map[];
      bm25Fitted := false;
      tokens := [];
      hasCollection := false;
    }

    /** The rest of `index(cards)` for a non-empty list. */
    method Load(newCards: seq<ToolCard>, c: Collaborators)
      requires WellBehaved(c) && |newCards| > 0
      modifies this
      ensures cards == newCards && tokens == Memory.TokenLists(Memory.DocTexts(newCards))
      ensures cardMap == Upsert(map[], CardPairs(newCards))
      ensures bm25Fitted && hasCollection
      ensures store == Upsert(map[], StoreRecords(newCards, c))
      ensures Flatten(batches) == IdsOf(newCards) && BatchShape(batches, |newCards|)
    {
      LoadLocal(newCards);
      WriteStore(newCards, c);
    }

    /** The local half of `index(cards)`: the card list, the id map and the BM25 tokens. */
    method LoadLocal(newCards: seq<ToolCard>)
      requires |newCards| > 0
      modifies this`cards, this`cardMap, this`tokens, this`bm25Fitted
      ensures cards == newCards && tokens == Memory.TokenLists(Memory.DocTexts(newCards))
      ensures cardMap == Upsert(map[], CardPairs(newCards))
      ensures bm25Fitted
    {
      var toks := Memory.TokenLists(Memory.DocTexts(newCards));
      cards := newCards;
      cardMap := Upsert(map[], CardPairs(newCards));
      tokens := toks;
      bm25Fitted := |toks| > 0;
    }

    /** The store half of `index(cards)`: a fresh collection, then the records upserted in batches. */
    method WriteStore(newCards: seq<ToolCard>, c: Collaborators)
      requires WellBehaved(c)
      modifies this`hasCollection, this`store, this`batches
      ensures hasCollection
      ensures store == Upsert(map[], StoreRecords(newCards, c))
      ensures Flatten(batches) == IdsOf(newCards) && BatchShape(batches, |newCards|)
    {
      var ids := IdsOf(newCards);
      ghost var entries := StoreRecords(newCards, c);
      ghost var upserted, calls := UpsertInBatches(ids, entries);
      hasCollection := true;
      store := upserted;
      batches := calls;
    }

    /** The dense score vector `query` ranks by: the candidates' scores, positive entries rescaled. */
    function DenseOf(text: string, topK: int, c: Collaborators): (r: seq<real>)
      requires Valid() && WellBehaved(c)
      reads this
      ensures |r| == |cards|
    {
      var k := ClampTopK(topK, |cards|);
      PositiveNormalized(CandidateScores(cards, c.search(text, CandidatePoolSize(k, |cards|))))
    }

    /** What `query(text, top_k)` returns on the current index. */
    function QueryResult(text: string, topK: int, c: Collaborators): (hits: seq<RetrievalHit>)
      requires Valid() && WellBehaved(c)
      reads this
    {
      if |cards| == 0 || !hasCollection then []
      else
        var sparse, dense := SparseScores(tokens, text, c), DenseOf(text, topK, c);
        TopHits(cards, FusedScores(sparse, dense), sparse, Some(dense), ClampTopK(topK, |cards|))
    }

    /**
     * `query(text, top_k)`: nothing without cards or collection; otherwise
     * the store is asked for `CandidatePoolSize` neighbours, their scores are
     * written into a zero vector and rescaled, and the sparse and dense
     * rankings are always fused.  Exactly `ClampTopK(top_k, n)` hits come
     * back by non-increasing score, each with a dense score and a fused
     * score in `[2/(60+n), 2/61]`.
     */
    method Query(text: string, topK: int, c: Collaborators) returns (hits: seq<RetrievalHit>)
      requires Valid() && WellBehaved(c)
      ensures hits == QueryResult(text, topK, c)
      ensures |cards| == 0 || !hasCollection ==> hits == []
      ensures |cards| > 0 ==> |hits| == ClampTopK(topK, |cards|)
      ensures forall i, j :: 0 <= i < j < |hits| ==> hits[i].score >= hits[j].score
      ensures forall j :: 0 <= j < |hits| ==> hits[j].card in cards
      ensures forall j :: 0 <= j < |hits| ==>
        && FusedFloor(|cards|) <= hits[j].score <= 2.0 / 61.0
        && hits[j].denseScore.Some?
    {
      if |cards| == 0 || !hasCollection {
        return [];
      }
      var n := |cards|;
      var k := ClampTopK(topK, n);
      var resp := c.search(text, CandidatePoolSize(k, n));
      var dense := CandidateScoresInto(cards, resp);
      NormalizePositiveInPlace(dense);
      var sparse := SparseScores(tokens, text, c);
      assert dense[..] == DenseOf(text, topK, c);
      hits := FuseAndPick(cards, sparse, Some(dense[..]), k);
    }
  }

  /**
   * The candidate loop of `query`: a zeroed vector with, for each returned
   * id found in the corpus, `1 - distance` (or `1/(rank+1)`) written at that
   * id's position.
   */
  method CandidateScoresInto(cards: seq<ToolCard>, resp: StoreResponse) returns (dense: array<real>)
    requires resp.distances.Some? ==> |resp.distances.value| == |resp.ids|
    ensures fresh(dense)
    ensures dense[..] == CandidateScores(cards, resp)
  {
    var n := |cards|;
    dense := new real[n](_ => 0.0);
    var idIdx := IdIndex(cards);
    assert dense[..] == FillPrefix(idIdx, n, resp, 0);
    if |resp.ids| > 0 {
      for rank := 0 to |resp.ids|
        invariant dense[..] == FillPrefix(idIdx, n, resp, rank)
      {
        ghost var before := dense[..];
        var cid := resp.ids[rank];
        if cid in idIdx {
          var idx := idIdx[cid];
          var score := if resp.distances.Some? then 1.0 - resp.distances.value[rank] else 1.0 / (rank + 1) as real;
          assert score == CandidateScore(resp, rank) && Target(idIdx, resp, rank) == Some(idx);
          dense[idx] := score;
          assert dense[..] == before[idx := score];
        }
      }
    }
  }

  /** The store after `index`: exactly the corpus ids, each holding the document and sidecar of the last card with that id. */
  lemma StoreContents(cards: seq<ToolCard>, c: Collaborators, id: string)
    requires WellBehaved(c)
    ensures var store := Upsert(map[], StoreRecords(cards, c));
      && (id in store <==> id in IdsOf(cards))
      && (id in IdsOf(cards) ==>
            var j := LastIndexOf(IdsOf(cards), id).value;
            store[id] == (ComposeDoc(cards[j]), SidecarOf(cards[j], c)))
  {
    var ids, recs := IdsOf(cards), StoreRecords(cards, c);
    assert KeysOf(recs) == ids;
    UpsertLookup(map[], recs, id);
    if id in ids {
      var j := LastIndexOf(ids, id).value;
      assert recs[j].1 == (ComposeDoc(cards[j]), SidecarOf(cards[j], c));
    }
  }

  /** `{c.id: c for c in cards}`: exactly the corpus ids, each mapped to the last card with that id. */
  lemma CardMapContents(cards: seq<ToolCard>, id: string)
    ensures var m := Upsert(map[], CardPairs(cards));
      && (id in m <==> id in IdsOf(cards))
      && (id in IdsOf(cards) ==> m[id] == cards[LastIndexOf(IdsOf(cards), id).value])
  {
    UpsertLookup(map[], CardPairs(cards), id);
    assert KeysOf(CardPairs(cards)) == IdsOf(cards);
  }

  /** After `index([])` a query returns nothing, whatever came before. */
  method IndexEmptyThenQuery(backend: ChromaBackend, text: string, topK: int, c: Collaborators) returns (hits: seq<RetrievalHit>)
    requires WellBehaved(c)
    modifies backend
    ensures hits == []
  {
    backend.Index([], c);
    hits := backend.Query(text, topK, c);
  }
}
