/**
 * The in-process backend: BM25 over the tokenised documents, optionally
 * fused with dense embedding similarity, entirely in memory.
 */
module Memory {
  import opened Wrappers
  import opened Models
  import opened Tokenizer
  import opened Ranking
  import opened Scoring
  import opened Foreign
  import opened Compose
  import opened Hits

  /** The indexed documents of a card list, one per card. */
  function DocTexts(cards: seq<ToolCard>): (r: seq<string>)
    ensures |r| == |cards| && forall i :: 0 <= i < |cards| ==> r[i] == ComposeDoc(cards[i])
  {
    seq(|cards|, i requires 0 <= i < |cards| => ComposeDoc(cards[i]))
  }

  /** The token list of every document. */
  function TokenLists(docs: seq<string>): (r: seq<seq<string>>)
    ensures |r| == |docs| && forall i :: 0 <= i < |docs| ==> r[i] == Tokenize(docs[i])
  {
    seq(|docs|, i requires 0 <= i < |docs| => Tokenize(docs[i]))
  }

  class InMemoryBackend {
    const useDense: bool
    var cards: seq<ToolCard>
    var docTexts: seq<string>
    var tokens: seq<seq<string>>
    /** Whether a BM25 model is fitted (the source keeps `None` otherwise). */
    var bm25Fitted: bool
    /** The document embeddings; `None` when dense scoring is off or could not be set up. */
    var denseEmbeddings: Option<seq<seq<real>>>

    /** One document, one token list and (when present) one embedding per card; BM25 is fitted exactly when there are cards. */
    ghost predicate Valid()
      reads this
    {
      && |docTexts| == |cards| && |tokens| == |cards|
      && bm25Fitted == (|cards| > 0)
      && (denseEmbeddings.Some? ==> |denseEmbeddings.value| == |cards|)
    }

    constructor(useDense: bool)
      ensures this.useDense == useDense
      ensures cards == [] && docTexts == [] && tokens == [] && !bm25Fitted && denseEmbeddings == None
      ensures Valid()
    {
      this.useDense := useDense;
      cards := [];
      docTexts := [];
      tokens := [];
      bm25Fitted := false;
      denseEmbeddings := None;
    }

    /**
     * `index(cards)`: replaces every earlier card, document, token list and
     * dense state.  Embeddings are computed only when dense scoring is on,
     * and are absent when the model cannot be loaded or fails.
     */
    method Index(newCards: seq<ToolCard>, c: Collaborators)
      requires WellBehaved(c)
      modifies this
      ensures cards == newCards
      ensures docTexts == DocTexts(newCards)
      ensures tokens == TokenLists(docTexts)
      ensures bm25Fitted == (|newCards| > 0)
      ensures denseEmbeddings == if useDense then c.encodeDocs(docTexts) else None
      ensures Valid()
    {
      cards := newCards;
      docTexts := DocTexts(newCards);
      tokens := TokenLists(docTexts);
      bm25Fitted := |tokens| > 0;
      denseEmbeddings := None;
      if useDense {
        denseEmbeddings := c.encodeDocs(docTexts);
      }
    }

    /** `_sparse_scores(text)` on the current index. */
    function SparseOf(text: string, c: Collaborators): (r: seq<real>)
      requires Valid() && WellBehaved(c)
      reads this
      ensures |r| == |cards|
    {
      SparseScores(tokens, text, c)
    }

    /** `_dense_scores(text)` on the current index. */
    function DenseOf(text: string, c: Collaborators): (r: Option<seq<real>>)
      requires Valid()
      reads this
      ensures r.Some? ==> |r.value| == |cards|
    {
      DenseScores(denseEmbeddings, c.encodeQuery(text))
    }

    /** What `query(text, top_k)` returns on the current index. */
    function QueryResult(text: string, topK: int, c: Collaborators): (hits: seq<RetrievalHit>)
      requires Valid() && WellBehaved(c)
      reads this
    {
      if |cards| == 0 then []
      else
        var sparse, dense := SparseOf(text, c), DenseOf(text, c);
        TopHits(cards, Hybrid(sparse, dense), sparse, dense, ClampTopK(topK, |cards|))
    }

    /**
     * `query(text, top_k)`: nothing for an empty index; otherwise exactly
     * `ClampTopK(top_k, n)` hits, the best by hybrid score, by non-increasing
     * score.  Without dense scores every hit's score is its sparse score and
     * it has no dense score; with them every score is an RRF score in
     * `[2/(60+n), 2/61]` and every hit has a dense score.
     */
    method Query(text: string, topK: int, c: Collaborators) returns (hits: seq<RetrievalHit>)
      requires Valid() && WellBehaved(c)
      ensures hits == QueryResult(text, topK, c)
      ensures |cards| == 0 ==> hits == []
      ensures |cards| > 0 ==> |hits| == ClampTopK(topK, |cards|)
      ensures forall i, j :: 0 <= i < j < |hits| ==> hits[i].score >= hits[j].score
      ensures forall j :: 0 <= j < |hits| ==> hits[j].card in cards
      ensures DenseOf(text, c).None? ==>
        forall j :: 0 <= j < |hits| ==> hits[j].score == hits[j].sparseScore && hits[j].denseScore.None?
      ensures DenseOf(text, c).Some? ==>
        forall j :: 0 <= j < |hits| ==>
          && FusedFloor(|cards|) <= hits[j].score <= 2.0 / 61.0
          && hits[j].denseScore.Some?
    {
      if |cards| == 0 {
        return [];
      }
      var n := |cards|;
      var k := ClampTopK(topK, n);
      var sparse := SparseScores(tokens, text, c);
      var dense := DenseScores(denseEmbeddings, c.encodeQuery(text));
      assert sparse == SparseOf(text, c) && dense == DenseOf(text, c);
      hits := FuseAndPick(cards, sparse, dense, k);
      assert hits == QueryResult(text, topK, c);
    }
  }

  /** Querying a backend indexed with no cards gives no hits, whatever the query. */
  method EmptyIndexQuery(useDense: bool, text: string, topK: int, c: Collaborators) returns (hits: seq<RetrievalHit>)
    requires WellBehaved(c)
    ensures hits == []
  {
    var backend := new InMemoryBackend(useDense);
    backend.Index([], c);
    hits := backend.Query(text, topK, c);
  }
}
