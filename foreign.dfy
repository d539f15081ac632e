/**
 * The third-party code the backends call and whose source is not part of the
 * model, as functions: the BM25 statistic of `rank_bm25`, the sentence
 * embedding model, and the vector store's nearest-neighbour search and the SHA-256 digest.
 */
module Foreign {
  import opened Wrappers

  /** One candidate list from the vector store: ids best first, with distances when it reports them. */
  datatype StoreResponse = StoreResponse(ids: seq<string>, distances: Option<seq<real>>)

  datatype Collaborators = Collaborators(
    /** `BM25Okapi(corpus).get_scores(query_tokens)`. */
    bm25: (seq<seq<string>>, seq<string>) -> seq<real>,
    /** Loading the embedding model and encoding the documents; `None` when either raises. */
    encodeDocs: seq<string> -> Option<seq<seq<real>>>,
    /** Encoding the query; `None` when it raises. */
    encodeQuery: string -> Option<seq<real>>,
    /** `collection.query(query_texts=[text], n_results=m)`, first (only) result list. */
    search: (string, nat) -> StoreResponse,
    /** `hashlib.sha256(text.encode()).hexdigest()`. */
    sha256Hex: string -> string)

  /** What the libraries promise: one non-negative BM25 score per document, one embedding per document, a distance per returned id. */
  ghost predicate WellBehaved(c: Collaborators) {
    && (forall corpus, q :: |c.bm25(corpus, q)| == |corpus|)
    && (forall corpus, q, i :: 0 <= i < |c.bm25(corpus, q)| ==> c.bm25(corpus, q)[i] >= 0.0)
    && (forall docs :: c.encodeDocs(docs).Some? ==> |c.encodeDocs(docs).value| == |docs|)
    && (forall text, m :: c.search(text, m).distances.Some? ==>
          |c.search(text, m).distances.value| == |c.search(text, m).ids|)
    && (forall text :: |c.sha256Hex(text)| == 64)
  }
}
