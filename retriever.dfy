/**
 * The facade that picks a backend from the requested mode and the corpus
 * size, indexes the cards into it once, and forwards queries to it.
 */
module Retriever {
  import opened Wrappers
  import opened Models
  import opened Foreign
  import opened Hits
  import Memory
  import Chroma

  /** Below this many cards, `"auto"` stays in memory. */
  const AutoStoreThreshold: nat := 100

  datatype BackendKind = InMemory | VectorStore

  /**
   * What happens when the vector-store backend is constructed: it comes up,
   * its library cannot be imported, or construction fails some other way.
   */
  datatype Construction = Constructed | ImportFailure | OtherFailure

  /** The error a failed construction raises. */
  datatype ConstructionError = ImportError | StoreError

  function ErrorOf(outcome: Construction): ConstructionError
    requires !outcome.Constructed?
  {
    if outcome.ImportFailure? then ImportError else StoreError
  }

  /**
   * The branch of `SkillRetriever.__init__`: `"chroma"` always builds the
   * store backend and lets any failure through; `"memory"`, or `"auto"`
   * with fewer than 100 cards, builds the in-memory backend; every other
   * mode tries the store and falls back to memory only on an import error.
   */
  function ChooseBackend(mode: string, n: nat, outcome: Construction): (r: Result<BackendKind, ConstructionError>)
    ensures mode == "chroma" ==> r == (if outcome.Constructed? then Ok(VectorStore) else Err(ErrorOf(outcome)))
    ensures mode == "memory" || (mode == "auto" && n < AutoStoreThreshold) ==> r == Ok(InMemory)
    ensures mode != "chroma" && mode != "memory" && !(mode == "auto" && n < AutoStoreThreshold) ==>
      && (outcome.Constructed? ==> r == Ok(VectorStore))
      && (outcome.ImportFailure? ==> r == Ok(InMemory))
      && (outcome.OtherFailure? ==> r == Err(StoreError))
    ensures r.Err? ==> !outcome.Constructed? && mode != "memory"
  {
    if mode == "chroma" then
      (if outcome.Constructed? then Ok(VectorStore) else Err(ErrorOf(outcome)))
    else if mode == "memory" || (mode == "auto" && n < AutoStoreThreshold) then Ok(InMemory)
    else if outcome.Constructed? then Ok(VectorStore)
    else if outcome.ImportFailure? then Ok(InMemory)
    else Err(ErrorOf(outcome))
  }

  class SkillRetriever {
    const kind: BackendKind
    const memory: Memory.InMemoryBackend?
    const store: Chroma.ChromaBackend?

    /** The chosen backend exists and is consistent. */
    ghost predicate Valid()
      reads this, memory, store
    {
      && (kind == InMemory ==> memory != null && memory.Valid())
      && (kind == VectorStore ==> store != null && store.Valid())
    }

    /** The cards the chosen backend holds. */
    ghost function Cards(): seq<ToolCard>
      requires Valid()
      reads this, memory, store
    {
      if kind == InMemory then memory.cards else store.cards
    }

    /**
     * The chosen backend is in the state `index(cards)` leaves on a new
     * backend of its kind: in memory, the documents, token lists, BM25 flag
     * and (with `use_dense`) embeddings of these cards; in the vector
     * store, these cards, their token lists and id map, and, when there are
     * cards, a collection holding each id's last record, upserted in
     * batches that list the ids in corpus order.
     */
    ghost predicate IndexedWith(cards: seq<ToolCard>, useDense: bool, c: Collaborators)
      requires WellBehaved(c)
      reads this, memory, store
    {
      && (kind == InMemory ==>
            && memory != null
            && memory.cards == cards && memory.useDense == useDense
            && memory.docTexts == Memory.DocTexts(cards)
            && memory.tokens == Memory.TokenLists(Memory.DocTexts(cards))
            && memory.bm25Fitted == (|cards| > 0)
            && memory.denseEmbeddings == (if useDense then c.encodeDocs(Memory.DocTexts(cards)) else None))
      && (kind == VectorStore ==>
            && store != null
            && store.cards == cards
            && store.tokens == Memory.TokenLists(Memory.DocTexts(cards))
            && store.cardMap == Chroma.Upsert(map[], Chroma.CardPairs(cards))
            && store.bm25Fitted == (|cards| > 0) && store.hasCollection == (|cards| > 0)
            && store.store == (if |cards| > 0 then Chroma.Upsert(map[], Chroma.StoreRecords(cards, c)) else map[])
            && (|cards| > 0 ==> Chroma.Flatten(store.batches) == Chroma.IdsOf(cards) && Chroma.BatchShape(store.batches, |cards|))
            && (|cards| == 0 ==> store.batches == []))
    }

    /**
     * Builds the chosen backend and indexes `cards` into it, once.  The
     * in-memory backend gets the caller's `use_dense`.
     */
    constructor(kind: BackendKind, cards: seq<ToolCard>, useDense: bool, c: Collaborators)
      requires WellBehaved(c)
      ensures this.kind == kind && Valid()
      ensures kind == InMemory ==> fresh(memory)
      ensures kind == VectorStore ==> fresh(store)
      ensures IndexedWith(cards, useDense, c) && Cards() == cards
    {
      this.kind := kind;
      if kind == InMemory {
        var backend := new Memory.InMemoryBackend(useDense);
        backend.Index(cards, c);
        memory := backend;
        store := null;
      } else {
        var backend := new Chroma.ChromaBackend();
        backend.Index(cards, c);
        store := backend;
        memory := null;
      }
    }

    /** What `retrieve` returns: the chosen backend's query result, unchanged. */
    function RetrieveResult(query: string, topK: int, c: Collaborators): seq<RetrievalHit>
      requires Valid() && WellBehaved(c)
      reads this, memory, store
    {
      if kind == InMemory then memory.QueryResult(query, topK, c) else store.QueryResult(query, topK, c)
    }

    /** `retrieve(query, top_k)`: delegates to the backend's `query`. */
    method Retrieve(query: string, topK: int, c: Collaborators) returns (hits: seq<RetrievalHit>)
      requires Valid() && WellBehaved(c)
      ensures hits == RetrieveResult(query, topK, c)
      ensures forall i, j :: 0 <= i < j < |hits| ==> hits[i].score >= hits[j].score
      ensures |Cards()| == 0 ==> hits == []
      ensures |Cards()| > 0 ==> |hits| == ClampTopK(topK, |Cards()|)
      ensures forall j :: 0 <= j < |hits| ==> hits[j].card in Cards()
    {
      if kind == InMemory {
        hits := memory.Query(query, topK, c);
      } else {
        hits := store.Query(query, topK, c);
      }
    }
  }

  /**
   * `SkillRetriever(cards, use_dense=..., backend=mode)`: an error when the
   * chosen construction raises, otherwise a retriever over the chosen
   * backend with the cards indexed.
   */
  method NewRetriever(cards: seq<ToolCard>, useDense: bool, mode: string, outcome: Construction, c: Collaborators)
    returns (r: Result<SkillRetriever, ConstructionError>)
    requires WellBehaved(c)
    ensures ChooseBackend(mode, |cards|, outcome).Err? ==> r == Err(ChooseBackend(mode, |cards|, outcome).error)
    ensures ChooseBackend(mode, |cards|, outcome).Ok? ==>
      && r.Ok? && fresh(r.value) && r.value.Valid() && r.value.kind == ChooseBackend(mode, |cards|, outcome).value
      && r.value.IndexedWith(cards, useDense, c) && r.value.Cards() == cards
  {
    var choice := ChooseBackend(mode, |cards|, outcome);
    if choice.Err? {
      return Err(choice.error);
    }
    var retriever := new SkillRetriever(choice.value, cards, useDense, c);
    return Ok(retriever);
  }
}
