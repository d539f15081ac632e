# SkillMesh retrieval core in Dafny

SkillMesh keeps a registry of tool cards. A card is a record with an id, a
title, a domain, an instruction file and optional lists, maps and texts. For
a free-text query, SkillMesh returns the few cards that fit it best, and it
renders them as context for an assistant, either as Claude-style XML or as
Codex-style Markdown.

This project models that core and proves its properties:

- **Loading the registry** (`Registry`). This covers the file-format
  dispatch, picking the entry list, validating required fields, cleaning
  list and map fields, reading the instruction text, and rejecting
  duplicate ids.
- **The in-memory backend** (`Memory.InMemoryBackend`). It scores with
  BM25 and optional dense embeddings. Its helpers are the tokenizer
  (`Tokenizer`), the score normalisations (`Scoring`), argsort and
  reciprocal-rank fusion (`Ranking`), and top-k selection (`Hits`).
- **The vector-store backend** (`Chroma.ChromaBackend`). It keeps a local
  card map and a BM25 index, upserts documents and metadata into a store in
  batches of 500, turns the store's candidate list into dense scores, and
  fuses them with the sparse scores.
- **The retriever facade** (`Retriever.SkillRetriever`), which chooses the
  backend.
- **The two context renderers** (`Adapters`).
- **Registry-path resolution** (`Resolve`).
- **The MCP tool functions** (`Mcp`). They validate arguments and build
  either the JSON payload or the routed context.

Four things are parameters of the model rather than parts of it:

- The third-party libraries: the BM25 statistic, the sentence-embedding
  model, the vector store's nearest-neighbour search and SHA-256. They are
  function-valued fields of `Foreign.Collaborators`. The ghost predicate
  `WellBehaved` states what the model relies on: one BM25 score per
  document, assumed non-negative (the real statistic can be negative, see
  "Left out"), one embedding per document, one distance per
  returned id, and a 64-digit hex digest.
- The file system and the environment, which are the `Host` record in
  `Resolve`.
- The parsed registry document, which is a `Values.Value`.
- The `:.4f` score formatting, which is the `fmt` argument of the
  renderers.

Python dicts are insertion-ordered association lists. Where a loop
overwrites entries (the store and the card map), they are Dafny maps built
by `Chroma.Upsert`. Floats are `real`.

## Model

| member | source | states |
|---|---|---|
| Models.NewToolCard | src/skill_registry_rag/models.py:7-26 | the constructor keeps the four required fields it is given |
| Models.DefaultsAreEmpty | src/skill_registry_rag/models.py:13-26 | every optional field defaults to an empty string, list or dict |
| Models.NewHit | src/skill_registry_rag/models.py:29-34 | a hit keeps its card, fused score and sparse score |
| Models.HitDenseDefaultsToNone | src/skill_registry_rag/models.py:34 | a hit built without a dense score has none |
| Values.GetFound | src/skill_registry_rag/registry.py:116 | `row.get(key)` finds a value exactly when some entry has that key, and the value found is stored under it |
| Values.ToStr | src/skill_registry_rag/registry.py:89 | `str(x)` of a string is the string; of anything else, a non-empty text that does not start with whitespace |
| Values.Repr | src/skill_registry_rag/registry.py:89 | the printed form of a non-string value is never blank |
| Values.BlankOnlyIfString | src/skill_registry_rag/registry.py:89 | only an all-whitespace string strips to empty, so list items other than strings are always kept |
| Text.Strip | src/skill_registry_rag/mcp_server.py:17 | `strip()` gives a text no longer than its input that neither starts nor ends with whitespace |
| Text.StripBlank | src/skill_registry_rag/mcp_server.py:17-19 | a text strips to empty exactly when it is all whitespace |
| Text.StripOfStripped | src/skill_registry_rag/registry.py:89 | stripping a text without outer whitespace leaves it unchanged |
| Text.StripIdempotent | src/skill_registry_rag/registry.py:89 | stripping twice is stripping once |
| Text.StripNonBlank | src/skill_registry_rag/mcp_server.py:17-19 | a text starting with a non-space character does not strip to empty |
| Text.RStrip | src/skill_registry_rag/adapters/codex.py:40 | `rstrip()` gives a prefix of the input after which only whitespace follows, ending in a non-space character or empty |
| Text.LowerChar | src/skill_registry_rag/mcp_server.py:30 | a lowered character is never upper case, and a character that is not upper case is unchanged |
| Text.Lower | src/skill_registry_rag/mcp_server.py:30 | `lower()` keeps the length and lowers each character in place |
| Text.LowerIdempotent | src/skill_registry_rag/mcp_server.py:30 | lowering twice is lowering once |
| Text.LowerKeepsSpace | src/skill_registry_rag/mcp_server.py:30 | lowering neither creates nor removes whitespace |
| Text.StripLower | src/skill_registry_rag/mcp_server.py:30 | stripping and lowering commute |
| Text.SlicePrefix | src/skill_registry_rag/backends/memory.py:109 | Python's `s[:n]` is the prefix of length `min(n, len)` for `n >= 0`, and drops `-n` items from the end for negative `n` |
| Text.IntToDecimal | src/skill_registry_rag/adapters/codex.py:20 | a number prints as a non-empty text that starts with a digit or a minus sign |
| Tokenizer.RunLength | src/skill_registry_rag/backends/memory.py:15 | the longest leading run of token characters is followed by a non-token character or by the end |
| Tokenizer.Runs | src/skill_registry_rag/backends/memory.py:15 | every match is a non-empty run of token characters, and a lower-case text yields lower-case tokens |
| Tokenizer.Tokenize | src/skill_registry_rag/backends/memory.py:14-15 | every token is non-empty, lower case and made of letters, digits, `_` and `.` |
| Tokenizer.RunsOfJoinedTokens | src/skill_registry_rag/backends/memory.py:15 | matching a space-joined list of tokens finds exactly those tokens |
| Tokenizer.JoinedTokensAreLower | src/skill_registry_rag/backends/memory.py:15 | a space-joined list of tokens has no upper-case letter |
| Tokenizer.LowerOfLower | src/skill_registry_rag/backends/memory.py:15 | lowering a text that has no upper-case letter changes nothing |
| Tokenizer.TokenizeJoined | src/skill_registry_rag/backends/memory.py:14-15 | tokenizing a space-joined list of tokens gives that list back |
| Tokenizer.TokenizeRoundTrip | src/skill_registry_rag/backends/memory.py:14-15 | re-tokenizing the space-joined tokens of a text gives the same tokens |
| Tokenizer.NoTokenChars | src/skill_registry_rag/backends/memory.py:14-15 | a text without letters, digits, `_` or `.` has no tokens |
| Ranking.IotaCount | src/skill_registry_rag/backends/memory.py:60 | `0..n-1` holds each index below `n` exactly once |
| Ranking.PermutationFacts | src/skill_registry_rag/backends/memory.py:60 | an argsort order has length `n` and holds distinct indices below `n` |
| Ranking.InsertDesc | src/skill_registry_rag/backends/memory.py:60 | inserting an index into an order sorted by descending score keeps it sorted and adds exactly that index |
| Ranking.SortDesc | src/skill_registry_rag/backends/memory.py:60 | the result is a permutation of its input, ordered by non-increasing score |
| Ranking.ArgsortDesc | src/skill_registry_rag/backends/memory.py:60 | `argsort(-scores)` is a permutation of the indices, ordered by non-increasing score |
| Ranking.Rrf | src/skill_registry_rag/backends/memory.py:18-23 | the array filled rank by rank holds, for each document, the sum of `1/(60+rank)` over the rankings |
| Ranking.RecipAntitone | src/skill_registry_rag/backends/memory.py:22 | a later rank never contributes more than an earlier one |
| Ranking.PrefixContributionBounds | src/skill_registry_rag/backends/memory.py:21-22 | a document absent from a ranking prefix gets 0 from it; present once, it gets between `1/(60+p)` and `1/61` |
| Ranking.ContributionOfPermutation | src/skill_registry_rag/backends/memory.py:21-22 | in a full ranking of `n` documents each gets between `1/(60+n)` and `1/61` |
| Ranking.TwoRankingBounds | src/skill_registry_rag/backends/memory.py:65 | fusing two full rankings gives every document a score in `[2/(60+n), 2/61]` |
| Ranking.AllTwoRankingBounds | src/skill_registry_rag/backends/memory.py:65 | the same bound holds for all documents at once |
| Ranking.FusedScores | src/skill_registry_rag/backends/memory.py:64-65 | the hybrid score of each document is its RRF score over the sparse and dense argsorts, in `[2/(60+n), 2/61]` |
| Scoring.SeqMax | src/skill_registry_rag/backends/memory.py:135 | `np.max` bounds every score and is one of them |
| Scoring.SeqMin | src/skill_registry_rag/backends/memory.py:154 | `np.min` is below every score and is one of them |
| Scoring.MaxNormalize | src/skill_registry_rag/backends/memory.py:135-136 | with a positive maximum, scores are at most 1 and the best become exactly 1; otherwise unchanged; non-negative input stays in `[0, 1]`; the order of documents is kept |
| Scoring.MinMaxNormalize | src/skill_registry_rag/backends/memory.py:154-158 | min-max scaling gives values in `[0, 1]`: all 0 when the spread is below `1e-9`, otherwise the minimum maps to 0, the maximum to 1 and order is kept |
| Scoring.Rescale | src/skill_registry_rag/backends/memory.py:158 | `(s - mn)/(mx - mn)` maps `[mn, mx]` onto `[0, 1]`, endpoints to endpoints, keeping order |
| Scoring.DenseScores | src/skill_registry_rag/backends/memory.py:147-160 | dense scores exist only when the documents and the query were both encoded; there is one per document and each is in `[0, 1]` |
| Scoring.Jaccard | src/skill_registry_rag/backends/memory.py:141-144 | the overlap is in `[0, 1]`; it is 0 for disjoint or empty sets, and 1 exactly for equal non-empty sets |
| Scoring.JaccardScores | src/skill_registry_rag/backends/memory.py:138-145 | the loop yields each document's Jaccard overlap with the query tokens, in `[0, 1]` |
| Scoring.SparseScores | src/skill_registry_rag/backends/memory.py:125-136 | one score per document, in `[0, 1]`; all 0 for a query without tokens; otherwise BM25 divided by its maximum |
| Scoring.SparseTopScoresOne | src/skill_registry_rag/backends/memory.py:136 | the best BM25 document gets sparse score exactly 1 when some BM25 score is positive |
| Scoring.MinPositive | src/skill_registry_rag/backends/chroma.py:149 | the smallest positive dense score is positive, below every positive score and one of them |
| Scoring.PositiveNormalized | src/skill_registry_rag/backends/chroma.py:148-152 | the masked normalisation keeps one score per document |
| Scoring.RescalePositives | src/skill_registry_rag/backends/chroma.py:151-152 | positive scores become `(s - mn)/(mx - mn)`; the others stay as they are |
| Scoring.PositiveBounds | src/skill_registry_rag/backends/chroma.py:148-149 | with a positive score, `mx` is the maximum and `mn` the least positive score; without one, the spread is not positive |
| Scoring.PositiveNormalizedKeeps | src/skill_registry_rag/backends/chroma.py:150 | non-positive scores are never changed, and nothing changes when no score is positive or the spread is at most `1e-9` |
| Scoring.PositiveNormalizedRescales | src/skill_registry_rag/backends/chroma.py:150-152 | above the threshold, positive scores land in `[0, 1]`, the maximum at 1 and the least positive at 0 |
| Scoring.RescaledAt | src/skill_registry_rag/backends/chroma.py:151-152 | the same facts for one positive score |
| Scoring.RescaleAt | src/skill_registry_rag/backends/chroma.py:152 | one rescaled positive score lies in `[0, 1]`, with `mx` at 1 and `mn` at 0 |
| Scoring.NormalizePositiveInPlace | src/skill_registry_rag/backends/chroma.py:148-152 | the in-place array update leaves exactly the masked normalisation of the old contents |
| Scoring.RescalePositivesInPlace | src/skill_registry_rag/backends/chroma.py:151-152 | the masked assignment loop rescales exactly the positive entries of the old array |
| Compose.ContractPairs | src/skill_registry_rag/backends/memory.py:87-89 | one `k:v` item per input-contract entry, in order |
| Compose.MetadataPairs | src/skill_registry_rag/backends/memory.py:90 | one `k:str(v)` item per metadata entry, in order |
| Compose.DocLines | src/skill_registry_rag/backends/memory.py:91-111 | the document is built from exactly 17 lines |
| Compose.ComposeDocShape | src/skill_registry_rag/backends/memory.py:91-111 | the document starts with the card id and a newline, and ends with a newline and the first 2000 characters of the instructions |
| Compose.ComposeDocIgnoresLongInstructions | src/skill_registry_rag/backends/memory.py:109 | cards that differ only after the 2000th instruction character get the same document |
| Compose.CardHash | src/skill_registry_rag/backends/chroma.py:19-21 | the content hash is the first 16 hex digits of the SHA-256 of id, title, description, tags and the first 500 instruction characters |
| Compose.CardHashIgnoresLongInstructions | src/skill_registry_rag/backends/chroma.py:20 | cards that differ only after the 500th instruction character get the same hash |
| Compose.SidecarOf | src/skill_registry_rag/backends/chroma.py:92-101 | the stored metadata carries the card's domain, risk level and maturity, its first 20 tags joined by commas, and a 16-digit hash |
| Compose.SidecarKeepsTwentyTags | src/skill_registry_rag/backends/chroma.py:97 | the stored tag list names `min(20, tags)` tags when no tag contains a comma |
| Hits.ClampTopK | src/skill_registry_rag/backends/memory.py:55 | the hit count is at least 1 and at most `min(20, n)`; it is the request when that fits, 1 below, `min(20, n)` above |
| Hits.CandidatePoolSize | src/skill_registry_rag/backends/chroma.py:130 | the candidate pool is `min(n, max(3k, 20))`: never above `n`, never below `k` or `min(n, 20)` |
| Hits.TopIndices | src/skill_registry_rag/backends/memory.py:67 | the first `k` argsort indices are distinct valid documents, by non-increasing score, and no document left out scores above any chosen one |
| Hits.TopIsBest | src/skill_registry_rag/backends/memory.py:67 | a prefix of a descending argsort holds the best documents |
| Hits.HitAt | src/skill_registry_rag/backends/memory.py:70-77 | a hit carries its document's card, hybrid score and sparse score, and a dense score exactly when dense scores exist |
| Hits.TopHits | src/skill_registry_rag/backends/memory.py:67-79 | `k` hits of distinct documents by non-increasing score, none beaten by a document left out; sparse-only hits score their sparse score and carry no dense score |
| Hits.CollectHits | src/skill_registry_rag/backends/memory.py:68-79 | the hit loop builds one hit per chosen index, in order |
| Hits.Hybrid | src/skill_registry_rag/backends/memory.py:61-65 | without dense scores the hybrid score is the sparse score; with them it is the RRF fusion of both rankings |
| Hits.FuseAndPick | src/skill_registry_rag/backends/memory.py:60-79 | the hits are the top `k` by hybrid score, ranked, drawn from the cards; sparse-only or fused, with the matching score bounds and dense scores |
| Hits.HybridHitsRanked | src/skill_registry_rag/backends/memory.py:60-79 | the hits are ranked and every hit's card is one of the indexed cards |
| Hits.SparseOnlyHits | src/skill_registry_rag/backends/memory.py:61-62 | without dense scores every hit scores its sparse score and carries no dense score |
| Hits.HitsWithin | src/skill_registry_rag/backends/memory.py:74 | when all documents score within bounds, so does every hit |
| Hits.HitScore | src/skill_registry_rag/backends/memory.py:74 | every hit's score is some document's hybrid score |
| Hits.FusedHits | src/skill_registry_rag/backends/memory.py:63-65 | with dense scores every hit scores in `[2/(60+n), 2/61]` and carries a dense score |
| Memory.DocTexts | src/skill_registry_rag/backends/memory.py:44 | one composed document per card, in order |
| Memory.TokenLists | src/skill_registry_rag/backends/memory.py:45 | one token list per document, in order |
| Memory.InMemoryBackend.constructor | src/skill_registry_rag/backends/memory.py:29-36 | a new backend keeps the dense flag and has an empty, unfitted index |
| Memory.InMemoryBackend.Index | src/skill_registry_rag/backends/memory.py:42-50 | indexing replaces cards, documents and tokens, fits BM25 exactly when there are cards, and encodes the documents only with the dense flag |
| Memory.InMemoryBackend.SparseOf | src/skill_registry_rag/backends/memory.py:125-136 | one sparse score per indexed card |
| Memory.InMemoryBackend.DenseOf | src/skill_registry_rag/backends/memory.py:147-160 | dense scores, when present, are one per indexed card |
| Memory.InMemoryBackend.Query | src/skill_registry_rag/backends/memory.py:52-79 | no hits for an empty index; otherwise the clamped number of hits, ranked, from the indexed cards, sparse-only or fused with the RRF bounds |
| Memory.EmptyIndexQuery | src/skill_registry_rag/backends/memory.py:53-54 | after indexing no cards, every query returns no hits |
| Chroma.LastIndexOf | src/skill_registry_rag/backends/chroma.py:74 | the last position of a key, or none exactly when the key is absent |
| Chroma.UpsertKeys | src/skill_registry_rag/backends/chroma.py:106-110 | after upserting, the keys are the old keys plus the upserted ids |
| Chroma.UpsertLookup | src/skill_registry_rag/backends/chroma.py:106-110 | an upserted id holds the value of its last occurrence; other keys keep their old value |
| Chroma.UpsertAppend | src/skill_registry_rag/backends/chroma.py:104-110 | upserting in two batches equals upserting everything at once |
| Chroma.StoreRecords | src/skill_registry_rag/backends/chroma.py:90-101 | one (document, metadata) record per card |
| Chroma.CardPairs | src/skill_registry_rag/backends/chroma.py:74 | one `(id, card)` pair per card, in order |
| Chroma.IdsOf | src/skill_registry_rag/backends/chroma.py:90 | the card ids, in order |
| Chroma.IdIndex | src/skill_registry_rag/backends/chroma.py:135 | `id_to_idx` maps every card id, and only those, to the last position holding it |
| Chroma.FillPrefix | src/skill_registry_rag/backends/chroma.py:134-146 | the dense array after any number of candidates has one entry per card |
| Chroma.FillPrefixUntouched | src/skill_registry_rag/backends/chroma.py:134 | a card no candidate so far names keeps dense score 0 |
| Chroma.FillPrefixLast | src/skill_registry_rag/backends/chroma.py:140-146 | a card gets the score of the last candidate that names it |
| Chroma.CandidateScores | src/skill_registry_rag/backends/chroma.py:133-146 | one dense score per card |
| Chroma.CandidateScoresAt | src/skill_registry_rag/backends/chroma.py:140-146 | a card never returned scores 0; otherwise it scores `1 - distance`, or `1/(rank+1)`, of its last returned candidate |
| Chroma.BatchProgressStep | src/skill_registry_rag/backends/chroma.py:104-105 | each batch is full except possibly the last, so the batch shape is kept |
| Chroma.UpsertInBatches | src/skill_registry_rag/backends/chroma.py:103-110 | the batched loop upserts exactly what one upsert of all records would, and its batches cover the ids in order, 500 at a time |
| Chroma.ChromaBackend.constructor | src/skill_registry_rag/backends/chroma.py:46-62 | a new backend has no cards, no index and no collection |
| Chroma.ChromaBackend.Index | src/skill_registry_rag/backends/chroma.py:64-110 | no cards resets the local state and leaves the store alone; otherwise the card map, tokens, store contents and batch shape are those of the new cards |
| Chroma.ChromaBackend.Reset | src/skill_registry_rag/backends/chroma.py:65-71 | the reset empties the local state and drops the collection handle, without touching the store |
| Chroma.ChromaBackend.Load | src/skill_registry_rag/backends/chroma.py:73-110 | a non-empty load sets the local index and writes every card to the store in batches |
| Chroma.ChromaBackend.LoadLocal | src/skill_registry_rag/backends/chroma.py:73-78 | the cards, card map (last card wins per id) and tokens are those of the new cards |
| Chroma.ChromaBackend.WriteStore | src/skill_registry_rag/backends/chroma.py:85-110 | after the batched upserts the store holds each id's last record, and the batches cover the ids in order (a repeated id is not refused, see "Left out") |
| Chroma.ChromaBackend.DenseOf | src/skill_registry_rag/backends/chroma.py:130-152 | one dense score per card |
| Chroma.ChromaBackend.Query | src/skill_registry_rag/backends/chroma.py:125-171 | no hits without cards or collection; otherwise the clamped number of hits, ranked, from the cards, each with an RRF score in `[2/(60+n), 2/61]` and a dense score |
| Chroma.CandidateScoresInto | src/skill_registry_rag/backends/chroma.py:133-146 | the candidate loop fills a fresh array with exactly the per-card dense scores |
| Chroma.StoreContents | src/skill_registry_rag/backends/chroma.py:90-110 | the store holds exactly the card ids, each with the document and metadata of its last card |
| Chroma.CardMapContents | src/skill_registry_rag/backends/chroma.py:74 | the card map holds exactly the card ids, each mapped to its last card |
| Chroma.IndexEmptyThenQuery | src/skill_registry_rag/backends/chroma.py:126-127 | after indexing no cards, every query returns no hits |
| Retriever.ChooseBackend | src/skill_registry_rag/retriever.py:11-21 | `chroma` always builds the store and lets its errors through; `memory` or `auto` below 100 cards builds memory; otherwise the store, falling back to memory only on an import error |
| Retriever.SkillRetriever.constructor | src/skill_registry_rag/retriever.py:10-22 | the chosen backend is fresh, holds exactly these cards, and is in the state its `index(cards)` leaves: in memory the documents, token lists, BM25 flag and (with `use_dense`) embeddings of the cards; in the vector store the tokens, id map, collection flag, store contents and upsert batches of the cards |
| Retriever.SkillRetriever.Retrieve | src/skill_registry_rag/retriever.py:24-25 | retrieving forwards to the chosen backend's query: ranked hits, each a card the backend holds, `top_k` of them clamped to the corpus size, none for an empty corpus |
| Retriever.NewRetriever | src/skill_registry_rag/retriever.py:10-22 | construction fails exactly when the backend choice fails, with its error; otherwise it gives a fresh retriever of the chosen kind that holds these cards, indexed as its constructor states |
| Registry.BaseName | src/skill_registry_rag/registry.py:51 | the file name is a slash-free suffix of the path |
| Registry.LastDot | src/skill_registry_rag/registry.py:51 | the last dot of a name, or none when there is no dot |
| Registry.Suffix | src/skill_registry_rag/registry.py:51 | `Path.suffix` is empty or a dot followed by at least one character and no further dot |
| Registry.StructuredFormat | src/skill_registry_rag/registry.py:49-56 | a file is read as YAML exactly when its lower-cased suffix is `.yaml` or `.yml`; as JSON for `.json`; otherwise it is refused |
| Registry.SelectEntries | src/skill_registry_rag/registry.py:59-74 | a list is the entry list; an object gives its `tools` list, else its `roles` list, else an error; anything else is an error |
| Registry.Rows | src/skill_registry_rag/registry.py:76-81 | the objects of entries that are all objects, in order |
| Registry.ExpectedEntries | src/skill_registry_rag/registry.py:59-81 | the selection error; else the first non-object entry's index, after objects only; else the entries' objects in order, exactly when all entries are objects |
| Registry.FirstNonObject | src/skill_registry_rag/registry.py:77-79 | a non-object entry after objects only is the index reported |
| Registry.NormalizeEntries | src/skill_registry_rag/registry.py:59-81 | the loop yields `ExpectedEntries`: succeeds exactly when every entry is an object, keeping them all in order; otherwise reports the first non-object index |
| Registry.Strs | src/skill_registry_rag/registry.py:89 | `str(x)` of each item, in order |
| Registry.CleanStrings | src/skill_registry_rag/registry.py:89 | the cleaned list is no longer than its input |
| Registry.CleanItems | src/skill_registry_rag/registry.py:89 | every kept item is stripped and non-empty |
| Registry.CleanStringsClean | src/skill_registry_rag/registry.py:89 | every kept string is non-empty and stripped |
| Registry.CleanStringsKeeps | src/skill_registry_rag/registry.py:89 | every item that does not strip to empty is kept, stripped |
| Registry.CleanStringsSources | src/skill_registry_rag/registry.py:89 | every kept string is the stripped form of some item |
| Registry.CleanStringsAppend | src/skill_registry_rag/registry.py:89 | cleaning distributes over concatenation, so order is kept |
| Registry.CleanItemsAppend | src/skill_registry_rag/registry.py:89 | the same for raw items |
| Registry.CleanItemsSingle | src/skill_registry_rag/registry.py:89 | one item is kept, as its stripped text, exactly when that text is non-empty |
| Registry.CleanStringsKept | src/skill_registry_rag/registry.py:89 | an already clean list is unchanged |
| Registry.CleanItemsIdempotent | src/skill_registry_rag/registry.py:89 | cleaning a cleaned list again changes nothing |
| Registry.ToList | src/skill_registry_rag/registry.py:84-89 | `None` gives the empty list, a non-list is an error naming the field and card, and a list gives its cleaned items |
| Registry.DictPut | src/skill_registry_rag/registry.py:102 | assigning a key adds an entry only when the key is new, and adds nothing but that entry |
| Registry.DictPutGet | src/skill_registry_rag/registry.py:102 | after `d[key] = value` the key reads `value` and every other key reads as before |
| Registry.DictPutUnique | src/skill_registry_rag/registry.py:102 | assignment keeps keys unique |
| Registry.StrPairs | src/skill_registry_rag/registry.py:98-100 | every entry with its value printed, in order |
| Registry.CleanPairsLookup | src/skill_registry_rag/registry.py:97-103 | each key reads the value of its last entry whose stripped key and value are both non-empty |
| Registry.CleanPairsWellFormed | src/skill_registry_rag/registry.py:97-103 | the cleaned map has unique keys, and all keys and values are stripped and non-empty |
| Registry.ToMap | src/skill_registry_rag/registry.py:92-103 | `None` gives the empty map, a non-object is an error, an object gives its cleaned pairs; the loop computes the `ToMapValue` used by the card builder's specification |
| Registry.ToAnyMap | src/skill_registry_rag/registry.py:106-111 | `None` gives the empty map, a non-object is an error, an object is copied as it is |
| Registry.FirstFalse | src/skill_registry_rag/registry.py:115-118 | the first failing position, or none exactly when all pass |
| Registry.FirstMissing | src/skill_registry_rag/registry.py:115-118 | the first required field that is blank, or none exactly when all are present |
| Registry.ValidateRequired | src/skill_registry_rag/registry.py:114-118 | succeeds exactly when every required field is non-blank; otherwise names the first blank field and the entry index |
| Registry.NullRequiredFieldPasses | src/skill_registry_rag/registry.py:116 | a required field holding null reads as `"None"`, so it passes validation |
| Registry.InstructionText | src/skill_registry_rag/registry.py:155-162 | a non-blank inline text wins; otherwise the file's stripped text, or an error naming the card and the file when it is missing |
| Registry.AllOk | src/skill_registry_rag/registry.py:170-181 | succeeds exactly when every conversion does, keeping all values; otherwise reports the first error |
| Registry.ListValues | src/skill_registry_rag/registry.py:170-181 | the eight list fields convert in order, and the first failing one decides the error |
| Registry.BuildCard | src/skill_registry_rag/registry.py:164-189 | a built card's id is the stripped `id` field |
| Registry.BuildCardOk | src/skill_registry_rag/registry.py:164-189 | a card is built exactly when its instruction text, list fields, input contract and metadata all convert |
| Registry.RegistryChecks | src/skill_registry_rag/registry.py:145-189 | the per-entry steps of the loader are required-field validation, the stripped id and card construction |
| Registry.RegistryChecksAgree | src/skill_registry_rag/registry.py:147-164 | a built card always carries the id its entry was checked under |
| Registry.LoadedCards | src/skill_registry_rag/registry.py:144-190 | succeeds exactly when every entry is accepted, with one card per entry built from it; otherwise the error of the first refused entry, after accepted ones only |
| Registry.LoadedCardsDistinct | src/skill_registry_rag/registry.py:147-150 | when the checks agree on ids, the loaded cards have pairwise distinct ids |
| Registry.FirstRefused | src/skill_registry_rag/registry.py:144-190 | an entry refused after accepted ones only is the one whose error the loader reports |
| Registry.AllAccepted | src/skill_registry_rag/registry.py:144-192 | when every entry is accepted, the loader yields exactly the built cards |
| Registry.LoadEntries | src/skill_registry_rag/registry.py:144-190 | the loop yields `LoadedCards`: succeeds exactly when every entry validates, has a fresh id and builds; yields one card per entry with distinct ids; otherwise reports the first failing entry's error |
| Registry.DistinctIds | src/skill_registry_rag/registry.py:147-150 | rejecting repeated ids leaves cards with pairwise distinct ids |
| Registry.ExpectedLoad | src/skill_registry_rag/registry.py:121-192 | a registry loads exactly when the file exists, its suffix is supported, its entries are selected, all are objects and all are accepted; then each entry is built into its card, with distinct ids |
| Registry.LoadRegistry | src/skill_registry_rag/registry.py:121-192 | yields `ExpectedLoad`: a missing file, an unsupported suffix, a bad top level, the first non-object entry and the first refused entry are errors in that order; otherwise one built card per entry, with distinct ids |
| Resolve.Candidates | src/skill_registry_rag/_resolve.py:12 | the search visits the module's directory, then all of its parents |
| Resolve.FirstRoot | src/skill_registry_rag/_resolve.py:12-14 | the first directory holding both markers, or none exactly when no directory holds them |
| Resolve.FindRepoRoot | src/skill_registry_rag/_resolve.py:9-15 | the repository root is the first parent holding both markers, or none when no parent does |
| Resolve.CandidatesSameRoot | src/skill_registry_rag/_resolve.py:12 | looking at the module's directory twice finds the same root |
| Resolve.DefaultRegistryPath | src/skill_registry_rag/_resolve.py:18-40 | a found default exists; the only error is a non-blank environment variable naming a missing file |
| Resolve.ResolveRegistryPath | src/skill_registry_rag/_resolve.py:43-57 | a resolved path exists; "not found" happens only for an explicit path, the other errors only without one |
| Resolve.ExplicitPathWins | src/skill_registry_rag/_resolve.py:45-49 | a non-blank explicit path decides alone, whatever the environment, repository or bundle |
| Resolve.EnvironmentWins | src/skill_registry_rag/_resolve.py:20-27 | otherwise a non-blank `SKILLMESH_REGISTRY` decides alone: its file, or an error when it is missing |
| Resolve.RepositoryBeforeBundled | src/skill_registry_rag/_resolve.py:29-34 | otherwise an existing repository registry wins over the bundled one |
| Resolve.SameRootsSameResult | src/skill_registry_rag/_resolve.py:9-15 | the root found depends only on which directories hold both markers |
| Resolve.FirstRootAgrees | src/skill_registry_rag/_resolve.py:12-14 | the same for any list of directories |
| Resolve.MissingExactlyWhenNothingApplies | src/skill_registry_rag/_resolve.py:51-56 | "missing registry path" is raised exactly when no explicit path, no variable, no repository registry and no bundle exist |
| Mcp.NormalizeQuery | src/skill_registry_rag/mcp_server.py:16-20 | a query is refused exactly when it is all whitespace; otherwise it is stripped, non-empty and without outer whitespace |
| Mcp.NormalizeQueryIdempotent | src/skill_registry_rag/mcp_server.py:16-20 | normalising a normalised query changes nothing |
| Mcp.NormalizeTopK | src/skill_registry_rag/mcp_server.py:23-26 | `top_k` is accepted, unchanged, exactly when it is at least 1 |
| Mcp.NormalizeProvider | src/skill_registry_rag/mcp_server.py:29-33 | accepted exactly when the stripped, lower-cased name is `claude` or `codex`, and then it is that name |
| Mcp.ProviderIgnoresCase | src/skill_registry_rag/mcp_server.py:30 | provider names are case-insensitive |
| Mcp.NormalWord | src/skill_registry_rag/mcp_server.py:30 | a lower-case word is its own normal form |
| Mcp.NamesAreNormal | src/skill_registry_rag/mcp_server.py:12-13 | the valid provider and backend names are their own normal forms |
| Mcp.NormalizeProviderIdempotent | src/skill_registry_rag/mcp_server.py:29-33 | normalising a normalised provider changes nothing |
| Mcp.NormalizeBackend | src/skill_registry_rag/mcp_server.py:36-40 | an empty backend means `auto`; otherwise accepted exactly when the stripped, lower-cased name is `auto`, `memory` or `chroma` |
| Mcp.EmptyBackendIsAuto | src/skill_registry_rag/mcp_server.py:37 | an empty backend and `auto` are the same |
| Mcp.BlankBackendRefused | src/skill_registry_rag/mcp_server.py:37-39 | a non-empty blank backend is refused, unlike the empty one |
| Mcp.ValidationError | src/skill_registry_rag/mcp_server.py:51-53 | an invalid query, `top_k` or backend gives an invalid-argument error |
| Mcp.RetrieveHits | src/skill_registry_rag/mcp_server.py:43-67 | bad arguments fail first, then an unresolved path, then the loader, which fails exactly when `load_registry` (`ExpectedLoad`) does on the resolved path, with its error, and otherwise yields the registry's cards; then the backend choice, which fails exactly when `ChooseBackend` does for those cards; and on success the query is stripped, the registry exists, and the hits are ranked cards of the registry, `top_k` clamped to its size, none for an empty one |
| Mcp.ResolvedRegistryExists | src/skill_registry_rag/mcp_server.py:54 | a resolved registry path always exists |
| Mcp.PayloadEntries | src/skill_registry_rag/mcp_server.py:85-108 | one payload entry per hit |
| Mcp.BuildPayloadEntries | src/skill_registry_rag/mcp_server.py:85-108 | the payload loop builds exactly the entry of each hit, in order |
| Mcp.PayloadKeepsRanking | src/skill_registry_rag/mcp_server.py:86-107 | the payload keeps each hit's id and three scores, in hit order, so it is ranked like the hits |
| Mcp.PayloadOmitsInstructions | src/skill_registry_rag/mcp_server.py:88-107 | the payload does not depend on instruction text, instruction file or examples |
| Mcp.LoadableRegistryPassesLoader | src/skill_registry_rag/mcp_server.py:56-59 | a valid request over a registry that `load_registry` accepts is never refused as an invalid registry, and retrieves over its cards |
| Mcp.RetrieveFrom | src/skill_registry_rag/mcp_server.py:61-66 | building the retriever fails exactly when the backend choice fails, with its error; otherwise the hits are ranked cards of the corpus, `top_k` clamped to its size, none for no cards |
| Mcp.RetrieveCardsPayload | src/skill_registry_rag/mcp_server.py:70-114 | the retrieval pipeline's outcome, as `RetrieveHits` states it: its error unchanged, or the stripped query, the resolved registry and the payload entries of its hits |
| Mcp.RoutedContextShape | src/skill_registry_rag/mcp_server.py:140-150 | `codex` gives the Markdown context; every other provider the XML context |
| Mcp.BuildRoutedContext | src/skill_registry_rag/mcp_server.py:117-150 | a bad provider fails first, then `instruction_chars < 100`; after that the retrieval pipeline's outcome, as `RetrieveHits` states it: its error unchanged, or the context for the normalised provider over its hits |
| Adapters.Trim | src/skill_registry_rag/adapters/claude.py:6-10 | a short stripped text is kept; a longer one becomes a prefix of it, not ending in whitespace, followed by ` ...`; for `n >= 0` the prefix is the first `n` characters with only trailing whitespace dropped |
| Adapters.TrimOfStripped | src/skill_registry_rag/adapters/claude.py:7 | trimming ignores outer whitespace |
| Adapters.TrimHead | src/skill_registry_rag/adapters/claude.py:10 | the kept part of a trimmed text is a prefix of it; for `n >= 0` it is at most `n` long and only whitespace of the first `n` characters is dropped |
| Adapters.Cap | src/skill_registry_rag/adapters/claude.py:26 | `items[:n]` is the prefix of exactly `min(n, len(items))` items |
| Adapters.RenderClaudeLines | src/skill_registry_rag/adapters/claude.py:15-39 | one output line per line of the layout, in order |
| Adapters.ClaudeOptionalMembers | src/skill_registry_rag/adapters/claude.py:25-34 | each optional line appears exactly when its field is non-empty |
| Adapters.ClaudeCardBodyFacts | src/skill_registry_rag/adapters/claude.py:21-38 | a card body always has the description and trimmed instructions, ends with `</card>`, and opens no other card |
| Adapters.ClaudeBlocks | src/skill_registry_rag/adapters/claude.py:17-38 | one card block per hit |
| Adapters.ClaudeOptionalLines | src/skill_registry_rag/adapters/claude.py:25-34 | the conditional appends give exactly the optional lines |
| Adapters.ClaudeCardLines | src/skill_registry_rag/adapters/claude.py:18-38 | the appends for one hit give exactly its card block |
| Adapters.RenderClaude | src/skill_registry_rag/adapters/claude.py:13-40 | the loop builds exactly the specified XML context |
| Adapters.ClaudeBodyQuiet | src/skill_registry_rag/adapters/claude.py:21-38 | no `<card>` or `<id>` line follows the first two lines of a block |
| Adapters.ClaudeCardId | src/skill_registry_rag/adapters/claude.py:19-20 | a block's only id line is its hit's id |
| Adapters.ClaudeCardOpen | src/skill_registry_rag/adapters/claude.py:19 | a block has exactly one `<card>` line |
| Adapters.CardIds | src/skill_registry_rag/adapters/claude.py:20 | one id per hit |
| Adapters.ClaudeIdsInOrder | src/skill_registry_rag/adapters/claude.py:17-20 | the id lines of the context name the hits' cards, in hit order |
| Adapters.ClaudeBlocksIds | src/skill_registry_rag/adapters/claude.py:17-20 | the same for the card blocks alone |
| Adapters.OneClaudeCardPerHit | src/skill_registry_rag/adapters/claude.py:17-19 | the context has exactly one `<card>` per hit |
| Adapters.ClaudeFrame | src/skill_registry_rag/adapters/claude.py:13-40 | the context opens with the root tag and the query line, and ends with the closing root tag and a newline |
| Adapters.RenderCodexLines | src/skill_registry_rag/adapters/codex.py:14-39 | one output line per line of the layout, in order |
| Adapters.CodexOptionalMembers | src/skill_registry_rag/adapters/codex.py:22-33 | each optional line, the purpose line included, appears exactly when its field is non-empty |
| Adapters.CodexSectionBodyFacts | src/skill_registry_rag/adapters/codex.py:21-39 | a section starts with the domain, always has the score and trimmed instructions, ends with a blank line, and has no other heading |
| Adapters.CodexBlocks | src/skill_registry_rag/adapters/codex.py:18-39 | one section per hit |
| Adapters.CodexOptionalLines | src/skill_registry_rag/adapters/codex.py:22-33 | the conditional appends give exactly the optional lines |
| Adapters.CodexSectionLines | src/skill_registry_rag/adapters/codex.py:19-39 | the appends for one hit give exactly its section |
| Adapters.RenderCodex | src/skill_registry_rag/adapters/codex.py:13-40 | the loop builds exactly the specified Markdown context |
| Adapters.CodexLinesOf | src/skill_registry_rag/adapters/codex.py:14-39 | the numbered loop builds exactly the header and one section per hit |
| Adapters.CodexSectionHeading | src/skill_registry_rag/adapters/codex.py:20 | a section's only heading carries its number, title and id |
| Adapters.ExpectedHeadings | src/skill_registry_rag/adapters/codex.py:18-20 | one heading per hit |
| Adapters.CodexBlocksHeadings | src/skill_registry_rag/adapters/codex.py:18-20 | the section headings number the hits from 1, in hit order |
| Adapters.CodexBlockHeading | src/skill_registry_rag/adapters/codex.py:18-20 | section `k` is headed `k+1`, with its hit's title and id |
| Adapters.CodexHeadingsInOrder | src/skill_registry_rag/adapters/codex.py:18-20 | the headings of the whole context number the hits from 1, in hit order |
| Adapters.RStripKeepsPrefix | src/skill_registry_rag/adapters/codex.py:40 | right-stripping keeps a prefix that ends in a non-space character |
| Adapters.CodexFrame | src/skill_registry_rag/adapters/codex.py:13-40 | the context opens with the title and the query line, and ends with exactly one newline after non-space text |

## Left out

- Ranking.ArgsortDesc: promises only a permutation ordered by
  non-increasing score, not the order among equal scores, because
  `np.argsort` is not stable. `Hits.TopIndices` and everything above it
  inherit this.
- **Floats.** Scores are `real`, not `float32`. Rounding, and the float32
  accumulation in `_rrf`, are not modelled.
- Text.Lower: lowers ASCII letters only. Python's `str.lower()` also
  lowers other scripts.
- Tokenizer.Tokenize: inherits the ASCII-only lowering, so it misses
  tokens Python finds. Python lowers U+212A KELVIN SIGN to `k` and U+0130
  to `i` plus a combining dot, and `[a-zA-Z0-9_\.]+` then matches them; the
  model yields no token for either.
- Scoring.SparseScores: the bound to `[0, 1]` rests on `WellBehaved`'s
  assumption that BM25 scores are non-negative. `rank_bm25`'s Okapi
  statistic breaks it: a term in more than half of the documents has a
  negative idf (for a one-card registry, idf = ln 0.5 - ln 1.5). With a
  non-positive maximum, `_sparse_scores` (backends/memory.py:133-136)
  returns such negative scores undivided, which the model does not cover.
- Chroma.ChromaBackend.WriteStore: lets the last record win when two
  cards share an id. The vector store refuses a repeated id within one
  upsert batch with `DuplicateIDError`, so a registry with a repeated id
  fails there in the source. Chroma.StoreContents states the last-wins
  contents and inherits this. The card map (backends/chroma.py:74) really
  is last-wins. Registries that `load_registry` accepts have distinct ids.
- **Foreign libraries.** BM25, the embedding model and the vector store's
  nearest-neighbour search are parameters (`Foreign.Collaborators`). Their
  algorithms are not modelled. `WellBehaved` states only the shape facts the
  model relies on.
- **SHA-256** is a parameter (`sha256Hex`), constrained only to return 64
  hex characters.
- **Exceptions from the embedding model.** `_init_dense` and
  `_dense_scores` turn them into `None`. The model shows this as
  `encodeDocs` and `encodeQuery` returning `None`.
- **The vector store's persistent state** is ghost (`store`, `batches`).
  The store's own ranking is the `search` collaborator.
- **Chroma client construction.** The client is built from the data
  directory or as ephemeral; this, `_default_data_dir` and
  `delete_collection` are left out. The collection's contents are modelled
  as a map that the batched upserts update.
- Chroma.ChromaBackend.Index: does not model the `delete_collection`
  call. Its store therefore starts from an empty map, which is what
  deleting and recreating the collection leaves.
- **Dead Jaccard branch.** The Jaccard branch of the in-memory
  `_sparse_scores` cannot run from `query`, because BM25 is fitted whenever
  there are cards. It is modelled on its own as `Scoring.JaccardScores`.
- **Chroma dense normalisation.** It rescales only the positive scores, as
  the code does. The minimum is taken over positive scores only.
- **`repr()` escaping.** `Values.Repr` prints lists and dicts with their
  brackets and separators, but does not model Python's quote choice and
  escaping inside strings.
- **Values.** Dict keys in a `Values.Value` are strings, and there are no
  floats. YAML and JSON registries only produce such keys in practice.
- **Registry parsing and I/O.** Schema validation (`_validate_schema`),
  YAML/JSON parsing and file reads are not modelled. The parsed document is
  a parameter, and instruction-file reads are a `read` function parameter.
- Registry.ToAnyMap: copies the entry list. A Python dict would merge
  duplicate keys; a parsed registry never has them.
- Registry.LoadEntries: is stated over any `EntryChecks` whose built
  card keeps its entry's id. `Registry.LoadRegistry` instantiates it with
  `RegistryChecks`.
- Registry.BuildCard: states only the card id and (through
  `Registry.BuildCardOk`) when building succeeds. It does not state each of
  the other fields one by one; they are built as the loader's keyword
  arguments show.
- Registry.NullRequiredFieldPasses: states the code's behaviour: a
  required field holding null reads as the text `"None"`, so it passes
  validation.
- Text.IntToDecimal: stands for the decimal formatting of the heading
  number and promises only its first character.
- **Score formatting.** The `:.4f` formatting is the `fmt` parameter of
  the renderers.
- **`None` arguments and `int()`.** `None` for the query, provider, backend
  or registry is passed as the empty string. `int()` conversion of
  `top_k` and `instruction_chars` is not modelled: they are integers.
- **Path handling.** Path expansion and resolution (`expanduser`,
  `resolve`) are the `canonical` function of the host. Existence checks are
  its `present` predicate.
- **Parts of the repository outside the core:**
  - the MCP server object, its transport and `main`;
  - the command-line interface (`cli.py`);
  - the routing scripts (`route.py`);
  - the registry compiler (`compile_registry.py`).
- **The `RetrievalBackend` protocol** is a `BackendKind` tag in
  `Retriever.SkillRetriever`, with one reference per backend class, rather
  than an interface type.
