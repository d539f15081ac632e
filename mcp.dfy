/**
 * The MCP server's two tools without the server around them: the request
 * validators, the shared retrieval pipeline (validate, resolve the registry
 * path, load the registry, build the retriever, retrieve), the structured
 * payload of `retrieve_skillmesh_cards`, and the provider dispatch of
 * `route_with_skillmesh`.
 */
module Mcp {
  import opened Wrappers
  import opened Text
  import opened Values
  import opened Models
  import opened Foreign
  import opened Resolve
  import opened Registry
  import opened Retriever
  import opened Hits
  import opened Adapters

  /** What a tool call can fail with. */
  datatype McpError =
    /** A `ValueError` raised by one of the validators. */
    | InvalidArgument(message: string)
    /** A `ValueError` raised while resolving the registry path. */
    | RegistryPathError(pathError: ResolveError)
    /** `ValueError(f"Invalid registry: {exc}")` around a `RegistryError`. */
    | InvalidRegistry(registryError: RegistryError)
    /** The retriever's construction raised (not caught by the server). */
    | BackendFailure(constructionError: ConstructionError)

  const QueryMessage: string := "`query` must be a non-empty string."
  const TopKMessage: string := "`top_k` must be >= 1."
  const ProviderMessage: string := "`provider` must be one of: claude, codex."
  const BackendMessage: string := "`backend` must be one of: auto, memory, chroma."
  const InstructionCharsMessage: string := "`instruction_chars` must be >= 100."

  /** The smallest instruction budget `build_routed_context` accepts. */
  const MinInstructionChars: int := 100

  // ---------------------------------------------------------------------
  // Validators.  A `None` argument behaves as the empty string, which is
  // how `x or default` treats both.
  // ---------------------------------------------------------------------

  /** `_normalize_query`: the stripped query, which must not be empty. */
  function NormalizeQuery(query: string): (r: Result<string, McpError>)
    ensures r.Err? <==> AllSpace(query)
    ensures r.Err? ==> r.error == InvalidArgument(QueryMessage)
    ensures r.Ok? ==> r.value == Strip(query) && r.value != []
    ensures r.Ok? ==> !IsSpace(r.value[0]) && !IsSpace(r.value[|r.value| - 1])
  {
    var normalized := Strip(query);
    StripBlank(query);
    if normalized == [] then Err(InvalidArgument(QueryMessage)) else Ok(normalized)
  }

  /** A normalised query normalises to itself. */
  lemma NormalizeQueryIdempotent(query: string)
    requires NormalizeQuery(query).Ok?
    ensures NormalizeQuery(NormalizeQuery(query).value) == NormalizeQuery(query)
  {
    StripIdempotent(query);
  }

  /** `_normalize_top_k`: at least 1, returned unchanged. */
  function NormalizeTopK(topK: int): (r: Result<nat, McpError>)
    ensures r.Ok? <==> topK >= 1
    ensures r.Ok? ==> r.value == topK
    ensures r.Err? ==> r.error == InvalidArgument(TopKMessage)
  {
    if topK < 1 then Err(InvalidArgument(TopKMessage)) else Ok(topK)
  }

  /** `_VALID_PROVIDERS`. */
  predicate IsProvider(s: string) {
    s == "claude" || s == "codex"
  }

  /** `_VALID_BACKENDS`. */
  predicate IsBackendMode(s: string) {
    s == "auto" || s == "memory" || s == "chroma"
  }

  /** `_normalize_provider`: `claude` or `codex`, ignoring surrounding whitespace and case. */
  function NormalizeProvider(provider: string): (r: Result<string, McpError>)
    ensures r.Ok? <==> IsProvider(Lower(Strip(provider)))
    ensures r.Ok? ==> r.value == Lower(Strip(provider)) && IsProvider(r.value)
    ensures r.Err? ==> r.error == InvalidArgument(ProviderMessage)
  {
    var normalized := Lower(Strip(provider));
    if !IsProvider(normalized) then Err(InvalidArgument(ProviderMessage)) else Ok(normalized)
  }

  /** The provider check does not see case: any spelling means what its lower-case form means. */
  lemma ProviderIgnoresCase(provider: string)
    ensures NormalizeProvider(Lower(provider)) == NormalizeProvider(provider)
  {
    StripLower(provider);
    LowerIdempotent(Strip(provider));
  }

  /** A word of lower-case ASCII letters is its own normal form. */
  lemma NormalWord(s: string)
    requires forall i :: 0 <= i < |s| ==> 'a' <= s[i] <= 'z'
    ensures Lower(Strip(s)) == s
  {
    if |s| > 0 {
      assert !IsSpace(s[0]) && !IsSpace(s[|s| - 1]);
    }
    StripOfStripped(s);
  }

  /** The accepted provider and backend names are their own normal forms. */
  lemma NamesAreNormal(s: string)
    requires IsProvider(s) || IsBackendMode(s)
    ensures Lower(Strip(s)) == s
  {
    if s == "claude" {
      NormalWord("claude");
    } else if s == "codex" {
      NormalWord("codex");
    } else if s == "auto" {
      NormalWord("auto");
    } else if s == "memory" {
      NormalWord("memory");
    } else {
      NormalWord("chroma");
    }
  }

  /** An accepted provider is its own normal form. */
  lemma NormalizeProviderIdempotent(provider: string)
    requires NormalizeProvider(provider).Ok?
    ensures NormalizeProvider(NormalizeProvider(provider).value) == NormalizeProvider(provider)
  {
    NamesAreNormal(NormalizeProvider(provider).value);
  }

  /** `_normalize_backend`: an empty argument means `auto`; otherwise `auto`, `memory` or `chroma`, ignoring whitespace and case. */
  function NormalizeBackend(backend: string): (r: Result<string, McpError>)
    ensures backend == "" ==> r == Ok("auto")
    ensures backend != "" ==> (r.Ok? <==> IsBackendMode(Lower(Strip(backend))))
    ensures backend != "" && r.Ok? ==> r.value == Lower(Strip(backend))
    ensures r.Ok? ==> IsBackendMode(r.value)
    ensures r.Err? ==> r.error == InvalidArgument(BackendMessage)
  {
    // `(backend or "auto")`: the default is already in normal form (`EmptyBackendIsAuto`).
    if backend == "" then Ok("auto")
    else
      var normalized := Lower(Strip(backend));
      if !IsBackendMode(normalized) then Err(InvalidArgument(BackendMessage)) else Ok(normalized)
  }

  /** An empty backend means exactly what `auto` means. */
  lemma EmptyBackendIsAuto()
    ensures NormalizeBackend("") == NormalizeBackend("auto") == Ok("auto")
  {
    NamesAreNormal("auto");
  }

  /** A blank but non-empty backend is not defaulted: it strips to nothing and is refused. */
  lemma BlankBackendRefused(backend: string)
    requires backend != "" && AllSpace(backend)
    ensures NormalizeBackend(backend) == Err(InvalidArgument(BackendMessage))
  {
    StripBlank(backend);
    assert Lower(Strip(backend)) == [];
  }

  /** The three request fields `_retrieve_hits` validates, in the order it validates them. */
  predicate Validated(query: string, topK: int, backend: string) {
    NormalizeQuery(query).Ok? && NormalizeTopK(topK).Ok? && NormalizeBackend(backend).Ok?
  }

  /** The first validation error, if any. */
  function ValidationError(query: string, topK: int, backend: string): (e: McpError)
    requires !Validated(query, topK, backend)
    ensures e.InvalidArgument?
  {
    if NormalizeQuery(query).Err? then NormalizeQuery(query).error
    else if NormalizeTopK(topK).Err? then NormalizeTopK(topK).error
    else NormalizeBackend(backend).error
  }

  // ---------------------------------------------------------------------
  // The retrieval pipeline
  // ---------------------------------------------------------------------

  /**
   * Everything outside the request that a tool call depends on: the file
   * system and environment the registry path is resolved against, the
   * parsed document at each path, the instruction-file reads relative to a
   * registry, how constructing the vector store turns out, and the
   * third-party libraries.
   */
  datatype Deployment = Deployment(
    host: Host,
    document: string -> Value,
    read: string -> string -> Option<string>,
    construction: Construction,
    libraries: Collaborators)

  /** What `_retrieve_hits` returns: the normalised query, the registry path and the hits. */
  datatype Retrieved = Retrieved(query: string, registry: string, hits: seq<RetrievalHit>)

  /**
   * What `_retrieve_hits` promises, `loaded` naming the registry's cards.
   * The first failing step decides the error: a validator, the path
   * resolution, the loader (which fails exactly when `load_registry` does
   * on the resolved path, with its error, and otherwise yields `loaded`),
   * then the backend choice, which fails exactly when `ChooseBackend` does
   * for the loaded corpus.  On success the query
   * is the stripped one, the registry is the resolved existing path, and
   * the hits are ranked cards of the registry, `top_k` of them clamped to
   * its size (none for an empty registry).
   */
  ghost predicate RetrievalOutcome(query: string, registry: string, topK: int, backend: string, d: Deployment,
                                   loaded: seq<ToolCard>, r: Result<Retrieved, McpError>)
  {
    && (!Validated(query, topK, backend) ==> r == Err(ValidationError(query, topK, backend)))
    && (Validated(query, topK, backend) && ResolveRegistryPath(registry, d.host).Err? ==>
          r == Err(RegistryPathError(ResolveRegistryPath(registry, d.host).error)))
    && (Validated(query, topK, backend) && ResolveRegistryPath(registry, d.host).Ok? ==>
          var path := ResolveRegistryPath(registry, d.host).value;
          var load := ExpectedLoad(path, d.host.present(path), d.document(path), d.read(path));
          && (load.Err? ==> r == Err(InvalidRegistry(load.error)))
          && (load.Ok? ==> loaded == load.value)
          && (load.Ok? && ChooseBackend(NormalizeBackend(backend).value, |loaded|, d.construction).Err? ==>
                r == Err(BackendFailure(ChooseBackend(NormalizeBackend(backend).value, |loaded|, d.construction).error)))
          && (load.Ok? && ChooseBackend(NormalizeBackend(backend).value, |loaded|, d.construction).Ok? ==> r.Ok?))
    && (r.Ok? ==>
          && Validated(query, topK, backend)
          && r.value.query == Strip(query) && r.value.query != []
          && ResolveRegistryPath(registry, d.host) == Ok(r.value.registry)
          && d.host.present(r.value.registry)
          && (forall i, j :: 0 <= i < j < |r.value.hits| ==> r.value.hits[i].score >= r.value.hits[j].score)
          && (forall j :: 0 <= j < |r.value.hits| ==> r.value.hits[j].card in loaded)
          && (|loaded| == 0 ==> r.value.hits == [])
          && (|loaded| > 0 ==> |r.value.hits| == ClampTopK(topK, |loaded|)))
  }

  /**
   * A valid request over a registry that `load_registry` accepts is never
   * refused as an invalid registry, and retrieves over that registry's cards.
   */
  lemma LoadableRegistryPassesLoader(query: string, registry: string, topK: int, backend: string, d: Deployment,
                                     loaded: seq<ToolCard>, r: Result<Retrieved, McpError>)
    requires RetrievalOutcome(query, registry, topK, backend, d, loaded, r)
    requires Validated(query, topK, backend) && ResolveRegistryPath(registry, d.host).Ok?
    requires var path := ResolveRegistryPath(registry, d.host).value;
      ExpectedLoad(path, d.host.present(path), d.document(path), d.read(path)).Ok?
    ensures !(r.Err? && r.error.InvalidRegistry?)
    ensures var path := ResolveRegistryPath(registry, d.host).value;
      loaded == ExpectedLoad(path, d.host.present(path), d.document(path), d.read(path)).value
  {
  }

  /**
   * `_retrieve_hits`: the query, `top_k` and backend are validated in that
   * order, then the registry path is resolved, the registry loaded, the
   * retriever built and asked for `top_k` hits.  The first failure is the
   * result.  `loaded` names the registry's cards.
   */
  method RetrieveHits(query: string, registry: string, topK: int, backend: string, dense: bool, d: Deployment)
    returns (r: Result<Retrieved, McpError>, ghost loaded: seq<ToolCard>)
    requires WellBehaved(d.libraries)
    ensures RetrievalOutcome(query, registry, topK, backend, d, loaded, r)
    ensures !Validated(query, topK, backend) ==> r == Err(ValidationError(query, topK, backend))
    ensures Validated(query, topK, backend) && ResolveRegistryPath(registry, d.host).Err? ==>
      r == Err(RegistryPathError(ResolveRegistryPath(registry, d.host).error))
    ensures r.Err? && !r.error.InvalidArgument? ==> Validated(query, topK, backend)
    ensures r.Ok? ==>
      && r.value.query == Strip(query) && r.value.query != []
      && ResolveRegistryPath(registry, d.host) == Ok(r.value.registry)
      && forall i, j :: 0 <= i < j < |r.value.hits| ==> r.value.hits[i].score >= r.value.hits[j].score
  {
    loaded := [];
    var q := NormalizeQuery(query);
    if q.Err? {
      return Err(q.error), loaded;
    }
    var k := NormalizeTopK(topK);
    if k.Err? {
      return Err(k.error), loaded;
    }
    var b := NormalizeBackend(backend);
    if b.Err? {
      return Err(b.error), loaded;
    }
    var path := ResolveRegistryPath(registry, d.host);
    if path.Err? {
      return Err(RegistryPathError(path.error)), loaded;
    }
    var cards := LoadRegistry(path.value, d.host.present(path.value), d.document(path.value), d.read(path.value));
    if cards.Err? {
      return Err(InvalidRegistry(cards.error)), loaded;
    }
    loaded := cards.value;
    var hits := RetrieveFrom(cards.value, q.value, k.value, b.value, dense, d);
    if hits.Err? {
      return Err(BackendFailure(hits.error)), loaded;
    }
    r := Ok(Retrieved(q.value, path.value, hits.value));
  }

  /**
   * The last two steps of `_retrieve_hits`: the retriever is built over the
   * loaded cards and asked for `top_k` hits.  Construction fails exactly
   * when the backend choice does; otherwise the hits are ranked cards of
   * the corpus, `top_k` of them clamped to its size, none for no cards.
   */
  method RetrieveFrom(cards: seq<ToolCard>, query: string, topK: int, mode: string, dense: bool, d: Deployment)
    returns (r: Result<seq<RetrievalHit>, ConstructionError>)
    requires WellBehaved(d.libraries)
    ensures ChooseBackend(mode, |cards|, d.construction).Err? ==> r == Err(ChooseBackend(mode, |cards|, d.construction).error)
    ensures ChooseBackend(mode, |cards|, d.construction).Ok? ==> r.Ok?
    ensures r.Ok? ==>
      && (forall i, j :: 0 <= i < j < |r.value| ==> r.value[i].score >= r.value[j].score)
      && (forall j :: 0 <= j < |r.value| ==> r.value[j].card in cards)
      && (|cards| == 0 ==> r.value == [])
      && (|cards| > 0 ==> |r.value| == ClampTopK(topK, |cards|))
  {
    var retriever := NewRetriever(cards, dense, mode, d.construction, d.libraries);
    if retriever.Err? {
      return Err(retriever.error);
    }
    var hits := retriever.value.Retrieve(query, topK, d.libraries);
    r := Ok(hits);
  }

  /** The registry file is never reported missing by the loader here: the resolver only returns paths that exist. */
  lemma ResolvedRegistryExists(registry: string, host: Host)
    requires ResolveRegistryPath(registry, host).Ok?
    ensures host.present(ResolveRegistryPath(registry, host).value)
  {
  }

  // ---------------------------------------------------------------------
  // retrieve_cards_payload
  // ---------------------------------------------------------------------

  /** One entry of the payload's `hits` list. */
  datatype PayloadHit = PayloadHit(
    id: string,
    title: string,
    domain: string,
    description: string,
    tags: seq<string>,
    toolHints: seq<string>,
    aliases: seq<string>,
    dependencies: seq<string>,
    inputContract: seq<(string, string)>,
    outputArtifacts: seq<string>,
    qualityChecks: seq<string>,
    constraints: seq<string>,
    riskLevel: string,
    maturity: string,
    metadata: seq<(string, Value)>,
    score: real,
    sparseScore: real,
    denseScore: Option<real>)

  /** The payload: the normalised query, the registry path as a string, and the hit entries. */
  datatype Payload = Payload(query: string, registry: string, hits: seq<PayloadHit>)

  /** The dict built for one hit. */
  function PayloadOf(hit: RetrievalHit): PayloadHit {
    var c := hit.card;
    PayloadHit(c.id, c.title, c.domain, c.description, c.tags, c.toolHints, c.aliases, c.dependencies,
               c.inputContract, c.outputArtifacts, c.qualityChecks, c.constraints, c.riskLevel,
               c.maturity, c.metadata, hit.score, hit.sparseScore, hit.denseScore)
  }

  /** One entry per hit, in hit order. */
  function PayloadEntries(hits: seq<RetrievalHit>): (entries: seq<PayloadHit>)
    ensures |entries| == |hits|
  {
    seq(|hits|, i requires 0 <= i < |hits| => PayloadOf(hits[i]))
  }

  /** The loop of `retrieve_cards_payload` that appends one dict per hit. */
  method BuildPayloadEntries(hits: seq<RetrievalHit>) returns (entries: seq<PayloadHit>)
    ensures entries == PayloadEntries(hits)
  {
    entries := [];
    for i := 0 to |hits|
      invariant entries == PayloadEntries(hits[..i])
    {
      assert hits[..i + 1][..i] == hits[..i];
      entries := entries + [PayloadOf(hits[i])];
    }
    assert hits[..|hits|] == hits;
  }

  /**
   * The payload lists the hits' cards in hit order and copies the three
   * scores unchanged, so a ranking by score survives into the payload.
   */
  lemma PayloadKeepsRanking(hits: seq<RetrievalHit>)
    requires forall i, j :: 0 <= i < j < |hits| ==> hits[i].score >= hits[j].score
    ensures var entries := PayloadEntries(hits);
      && (forall i :: 0 <= i < |hits| ==> entries[i].id == CardIds(hits)[i])
      && (forall i :: 0 <= i < |hits| ==>
            && entries[i].score == hits[i].score
            && entries[i].sparseScore == hits[i].sparseScore
            && entries[i].denseScore == hits[i].denseScore)
      && (forall i, j :: 0 <= i < j < |entries| ==> entries[i].score >= entries[j].score)
  {
  }

  /**
   * The payload never exposes a card's instruction text, instruction file
   * or examples: hits that differ only there give the same payload.
   */
  lemma PayloadOmitsInstructions(hits: seq<RetrievalHit>, others: seq<RetrievalHit>)
    requires |hits| == |others|
    requires forall i :: 0 <= i < |hits| ==>
      others[i] == hits[i].(card := hits[i].card.(instructionText := others[i].card.instructionText,
                                                    instructionFile := others[i].card.instructionFile,
                                                    examples := others[i].card.examples))
    ensures PayloadEntries(hits) == PayloadEntries(others)
  {
    forall i | 0 <= i < |hits|
      ensures PayloadOf(hits[i]) == PayloadOf(others[i])
    {
      assert others[i].card.id == hits[i].card.id;
    }
  }

  /**
   * `retrieve_cards_payload`: the pipeline's outcome, with the hits turned
   * into payload entries.  `retrieved` names the pipeline's outcome and
   * `loaded` the registry's cards.
   */
  method RetrieveCardsPayload(query: string, registry: string, topK: int, backend: string, dense: bool, d: Deployment)
    returns (r: Result<Payload, McpError>, ghost retrieved: Result<Retrieved, McpError>, ghost loaded: seq<ToolCard>)
    requires WellBehaved(d.libraries)
    ensures RetrievalOutcome(query, registry, topK, backend, d, loaded, retrieved)
    ensures retrieved.Err? ==> r == Err(retrieved.error)
    ensures retrieved.Ok? ==>
      r == Ok(Payload(retrieved.value.query, retrieved.value.registry, PayloadEntries(retrieved.value.hits)))
    ensures !Validated(query, topK, backend) ==> r == Err(ValidationError(query, topK, backend))
    ensures Validated(query, topK, backend) && ResolveRegistryPath(registry, d.host).Err? ==>
      r == Err(RegistryPathError(ResolveRegistryPath(registry, d.host).error))
    ensures r.Ok? ==>
      && r.value.query == Strip(query)
      && ResolveRegistryPath(registry, d.host) == Ok(r.value.registry)
  {
    var outcome;
    outcome, loaded := RetrieveHits(query, registry, topK, backend, dense, d);
    retrieved := outcome;
    if outcome.Err? {
      return Err(outcome.error), retrieved, loaded;
    }
    var entries := BuildPayloadEntries(outcome.value.hits);
    r := Ok(Payload(outcome.value.query, outcome.value.registry, entries));
  }

  // ---------------------------------------------------------------------
  // build_routed_context
  // ---------------------------------------------------------------------

  /** The renderer a normalised provider selects: Codex for `codex`, Claude otherwise. */
  function RoutedContext(provider: string, query: string, hits: seq<RetrievalHit>, instructionChars: int, fmt: real -> string): string {
    if provider == "codex" then CodexContext(query, hits, instructionChars, fmt)
    else ClaudeContext(query, hits, instructionChars, fmt)
  }

  /**
   * The routed context is recognisably the selected provider's: the Codex
   * document opens with its title and the query line, the Claude block with
   * `<retrieved_cards>` and the query element.
   */
  lemma RoutedContextShape(provider: string, query: string, hits: seq<RetrievalHit>, instructionChars: int, fmt: real -> string)
    ensures var out := RoutedContext(provider, query, hits, instructionChars, fmt);
      && (provider == "codex" ==> Seqs.StartsWith(out, "# Retrieved SkillMesh Cards" + "\n" + "Query:"))
      && (provider != "codex" ==>
            Seqs.StartsWith(out, "<retrieved_cards>" + "\n" + ("  <query>" + query + "</query>") + "\n"))
  {
    if provider == "codex" {
      CodexFrame(query, hits, instructionChars, fmt);
    } else {
      ClaudeFrame(query, hits, instructionChars, fmt);
    }
  }

  /**
   * `build_routed_context`: the provider is validated first, then the
   * instruction budget (at least 100), then the pipeline runs, and the hits
   * are rendered for the selected provider with the normalised query.
   * `retrieved` names the pipeline's outcome and `loaded` the registry's
   * cards.
   */
  method BuildRoutedContext(query: string, registry: string, topK: int, backend: string, dense: bool,
                            provider: string, instructionChars: int, d: Deployment, fmt: real -> string)
    returns (r: Result<string, McpError>, ghost retrieved: Result<Retrieved, McpError>, ghost loaded: seq<ToolCard>)
    requires WellBehaved(d.libraries)
    ensures NormalizeProvider(provider).Err? ==> r == Err(InvalidArgument(ProviderMessage))
    ensures NormalizeProvider(provider).Ok? && instructionChars < MinInstructionChars ==>
      r == Err(InvalidArgument(InstructionCharsMessage))
    ensures NormalizeProvider(provider).Ok? && instructionChars >= MinInstructionChars ==>
      && RetrievalOutcome(query, registry, topK, backend, d, loaded, retrieved)
      && (retrieved.Err? ==> r == Err(retrieved.error))
      && (retrieved.Ok? ==>
            r == Ok(RoutedContext(NormalizeProvider(provider).value, retrieved.value.query, retrieved.value.hits, instructionChars, fmt)))
    ensures NormalizeProvider(provider).Ok? && instructionChars >= MinInstructionChars && !Validated(query, topK, backend) ==>
      r == Err(ValidationError(query, topK, backend))
    ensures r.Ok? ==>
      && NormalizeProvider(provider).Ok? && instructionChars >= MinInstructionChars && Validated(query, topK, backend)
      && retrieved.Ok? && r.value == RoutedContext(NormalizeProvider(provider).value, Strip(query), retrieved.value.hits, instructionChars, fmt)
  {
    retrieved, loaded := Err(InvalidArgument(ProviderMessage)), [];
    var p := NormalizeProvider(provider);
    if p.Err? {
      return Err(p.error), retrieved, loaded;
    }
    if instructionChars < MinInstructionChars {
      return Err(InvalidArgument(InstructionCharsMessage)), retrieved, loaded;
    }
    var outcome;
    outcome, loaded := RetrieveHits(query, registry, topK, backend, dense, d);
    retrieved := outcome;
    if outcome.Err? {
      return Err(outcome.error), retrieved, loaded;
    }
    var out;
    if p.value == "codex" {
      out := RenderCodex(outcome.value.query, outcome.value.hits, instructionChars, fmt);
    } else {
      out := RenderClaude(outcome.value.query, outcome.value.hits, instructionChars, fmt);
    }
    r := Ok(out);
  }
}
