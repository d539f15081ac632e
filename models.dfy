/** The record types the retrieval engine consumes and produces. */
module Models {
  import opened Wrappers
  import opened Values

  /**
   * One skill card.  `input_contract` and `metadata` are insertion-ordered
   * dicts, kept as lists of (key, value) pairs.
   */
  datatype ToolCard = ToolCard(
    id: string,
    title: string,
    domain: string,
    instructionFile: string,
    description: string,
    tags: seq<string>,
    toolHints: seq<string>,
    examples: seq<string>,
    aliases: seq<string>,
    dependencies: seq<string>,
    outputArtifacts: seq<string>,
    qualityChecks: seq<string>,
    constraints: seq<string>,
    inputContract: seq<(string, string)>,
    riskLevel: string,
    maturity: string,
    metadata: seq<(string, Value)>,
    instructionText: string)

  /** The older name of the same record. */
  type ExpertCard = ToolCard

  /** One ranked result: the card, its fused score and its component scores. */
  datatype RetrievalHit = RetrievalHit(card: ToolCard, score: real, sparseScore: real, denseScore: Option<real>)

  /**
   * The dataclass constructor: the four leading fields must be given, every
   * other field has its default (empty string, empty list, empty dict).
   */
  function NewToolCard(
    id: string, title: string, domain: string, instructionFile: string,
    description: string := "",
    tags: seq<string> := [], toolHints: seq<string> := [], examples: seq<string> := [],
    aliases: seq<string> := [], dependencies: seq<string> := [],
    outputArtifacts: seq<string> := [], qualityChecks: seq<string> := [],
    constraints: seq<string> := [], inputContract: seq<(string, string)> := [],
    riskLevel: string := "", maturity: string := "",
    metadata: seq<(string, Value)> := [], instructionText: string := ""): (c: ToolCard)
    ensures c.id == id && c.title == title && c.domain == domain && c.instructionFile == instructionFile
  {
    ToolCard(id, title, domain, instructionFile, description, tags, toolHints, examples, aliases,
             dependencies, outputArtifacts, qualityChecks, constraints, inputContract,
             riskLevel, maturity, metadata, instructionText)
  }

  /** A card built from the four required fields alone has every optional field empty. */
  lemma DefaultsAreEmpty(id: string, title: string, domain: string, instructionFile: string)
    ensures var c := NewToolCard(id, title, domain, instructionFile);
      && c.description == "" && c.riskLevel == "" && c.maturity == "" && c.instructionText == ""
      && c.tags == [] && c.toolHints == [] && c.examples == [] && c.aliases == []
      && c.dependencies == [] && c.outputArtifacts == [] && c.qualityChecks == []
      && c.constraints == [] && c.inputContract == [] && c.metadata == []
  {
  }

  /** `RetrievalHit(card, score, sparse_score)`: the dense score defaults to `None`. */
  function NewHit(card: ToolCard, score: real, sparseScore: real, denseScore: Option<real> := None): (h: RetrievalHit)
    ensures h.card == card && h.score == score && h.sparseScore == sparseScore
  {
    RetrievalHit(card, score, sparseScore, denseScore)
  }

  /** A hit built without a dense score carries none. */
  lemma HitDenseDefaultsToNone(card: ToolCard, score: real, sparseScore: real)
    ensures NewHit(card, score, sparseScore).denseScore == None
  {
  }
}
