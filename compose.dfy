/**
 * The text a card is indexed under, and the metadata the vector store keeps
 * beside it.  Both backends build the document the same way, so there is one
 * definition here.
 */
module Compose {
  import opened Text
  import opened Values
  import opened Models
  import opened Foreign

  /** How much of the instruction text goes into the indexed document. */
  const DocInstructionChars: nat := 2000
  /** How much of the instruction text goes into the content hash. */
  const HashInstructionChars: nat := 500
  /** How many tags the vector store's metadata keeps. */
  const SidecarTags: nat := 20
  /** How many hex digits of the digest are kept. */
  const HashDigits: nat := 16

  /** `f"{k}:{v}"` for every pair of the input contract, in order. */
  function ContractPairs(entries: seq<(string, string)>): (r: seq<string>)
    ensures |r| == |entries|
    ensures forall i :: 0 <= i < |r| ==> r[i] == entries[i].0 + ":" + entries[i].1
  {
    seq(|entries|, i requires 0 <= i < |entries| => entries[i].0 + ":" + entries[i].1)
  }

  /** `f"{k}:{v}"` for every metadata pair, the value shown with `str`. */
  function MetadataPairs(entries: seq<(string, Value)>): (r: seq<string>)
    ensures |r| == |entries|
    ensures forall i :: 0 <= i < |r| ==> r[i] == entries[i].0 + ":" + ToStr(entries[i].1)
  {
    seq(|entries|, i requires 0 <= i < |entries| => entries[i].0 + ":" + ToStr(entries[i].1))
  }

  /** The seventeen lines of the document: identity, description, one labelled line per list or map, and the instruction prefix. */
  function DocLines(card: ToolCard): (lines: seq<string>)
    ensures |lines| == 17
  {
    [ card.id, card.title, card.domain, card.description,
      "tags: " + Join(", ", card.tags),
      "tool_hints: " + Join(", ", card.toolHints),
      "examples: " + Join(" | ", card.examples),
      "aliases: " + Join(", ", card.aliases),
      "dependencies: " + Join(", ", card.dependencies),
      "output_artifacts: " + Join(", ", card.outputArtifacts),
      "quality_checks: " + Join(", ", card.qualityChecks),
      "constraints: " + Join(", ", card.constraints),
      "input_contract: " + Join(", ", ContractPairs(card.inputContract)),
      "risk_level: " + card.riskLevel,
      "maturity: " + card.maturity,
      "metadata: " + Join(", ", MetadataPairs(card.metadata)),
      SlicePrefix(card.instructionText, DocInstructionChars) ]
  }

  /** `_compose_doc(card)`: the lines joined by newlines. */
  function ComposeDoc(card: ToolCard): (doc: string)
  {
    Join("\n", DocLines(card))
  }

  /** Joining at least two parts starts with the first part and a separator. */
  lemma JoinFirst(sep: string, parts: seq<string>)
    requires |parts| >= 2
    ensures Join(sep, parts) == parts[0] + sep + Join(sep, parts[1..])
  {
    assert [parts[0]] + parts[1..] == parts;
    JoinCons(sep, parts[0], parts[1..]);
  }

  /** Joining at least two parts ends with a separator and the last part. */
  lemma JoinLast(sep: string, parts: seq<string>)
    requires |parts| >= 2
    ensures Join(sep, parts) == Join(sep, parts[..|parts| - 1]) + sep + parts[|parts| - 1]
  {
    assert parts[..|parts| - 1] + [parts[|parts| - 1]] == parts;
    JoinSnoc(sep, parts[..|parts| - 1], parts[|parts| - 1]);
  }

  /**
   * The document opens with the card id on its own line and closes with at
   * most the first 2000 characters of the instruction text, on their own line.
   */
  lemma ComposeDocShape(card: ToolCard)
    ensures var doc := ComposeDoc(card);
      var tail := SlicePrefix(card.instructionText, DocInstructionChars);
      && |tail| <= DocInstructionChars && tail == card.instructionText[..|tail|]
      && |doc| >= |card.id| + 1 + |tail| + 1
      && doc[..|card.id| + 1] == card.id + "\n"
      && doc[|doc| - |tail| - 1..] == "\n" + tail
  {
    var lines := DocLines(card);
    JoinFirst("\n", lines);
    JoinLast("\n", lines);
  }

  /**
   * Two cards that agree on every field and on the first 2000 characters of
   * their instruction text get the same document: the rest of the text is
   * never indexed.
   */
  lemma ComposeDocIgnoresLongInstructions(a: ToolCard, b: ToolCard)
    requires a.(instructionText := b.instructionText) == b
    requires |a.instructionText| >= DocInstructionChars && |b.instructionText| >= DocInstructionChars
    requires a.instructionText[..DocInstructionChars] == b.instructionText[..DocInstructionChars]
    ensures ComposeDoc(a) == ComposeDoc(b)
  {
    assert DocLines(a) == DocLines(b);
  }

  /** The text `_card_hash` digests: id, title, description, comma-joined tags and the first 500 instruction characters, separated by `|`. */
  function CardHashInput(card: ToolCard): string {
    card.id + "|" + card.title + "|" + card.description + "|" + Join(",", card.tags) + "|"
      + SlicePrefix(card.instructionText, HashInstructionChars)
  }

  /** `_card_hash(card)`: the first 16 hex digits of the SHA-256 digest of `CardHashInput`. */
  function CardHash(card: ToolCard, c: Collaborators): (h: string)
    requires WellBehaved(c)
    ensures |h| == HashDigits
    ensures h == c.sha256Hex(CardHashInput(card))[..HashDigits]
  {
    SlicePrefix(c.sha256Hex(CardHashInput(card)), HashDigits)
  }

  /** Cards that differ only after the first 500 instruction characters hash alike. */
  lemma CardHashIgnoresLongInstructions(a: ToolCard, b: ToolCard, c: Collaborators)
    requires WellBehaved(c)
    requires a.(instructionText := b.instructionText) == b
    requires |a.instructionText| >= HashInstructionChars && |b.instructionText| >= HashInstructionChars
    requires a.instructionText[..HashInstructionChars] == b.instructionText[..HashInstructionChars]
    ensures CardHash(a, c) == CardHash(b, c)
  {
    assert CardHashInput(a) == CardHashInput(b);
  }

  /** The metadata stored beside each document. */
  datatype Sidecar = Sidecar(domain: string, riskLevel: string, maturity: string, tags: string, contentHash: string)

  /** The sidecar of one card: its domain, risk level and maturity (never absent), its first 20 tags comma-joined, and its content hash. */
  function SidecarOf(card: ToolCard, c: Collaborators): (m: Sidecar)
    requires WellBehaved(c)
    ensures m.domain == card.domain && m.riskLevel == card.riskLevel && m.maturity == card.maturity
    ensures m.tags == Join(",", SlicePrefix(card.tags, SidecarTags))
    ensures |m.contentHash| == HashDigits
  {
    Sidecar(card.domain, card.riskLevel, card.maturity, Join(",", SlicePrefix(card.tags, SidecarTags)), CardHash(card, c))
  }

  /** How many times `ch` occurs in `s`. */
  function Occurrences(ch: char, s: string): nat {
    if |s| == 0 then 0 else (if s[0] == ch then 1 else 0) + Occurrences(ch, s[1..])
  }

  lemma {:induction false} OccurrencesAppend(ch: char, s: string, t: string)
    ensures Occurrences(ch, s + t) == Occurrences(ch, s) + Occurrences(ch, t)
  {
    if |s| > 0 {
      assert (s + t)[1..] == s[1..] + t;
      OccurrencesAppend(ch, s[1..], t);
    } else {
      assert s + t == t;
    }
  }

  /** Joining comma-free parts with `","` writes exactly one comma between neighbours. */
  lemma {:induction false} JoinCommas(parts: seq<string>)
    requires |parts| > 0
    requires forall i :: 0 <= i < |parts| ==> Occurrences(',', parts[i]) == 0
    ensures Occurrences(',', Join(",", parts)) == |parts| - 1
  {
    if |parts| > 1 {
      JoinCommas(parts[1..]);
      OccurrencesAppend(',', parts[0], ",");
      OccurrencesAppend(',', parts[0] + ",", Join(",", parts[1..]));
    }
  }

  /**
   * When no tag holds a comma, the sidecar's tag field lists
   * `min(20, |tags|)` tags: it holds one comma fewer than that.
   */
  lemma SidecarKeepsTwentyTags(card: ToolCard, c: Collaborators)
    requires WellBehaved(c) && |card.tags| > 0
    requires forall i :: 0 <= i < |card.tags| ==> Occurrences(',', card.tags[i]) == 0
    ensures Occurrences(',', SidecarOf(card, c).tags) + 1 == if |card.tags| < SidecarTags then |card.tags| else SidecarTags
  {
    var kept := SlicePrefix(card.tags, SidecarTags);
    JoinCommas(kept);
  }
}
