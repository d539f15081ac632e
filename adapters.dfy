/**
 * The two renderers that turn ranked hits into prompt context: an XML-like
 * block for Claude and a Markdown document for Codex.  Each renderer builds
 * a list of lines and joins them with newlines.  A line is kept here as a
 * value saying which template line it is, and `Render...Line` spells out the
 * exact text of each; the score's `:.4f` formatting is the parameter `fmt`.
 */
module Adapters {
  import opened Wrappers
  import opened Text
  import opened Models
  import opened Seqs

  // ---------------------------------------------------------------------
  // _trim
  // ---------------------------------------------------------------------

  /**
   * `_trim(text, n)`: the stripped text when it has at most `n` characters;
   * otherwise its first `n` characters (Python's `[:n]`, so a negative `n`
   * counts from the end), right-stripped, followed by `" ..."`.
   */
  function Trim(text: string, n: int): (r: string)
    ensures |Strip(text)| <= n ==> r == Strip(text)
    ensures |Strip(text)| > n ==>
      && 4 <= |r| <= |Strip(text)| + 4 && r[|r| - 4..] == " ..."
      && r[..|r| - 4] == Strip(text)[..|r| - 4]
      && (|r| > 4 ==> !IsSpace(r[|r| - 5]))
      && (n >= 0 ==> |r| <= n + 4)
    ensures n >= 0 && |Strip(text)| > n ==>
      && |r| - 4 <= n
      && forall i :: |r| - 4 <= i < n ==> IsSpace(Strip(text)[i])
  {
    var txt := Strip(text);
    if |txt| <= n then txt
    else
      var head := RStrip(SlicePrefix(txt, n));
      TrimHead(txt, n);
      var r := head + " ...";
      assert r[..|r| - 4] == head && r[|r| - 4..] == " ...";
      r
  }

  /** The kept part of a trimmed text: a prefix of it, and for `n >= 0` its first `n` characters less trailing whitespace. */
  lemma TrimHead(txt: string, n: int)
    ensures var head := RStrip(SlicePrefix(txt, n));
      && head == txt[..|head|]
      && (n >= 0 ==> |head| <= n && forall i :: |head| <= i < n && i < |txt| ==> IsSpace(txt[i]))
  {
    var cut := SlicePrefix(txt, n);
    var head := RStrip(cut);
    if n >= 0 {
      forall i | |head| <= i < n && i < |txt|
        ensures IsSpace(txt[i])
      {
        assert cut[|head|..][i - |head|] == txt[i];
      }
    }
  }

  /** Trimming only looks at the stripped text: trimming it again first changes nothing. */
  lemma TrimOfStripped(text: string, n: int)
    ensures Trim(Strip(text), n) == Trim(text, n)
  {
    StripIdempotent(text);
  }

  /** The first `n` items, `items[:n]`, for the caps on list lengths. */
  function Cap(items: seq<string>, n: nat): (r: seq<string>)
    ensures |r| <= n && |r| <= |items| && r == items[..|r|]
    ensures |items| <= n ==> r == items
    ensures |r| == if |items| < n then |items| else n
  {
    SlicePrefix(items, n)
  }


  // ---------------------------------------------------------------------
  // render_claude_context
  // ---------------------------------------------------------------------

  datatype ClaudeLine =
    | RootOpen
    | ClaudeQuery(query: string)
    | CardOpen
    | CardId(id: string)
    | CardTitle(title: string)
    | CardDomain(domain: string)
    | CardScore(score: real)
    | CardDescription(description: string)
    | CardTags(tags: seq<string>)
    | CardToolHints(hints: seq<string>)
    | CardDependencies(dependencies: seq<string>)
    | CardRiskLevel(level: string)
    | CardOutputArtifacts(artifacts: seq<string>)
    | InstructionsOpen
    | CardInstructions(text: string, limit: int)
    | InstructionsClose
    | CardClose
    | RootClose

  /**
   * The text of each template line.  The description is trimmed to 260
   * characters, the instructions to their limit, and the tags, tool hints,
   * dependencies and output artifacts are capped at 12, 8, 8 and 6 items.
   */
  function RenderClaudeLine(line: ClaudeLine, fmt: real -> string): string {
    match line
    case RootOpen => "<retrieved_cards>"
    case ClaudeQuery(q) => "  <query>" + q + "</query>"
    case CardOpen => "  <card>"
    case CardId(s) => "    <id>" + s + "</id>"
    case CardTitle(s) => "    <title>" + s + "</title>"
    case CardDomain(s) => "    <domain>" + s + "</domain>"
    case CardScore(x) => "    <score>" + fmt(x) + "</score>"
    case CardDescription(s) => "    <description>" + Trim(s, 260) + "</description>"
    case CardTags(items) => "    <tags>" + Join(", ", Cap(items, 12)) + "</tags>"
    case CardToolHints(items) => "    <tool_hints>" + Join(", ", Cap(items, 8)) + "</tool_hints>"
    case CardDependencies(items) => "    <dependencies>" + Join(", ", Cap(items, 8)) + "</dependencies>"
    case CardRiskLevel(s) => "    <risk_level>" + s + "</risk_level>"
    case CardOutputArtifacts(items) => "    <output_artifacts>" + Join(", ", Cap(items, 6)) + "</output_artifacts>"
    case InstructionsOpen => "    <instructions>"
    case CardInstructions(s, n) => Trim(s, n)
    case InstructionsClose => "    </instructions>"
    case CardClose => "  </card>"
    case RootClose => "</retrieved_cards>"
  }

  function RenderClaudeLines(lines: seq<ClaudeLine>, fmt: real -> string): (r: seq<string>)
    ensures |r| == |lines| && forall i :: 0 <= i < |lines| ==> r[i] == RenderClaudeLine(lines[i], fmt)
  {
    seq(|lines|, i requires 0 <= i < |lines| => RenderClaudeLine(lines[i], fmt))
  }

  /** The optional lines of a card block: tags, tool hints, dependencies, risk level and output artifacts, in that order. */
  function ClaudeOptional(c: ToolCard): seq<ClaudeLine> {
    Opt(c.tags != [], CardTags(c.tags))
      + Opt(c.toolHints != [], CardToolHints(c.toolHints))
      + Opt(c.dependencies != [], CardDependencies(c.dependencies))
      + Opt(c.riskLevel != [], CardRiskLevel(c.riskLevel))
      + Opt(c.outputArtifacts != [], CardOutputArtifacts(c.outputArtifacts))
  }

  /**
   * Each optional line of a card block is present exactly when its field is
   * non-empty, and nothing else is among them.
   */
  lemma ClaudeOptionalMembers(c: ToolCard, l: ClaudeLine)
    ensures l in ClaudeOptional(c) <==>
      || (c.tags != [] && l == CardTags(c.tags))
      || (c.toolHints != [] && l == CardToolHints(c.toolHints))
      || (c.dependencies != [] && l == CardDependencies(c.dependencies))
      || (c.riskLevel != [] && l == CardRiskLevel(c.riskLevel))
      || (c.outputArtifacts != [] && l == CardOutputArtifacts(c.outputArtifacts))
  {
    InOpt(c.tags != [], CardTags(c.tags), l);
    InOpt(c.toolHints != [], CardToolHints(c.toolHints), l);
    InOpt(c.dependencies != [], CardDependencies(c.dependencies), l);
    InOpt(c.riskLevel != [], CardRiskLevel(c.riskLevel), l);
    InOpt(c.outputArtifacts != [], CardOutputArtifacts(c.outputArtifacts), l);
  }

  /**
   * A card block after its `<card>` and `<id>` lines: the title, domain,
   * score and description lines, the optional lines, then the instructions
   * and `</card>`.
   */
  function ClaudeCardBody(hit: RetrievalHit, instructionChars: int): seq<ClaudeLine> {
    var c := hit.card;
    [CardTitle(c.title), CardDomain(c.domain), CardScore(hit.score), CardDescription(c.description)]
      + ClaudeOptional(c)
      + [InstructionsOpen, CardInstructions(c.instructionText, instructionChars), InstructionsClose, CardClose]
  }

  /**
   * A card block shows its card's description and instructions (trimmed to
   * the limit), ends with `</card>`, and after its first two lines holds no
   * other `<card>` or `<id>` line.
   */
  lemma ClaudeCardBodyFacts(hit: RetrievalHit, instructionChars: int)
    ensures var body := ClaudeCardBody(hit, instructionChars);
      && |body| >= 8 && body[|body| - 1] == CardClose
      && CardDescription(hit.card.description) in body
      && CardInstructions(hit.card.instructionText, instructionChars) in body
      && forall i :: 0 <= i < |body| ==> !body[i].CardOpen? && !body[i].CardId?
  {
    var c := hit.card;
    var front := [CardTitle(c.title), CardDomain(c.domain), CardScore(hit.score), CardDescription(c.description)];
    var optional := ClaudeOptional(c);
    var back := [InstructionsOpen, CardInstructions(c.instructionText, instructionChars), InstructionsClose, CardClose];
    var body := ClaudeCardBody(hit, instructionChars);
    assert body == front + optional + back;
    forall i | 0 <= i < |body|
      ensures !body[i].CardOpen? && !body[i].CardId?
    {
      if i < |front| {
        assert body[i] == front[i];
      } else if i < |front| + |optional| {
        assert body[i] == optional[i - |front|];
        assert optional[i - |front|] in optional;
        ClaudeOptionalMembers(c, optional[i - |front|]);
      } else {
        assert body[i] == back[i - |front| - |optional|];
      }
    }
    assert body[3] == front[3];
    assert body[|front| + |optional| + 1] == back[1];
  }

  /** The `<card>` block of one hit. */
  function ClaudeCard(hit: RetrievalHit, instructionChars: int): seq<ClaudeLine> {
    [CardOpen, CardId(hit.card.id)] + ClaudeCardBody(hit, instructionChars)
  }

  /** One card block per hit, in hit order. */
  function ClaudeBlocks(hits: seq<RetrievalHit>, instructionChars: int): (blocks: seq<seq<ClaudeLine>>)
    ensures |blocks| == |hits|
  {
    seq(|hits|, k requires 0 <= k < |hits| => ClaudeCard(hits[k], instructionChars))
  }

  /** All the lines of the Claude context. */
  function ClaudeLines(query: string, hits: seq<RetrievalHit>, instructionChars: int): seq<ClaudeLine> {
    [RootOpen, ClaudeQuery(query)] + Concat(ClaudeBlocks(hits, instructionChars)) + [RootClose]
  }

  /** The optional lines of one card block, each appended when its field is non-empty. */
  method ClaudeOptionalLines(c: ToolCard) returns (optional: seq<ClaudeLine>)
    ensures optional == ClaudeOptional(c)
  {
    optional := [];
    optional := AppendIf(optional, c.tags != [], CardTags(c.tags));
    optional := AppendIf(optional, c.toolHints != [], CardToolHints(c.toolHints));
    optional := AppendIf(optional, c.dependencies != [], CardDependencies(c.dependencies));
    optional := AppendIf(optional, c.riskLevel != [], CardRiskLevel(c.riskLevel));
    optional := AppendIf(optional, c.outputArtifacts != [], CardOutputArtifacts(c.outputArtifacts));
    assert [] + Opt(c.tags != [], CardTags(c.tags)) == Opt(c.tags != [], CardTags(c.tags));
  }


  /** The lines one pass of the loop appends for a hit: its card block. */
  method ClaudeCardLines(hit: RetrievalHit, instructionChars: int) returns (block: seq<ClaudeLine>)
    ensures block == ClaudeCard(hit, instructionChars)
  {
    var c := hit.card;
    block := [CardOpen, CardId(c.id)];
    block := block + [CardTitle(c.title), CardDomain(c.domain), CardScore(hit.score), CardDescription(c.description)];
    var optional := ClaudeOptionalLines(c);
    block := block + optional;
    block := block + [InstructionsOpen, CardInstructions(c.instructionText, instructionChars), InstructionsClose, CardClose];
  }

  /** The text `render_claude_context` returns: the rendered lines joined by newlines, plus a final newline. */
  function ClaudeContext(query: string, hits: seq<RetrievalHit>, instructionChars: int, fmt: real -> string): string {
    Join("\n", RenderClaudeLines(ClaudeLines(query, hits, instructionChars), fmt)) + "\n"
  }

  /**
   * `render_claude_context(query, hits, instruction_chars=...)`: the lines,
   * built in a loop over the hits, joined by newlines, plus a final newline.
   */
  method RenderClaude(query: string, hits: seq<RetrievalHit>, instructionChars: int, fmt: real -> string) returns (out: string)
    ensures out == ClaudeContext(query, hits, instructionChars, fmt)
  {
    ghost var blocks := ClaudeBlocks(hits, instructionChars);
    var lines: seq<ClaudeLine> := [RootOpen, ClaudeQuery(query)];
    for i := 0 to |hits|
      invariant lines == [RootOpen, ClaudeQuery(query)] + Concat(blocks[..i])
    {
      var block := ClaudeCardLines(hits[i], instructionChars);
      ConcatStep([RootOpen, ClaudeQuery(query)], blocks, i, lines, block);
      lines := lines + block;
    }
    assert blocks[..|hits|] == blocks;
    lines := lines + [RootClose];
    out := Join("\n", RenderClaudeLines(lines, fmt)) + "\n";
  }

  function ClaudeIdOf(line: ClaudeLine): Option<string> {
    if line.CardId? then Some(line.id) else None
  }

  function ClaudeOpenOf(line: ClaudeLine): Option<ClaudeLine> {
    if line.CardOpen? then Some(line) else None
  }

  /** No line after the first two of a card block is a `<card>` or `<id>` line. */
  lemma ClaudeBodyQuiet(hit: RetrievalHit, instructionChars: int)
    ensures forall i :: 0 <= i < |ClaudeCardBody(hit, instructionChars)| ==>
      var l := ClaudeCardBody(hit, instructionChars)[i]; ClaudeIdOf(l).None? && ClaudeOpenOf(l).None?
  {
    ClaudeCardBodyFacts(hit, instructionChars);
  }

  /** The only `<id>` line of a card block is that of its hit. */
  lemma ClaudeCardId(hit: RetrievalHit, instructionChars: int)
    ensures Select(ClaudeCard(hit, instructionChars), ClaudeIdOf) == [hit.card.id]
  {
    var body := ClaudeCardBody(hit, instructionChars);
    ClaudeBodyQuiet(hit, instructionChars);
    assert ClaudeCard(hit, instructionChars) == [CardOpen, CardId(hit.card.id)] + body;
    SelectTwo(CardOpen, CardId(hit.card.id), body, ClaudeIdOf);
    assert Pick(ClaudeIdOf, CardOpen) == [];
    assert Pick(ClaudeIdOf, CardId(hit.card.id)) == [hit.card.id];
  }

  /** A card block has one `<card>` line. */
  lemma ClaudeCardOpen(hit: RetrievalHit, instructionChars: int)
    ensures Select(ClaudeCard(hit, instructionChars), ClaudeOpenOf) == [CardOpen]
  {
    var body := ClaudeCardBody(hit, instructionChars);
    ClaudeBodyQuiet(hit, instructionChars);
    assert ClaudeCard(hit, instructionChars) == [CardOpen, CardId(hit.card.id)] + body;
    SelectTwo(CardOpen, CardId(hit.card.id), body, ClaudeOpenOf);
    assert Pick(ClaudeOpenOf, CardOpen) == [CardOpen];
    assert Pick(ClaudeOpenOf, CardId(hit.card.id)) == [];
  }

  /** The ids of the cards of `hits`, in hit order. */
  function CardIds(hits: seq<RetrievalHit>): (ids: seq<string>)
    ensures |ids| == |hits|
  {
    seq(|hits|, k requires 0 <= k < |hits| => hits[k].card.id)
  }

  /** The `<id>` lines of the Claude context name the hits' cards, in hit order. */
  lemma ClaudeIdsInOrder(query: string, hits: seq<RetrievalHit>, instructionChars: int)
    ensures Select(ClaudeLines(query, hits, instructionChars), ClaudeIdOf) == CardIds(hits)
  {
    ClaudeBlocksIds(hits, instructionChars);
    var blocks := ClaudeBlocks(hits, instructionChars);
    SelectFramed([RootOpen, ClaudeQuery(query)], Concat(blocks), [RootClose], ClaudeIdOf);
  }

  /** The card blocks' `<id>` lines name the hits' cards, in hit order. */
  lemma ClaudeBlocksIds(hits: seq<RetrievalHit>, instructionChars: int)
    ensures Select(Concat(ClaudeBlocks(hits, instructionChars)), ClaudeIdOf) == CardIds(hits)
  {
    var blocks := ClaudeBlocks(hits, instructionChars);
    forall k | 0 <= k < |blocks|
      ensures Select(blocks[k], ClaudeIdOf) == [CardIds(hits)[k]]
    {
      ClaudeBlockId(hits, instructionChars, k);
    }
    SelectConcat(blocks, ClaudeIdOf, CardIds(hits));
  }

  /** The Claude context has exactly one `<card>` line per hit. */
  lemma OneClaudeCardPerHit(query: string, hits: seq<RetrievalHit>, instructionChars: int)
    ensures |Select(ClaudeLines(query, hits, instructionChars), ClaudeOpenOf)| == |hits|
  {
    var blocks := ClaudeBlocks(hits, instructionChars);
    forall k | 0 <= k < |blocks|
      ensures |Select(blocks[k], ClaudeOpenOf)| == 1
    {
      ClaudeBlockOpen(hits, instructionChars, k);
    }
    SelectConcatCount(blocks, ClaudeOpenOf);
    SelectFramed([RootOpen, ClaudeQuery(query)], Concat(blocks), [RootClose], ClaudeOpenOf);
  }

  /** Card block `k` has one `<id>` line, naming hit `k`'s card. */
  lemma ClaudeBlockId(hits: seq<RetrievalHit>, instructionChars: int, k: nat)
    requires k < |hits|
    ensures Select(ClaudeBlocks(hits, instructionChars)[k], ClaudeIdOf) == [CardIds(hits)[k]]
  {
    assert ClaudeBlocks(hits, instructionChars)[k] == ClaudeCard(hits[k], instructionChars);
    assert CardIds(hits)[k] == hits[k].card.id;
    ClaudeCardId(hits[k], instructionChars);
  }

  /** Card block `k` has one `<card>` line. */
  lemma ClaudeBlockOpen(hits: seq<RetrievalHit>, instructionChars: int, k: nat)
    requires k < |hits|
    ensures Select(ClaudeBlocks(hits, instructionChars)[k], ClaudeOpenOf) == [CardOpen]
  {
    assert ClaudeBlocks(hits, instructionChars)[k] == ClaudeCard(hits[k], instructionChars);
    ClaudeCardOpen(hits[k], instructionChars);
  }

  /** Joining at least two parts starts with the first, the separator, and the second. */
  lemma JoinStartsWithTwo(sep: string, parts: seq<string>)
    requires |parts| >= 2
    ensures StartsWith(Join(sep, parts), parts[0] + sep + parts[1])
  {
    assert parts == [parts[0]] + parts[1..];
    JoinCons(sep, parts[0], parts[1..]);
    var tail := Join(sep, parts[1..]);
    if |parts| == 2 {
      assert parts[1..] == [parts[1]];
      assert tail == parts[1];
    } else {
      assert parts[1..] == [parts[1]] + parts[2..];
      JoinCons(sep, parts[1], parts[2..]);
      StartsWithAppend(parts[1], sep + Join(sep, parts[2..]));
      AppendAssoc(parts[1], sep, Join(sep, parts[2..]));
    }
    assert StartsWith(tail, parts[1]);
    StartsWithCons(parts[0] + sep, tail, parts[1]);
  }

  /** Joining at least three parts starts with the first two parts, each followed by the separator. */
  lemma JoinFront(sep: string, parts: seq<string>)
    requires |parts| >= 3
    ensures StartsWith(Join(sep, parts), parts[0] + sep + parts[1] + sep)
  {
    assert parts == [parts[0]] + parts[1..];
    JoinCons(sep, parts[0], parts[1..]);
    assert parts[1..] == [parts[1]] + parts[2..];
    JoinCons(sep, parts[1], parts[2..]);
    var rest := Join(sep, parts[2..]);
    AppendAssoc(parts[1], sep, rest);
    StartsWithAppend(parts[1] + sep, rest);
    StartsWithCons(parts[0] + sep, parts[1] + sep + rest, parts[1] + sep);
    AppendAssoc(parts[0] + sep, parts[1], sep);
  }

  /** Joining parts and adding one more separator ends with the last part and the separator. */
  lemma JoinBack(sep: string, parts: seq<string>)
    requires |parts| >= 2
    ensures EndsWith(Join(sep, parts) + sep, parts[|parts| - 1] + sep)
  {
    var n := |parts|;
    var init, last := parts[..n - 1], parts[n - 1];
    assert parts == init + [last];
    JoinSnoc(sep, init, last);
    var front := Join(sep, init) + sep;
    AppendAssoc(front, last, sep);
    EndsWithAppend(front, last + sep);
  }

  /** The Claude context opens with `<retrieved_cards>` and the query line, and ends with `</retrieved_cards>` and a newline. */
  lemma ClaudeFrame(query: string, hits: seq<RetrievalHit>, instructionChars: int, fmt: real -> string)
    ensures var out := ClaudeContext(query, hits, instructionChars, fmt);
      && StartsWith(out, "<retrieved_cards>" + "\n" + ("  <query>" + query + "</query>") + "\n")
      && EndsWith(out, "</retrieved_cards>" + "\n")
  {
    var lines := ClaudeLines(query, hits, instructionChars);
    var rendered := RenderClaudeLines(lines, fmt);
    var n := |lines|;
    assert lines[0] == RootOpen && lines[1] == ClaudeQuery(query) && lines[n - 1] == RootClose;
    assert rendered[0] == "<retrieved_cards>" && rendered[1] == "  <query>" + query + "</query>";
    assert rendered[n - 1] == "</retrieved_cards>";
    JoinFront("\n", rendered);
    StartsWithExtend(Join("\n", rendered), rendered[0] + "\n" + rendered[1] + "\n", "\n");
    JoinBack("\n", rendered);
  }

  // ---------------------------------------------------------------------
  // render_codex_context
  // ---------------------------------------------------------------------

  datatype CodexLine =
    | DocTitle
    | CodexQuery(query: string)
    | Blank
    | Heading(index: nat, title: string, id: string)
    | Domain(domain: string)
    | Purpose(description: string)
    | Tags(tags: seq<string>)
    | ToolHints(hints: seq<string>)
    | Dependencies(dependencies: seq<string>)
    | RiskLevel(level: string)
    | OutputArtifacts(artifacts: seq<string>)
    | Score(score: real)
    | InstructionsLabel
    | FenceOpen
    | Instructions(text: string, limit: int)
    | FenceClose

  /**
   * The text of each template line.  The purpose is the description trimmed
   * to 260 characters, the instructions are trimmed to their limit, and the
   * tags, tool hints, dependencies and output artifacts are capped at 12, 8,
   * 8 and 6 items.
   */
  function RenderCodexLine(line: CodexLine, fmt: real -> string): string {
    match line
    case DocTitle => "# Retrieved SkillMesh Cards"
    case CodexQuery(q) => "Query: " + q
    case Blank => ""
    case Heading(i, title, id) => "## " + IntToDecimal(i) + ". " + title + " (`" + id + "`)"
    case Domain(s) => "Domain: " + s
    case Purpose(s) => "Purpose: " + Trim(s, 260)
    case Tags(items) => "Tags: " + Join(", ", Cap(items, 12))
    case ToolHints(items) => "Tool hints: " + Join(", ", Cap(items, 8))
    case Dependencies(items) => "Dependencies: " + Join(", ", Cap(items, 8))
    case RiskLevel(s) => "Risk level: " + s
    case OutputArtifacts(items) => "Output artifacts: " + Join(", ", Cap(items, 6))
    case Score(x) => "Score: " + fmt(x)
    case InstructionsLabel => "Instructions:"
    case FenceOpen => "```md"
    case Instructions(s, n) => Trim(s, n)
    case FenceClose => "```"
  }

  function RenderCodexLines(lines: seq<CodexLine>, fmt: real -> string): (r: seq<string>)
    ensures |r| == |lines| && forall i :: 0 <= i < |lines| ==> r[i] == RenderCodexLine(lines[i], fmt)
  {
    seq(|lines|, i requires 0 <= i < |lines| => RenderCodexLine(lines[i], fmt))
  }

  /** The optional lines of a section: purpose, tags, tool hints, dependencies, risk level and output artifacts, in that order. */
  function CodexOptional(c: ToolCard): seq<CodexLine> {
    Opt(c.description != [], Purpose(c.description))
      + Opt(c.tags != [], Tags(c.tags))
      + Opt(c.toolHints != [], ToolHints(c.toolHints))
      + Opt(c.dependencies != [], Dependencies(c.dependencies))
      + Opt(c.riskLevel != [], RiskLevel(c.riskLevel))
      + Opt(c.outputArtifacts != [], OutputArtifacts(c.outputArtifacts))
  }

  /**
   * Each optional line of a section is present exactly when its field is
   * non-empty (the purpose line when the description is), and nothing else
   * is among them.
   */
  lemma CodexOptionalMembers(c: ToolCard, l: CodexLine)
    ensures l in CodexOptional(c) <==>
      || (c.description != [] && l == Purpose(c.description))
      || (c.tags != [] && l == Tags(c.tags))
      || (c.toolHints != [] && l == ToolHints(c.toolHints))
      || (c.dependencies != [] && l == Dependencies(c.dependencies))
      || (c.riskLevel != [] && l == RiskLevel(c.riskLevel))
      || (c.outputArtifacts != [] && l == OutputArtifacts(c.outputArtifacts))
  {
    InOpt(c.description != [], Purpose(c.description), l);
    InOpt(c.tags != [], Tags(c.tags), l);
    InOpt(c.toolHints != [], ToolHints(c.toolHints), l);
    InOpt(c.dependencies != [], Dependencies(c.dependencies), l);
    InOpt(c.riskLevel != [], RiskLevel(c.riskLevel), l);
    InOpt(c.outputArtifacts != [], OutputArtifacts(c.outputArtifacts), l);
  }

  /**
   * A section after its heading: the domain line, the optional lines, the
   * score, the fenced instructions and a blank line.
   */
  function CodexSectionBody(hit: RetrievalHit, instructionChars: int): seq<CodexLine> {
    var c := hit.card;
    [Domain(c.domain)] + CodexOptional(c)
      + [Score(hit.score), InstructionsLabel, FenceOpen, Instructions(c.instructionText, instructionChars), FenceClose, Blank]
  }

  /**
   * A section begins (after its heading) with the domain line, shows the
   * hit's score and its card's instructions (trimmed to the limit), ends
   * with a blank line, and holds no other heading.
   */
  lemma CodexSectionBodyFacts(hit: RetrievalHit, instructionChars: int)
    ensures var body := CodexSectionBody(hit, instructionChars);
      && |body| >= 7 && body[0] == Domain(hit.card.domain) && body[|body| - 1] == Blank
      && Score(hit.score) in body
      && Instructions(hit.card.instructionText, instructionChars) in body
      && forall i :: 0 <= i < |body| ==> !body[i].Heading?
  {
    var c := hit.card;
    var front := [Domain(c.domain)];
    var optional := CodexOptional(c);
    var back := [Score(hit.score), InstructionsLabel, FenceOpen, Instructions(c.instructionText, instructionChars), FenceClose, Blank];
    var body := CodexSectionBody(hit, instructionChars);
    assert body == front + optional + back;
    forall i | 0 <= i < |body|
      ensures !body[i].Heading?
    {
      if i < |front| {
        assert body[i] == front[i];
      } else if i < |front| + |optional| {
        assert body[i] == optional[i - |front|];
        assert optional[i - |front|] in optional;
        CodexOptionalMembers(c, optional[i - |front|]);
      } else {
        assert body[i] == back[i - |front| - |optional|];
      }
    }
    assert body[|front| + |optional|] == back[0];
    assert body[|front| + |optional| + 3] == back[3];
  }

  /** The section of hit number `index`. */
  function CodexSection(index: nat, hit: RetrievalHit, instructionChars: int): seq<CodexLine> {
    [Heading(index, hit.card.title, hit.card.id)] + CodexSectionBody(hit, instructionChars)
  }

  /** One section per hit, numbered from 1, in hit order. */
  function CodexBlocks(hits: seq<RetrievalHit>, instructionChars: int): (blocks: seq<seq<CodexLine>>)
    ensures |blocks| == |hits|
  {
    seq(|hits|, k requires 0 <= k < |hits| => CodexSection(k + 1, hits[k], instructionChars))
  }

  /** All the lines of the Codex context. */
  function CodexLines(query: string, hits: seq<RetrievalHit>, instructionChars: int): seq<CodexLine> {
    [DocTitle, CodexQuery(query), Blank] + Concat(CodexBlocks(hits, instructionChars))
  }

  /** The optional lines of one section, each appended when its field is non-empty. */
  method CodexOptionalLines(c: ToolCard) returns (optional: seq<CodexLine>)
    ensures optional == CodexOptional(c)
  {
    optional := [];
    optional := AppendIf(optional, c.description != [], Purpose(c.description));
    optional := AppendIf(optional, c.tags != [], Tags(c.tags));
    optional := AppendIf(optional, c.toolHints != [], ToolHints(c.toolHints));
    optional := AppendIf(optional, c.dependencies != [], Dependencies(c.dependencies));
    optional := AppendIf(optional, c.riskLevel != [], RiskLevel(c.riskLevel));
    optional := AppendIf(optional, c.outputArtifacts != [], OutputArtifacts(c.outputArtifacts));
    assert [] + Opt(c.description != [], Purpose(c.description)) == Opt(c.description != [], Purpose(c.description));
  }


  /** The lines one pass of the loop appends for hit number `index`: its section. */
  method CodexSectionLines(index: nat, hit: RetrievalHit, instructionChars: int) returns (section: seq<CodexLine>)
    ensures section == CodexSection(index, hit, instructionChars)
  {
    var c := hit.card;
    section := [Heading(index, c.title, c.id)];
    var body := [Domain(c.domain)];
    var optional := CodexOptionalLines(c);
    body := body + optional;
    body := body + [Score(hit.score), InstructionsLabel, FenceOpen, Instructions(c.instructionText, instructionChars), FenceClose, Blank];
    section := section + body;
  }

  /** The text `render_codex_context` returns: the rendered lines joined by newlines, right-stripped, plus one newline. */
  function CodexContext(query: string, hits: seq<RetrievalHit>, instructionChars: int, fmt: real -> string): string {
    RStrip(Join("\n", RenderCodexLines(CodexLines(query, hits, instructionChars), fmt))) + "\n"
  }

  /**
   * `render_codex_context(query, hits, instruction_chars=...)`: the lines,
   * built in a loop over the hits numbered from 1, joined by newlines,
   * right-stripped, plus one final newline.
   */
  method RenderCodex(query: string, hits: seq<RetrievalHit>, instructionChars: int, fmt: real -> string) returns (out: string)
    ensures out == CodexContext(query, hits, instructionChars, fmt)
  {
    var lines := CodexLinesOf(query, hits, instructionChars);
    out := RStrip(Join("\n", RenderCodexLines(lines, fmt))) + "\n";
  }

  /** The line-building loop of `render_codex_context`: the header, then one section per hit numbered from 1. */
  method CodexLinesOf(query: string, hits: seq<RetrievalHit>, instructionChars: int) returns (lines: seq<CodexLine>)
    ensures lines == CodexLines(query, hits, instructionChars)
  {
    ghost var blocks := CodexBlocks(hits, instructionChars);
    lines := [DocTitle, CodexQuery(query), Blank];
    for i := 0 to |hits|
      invariant lines == [DocTitle, CodexQuery(query), Blank] + Concat(blocks[..i])
    {
      var section := CodexSectionLines(i + 1, hits[i], instructionChars);
      ConcatStep([DocTitle, CodexQuery(query), Blank], blocks, i, lines, section);
      lines := lines + section;
    }
    assert blocks[..|hits|] == blocks;
  }

  function HeadingOf(line: CodexLine): Option<CodexLine> {
    if line.Heading? then Some(line) else None
  }

  /** A section holds one heading, that of its hit and number. */
  lemma CodexSectionHeading(index: nat, hit: RetrievalHit, instructionChars: int)
    ensures Select(CodexSection(index, hit, instructionChars), HeadingOf) == [Heading(index, hit.card.title, hit.card.id)]
  {
    var body := CodexSectionBody(hit, instructionChars);
    CodexSectionBodyFacts(hit, instructionChars);
    SelectNone(body, HeadingOf);
    SelectAppend([Heading(index, hit.card.title, hit.card.id)], body, HeadingOf);
    assert [Heading(index, hit.card.title, hit.card.id)][1..] == [];
  }

  /** The heading each hit's section should have: its number from 1, its card's title and id. */
  function ExpectedHeadings(hits: seq<RetrievalHit>): (heads: seq<CodexLine>)
    ensures |heads| == |hits|
  {
    seq(|hits|, k requires 0 <= k < |hits| => Heading(k + 1, hits[k].card.title, hits[k].card.id))
  }

  /** The sections number the hits from 1, in hit order, each headed by its card's title and id. */
  lemma CodexBlocksHeadings(hits: seq<RetrievalHit>, instructionChars: int)
    ensures Select(Concat(CodexBlocks(hits, instructionChars)), HeadingOf) == ExpectedHeadings(hits)
  {
    var blocks := CodexBlocks(hits, instructionChars);
    var expected := ExpectedHeadings(hits);
    forall k | 0 <= k < |blocks|
      ensures Select(blocks[k], HeadingOf) == [expected[k]]
    {
      CodexBlockHeading(hits, instructionChars, k);
    }
    SelectConcat(blocks, HeadingOf, expected);
  }

  /** Section `k` is headed by hit `k`'s expected heading. */
  lemma CodexBlockHeading(hits: seq<RetrievalHit>, instructionChars: int, k: nat)
    requires k < |hits|
    ensures Select(CodexBlocks(hits, instructionChars)[k], HeadingOf) == [ExpectedHeadings(hits)[k]]
  {
    assert CodexBlocks(hits, instructionChars)[k] == CodexSection(k + 1, hits[k], instructionChars);
    assert ExpectedHeadings(hits)[k] == Heading(k + 1, hits[k].card.title, hits[k].card.id);
    CodexSectionHeading(k + 1, hits[k], instructionChars);
  }

  /** Hit `i` (counting from 1) gets the heading `## i. <title> (`<id>`)`, and the headings come in hit order. */
  lemma CodexHeadingsInOrder(query: string, hits: seq<RetrievalHit>, instructionChars: int)
    ensures Select(CodexLines(query, hits, instructionChars), HeadingOf) == ExpectedHeadings(hits)
  {
    var sections := Concat(CodexBlocks(hits, instructionChars));
    CodexBlocksHeadings(hits, instructionChars);
    var front := [DocTitle, CodexQuery(query), Blank];
    SelectAppend(front, sections, HeadingOf);
    SelectNone(front, HeadingOf);
  }

  /** Right-stripping never cuts into a prefix that ends in a non-space character. */
  lemma RStripKeepsPrefix(s: string, p: string)
    requires StartsWith(s, p) && p != [] && !IsSpace(p[|p| - 1])
    ensures StartsWith(RStrip(s), p)
  {
    var r := RStrip(s);
    assert |r| >= |p|;
    assert r[..|p|] == s[..|p|];
  }

  /**
   * The Codex context begins with the title line and `Query:`, and ends in
   * exactly one newline with no whitespace just before it.
   */
  lemma CodexFrame(query: string, hits: seq<RetrievalHit>, instructionChars: int, fmt: real -> string)
    ensures var out := CodexContext(query, hits, instructionChars, fmt);
      && StartsWith(out, "# Retrieved SkillMesh Cards" + "\n" + "Query:")
      && out[|out| - 1] == '\n' && !IsSpace(out[|out| - 2])
  {
    var lines := CodexLines(query, hits, instructionChars);
    var rendered := RenderCodexLines(lines, fmt);
    var joined := Join("\n", rendered);
    var title := "# Retrieved SkillMesh Cards";
    assert rendered[0] == title && rendered[1] == "Query: " + query;
    JoinStartsWithTwo("\n", rendered);
    var prefix := title + "\n" + "Query:";
    assert (title + "\n" + ("Query: " + query))[..|prefix|] == prefix;
    assert StartsWith(joined, prefix);
    RStripKeepsPrefix(joined, prefix);
    var stripped := RStrip(joined);
    assert (stripped + "\n")[..|prefix|] == stripped[..|prefix|];
  }
}
