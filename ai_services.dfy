/**
 * `AIService`: the key check at construction and `get_document_overview`,
 * a fixed paralegal prompt with the document appended verbatim, sent to the
 * opaque chat model; any failure becomes one fixed markdown error text.
 */
module AiServices {
  import opened Wrappers
  import opened Text
  import opened Common

  /** What `get_document_overview` returns whenever the chain raises. */
  const OverviewFallback := "### Error\n\nCould not generate analysis. The AI service failed."

  /** The fields `__init__` assigns once. */
  datatype AiService = AiService(apiKey: string, llm: LlmConfig)

  /** `AIService()`: fails exactly when the key is unset or empty. */
  function NewAiService(env: Env): (r: Result<AiService, InitError>)
    ensures r.Err? <==> ApiKeyVariable !in env || env[ApiKeyVariable] == ""
    ensures r.Err? ==> r.error == ValueError("GOOGLE_API_KEY not set.")
    ensures r.Ok? ==> r.value == AiService(env[ApiKeyVariable], LlmConfig(ChatModel, env[ApiKeyVariable]))
  {
    var key := Getenv(env, ApiKeyVariable);
    if !Truthy(key) then Err(ValueError(KeyNotSetMessage))
    else Ok(AiService(key.value, LlmConfig(ChatModel, key.value)))
  }

  // ---------------------------------------------------------------------
  // The prompt template, character for character (eight-space indentation,
  // opening newline after the triple quote).
  // ---------------------------------------------------------------------

  /** The four headings the answer must use, in this order. */
  const OverviewHeadings: seq<string> := [
    "### Summary",
    "### Key Insights",
    "### Important Mentions",
    "### Vigilance Score (1-100) and Justification"
  ]

  /** The start of the instruction line that lists the headings. */
  const HeadingsIntro := Indent + "Analyze the following document. Structure your response with the following headings EXACTLY as written, using \"###\" for each heading: "

  /** `### Summary, ### Key Insights, ...` written out on one instruction line. */
  const HeadingsLine := HeadingsIntro + Join(OverviewHeadings, ", ") + "."

  /** The instruction lines, up to the blank line before `Document:`. */
  const OverviewInstructionLines: seq<string> := [
    "",
    Indent + "You are an expert AI paralegal named LawGeeks. Your specialty is analyzing legal documents and explaining them in simple, neutral terms for people who are not lawyers.",
    Indent + "Your analysis must be factual and objective. Do not provide legal advice, opinions, or any information not explicitly found in the document.",
    "",
    HeadingsLine,
    Indent + "For \"Important Mentions\" and \"Key Insights\", use bullet points starting with '*'.",
    Indent + "For \"Important Mentions\", extract and list all specific dates, deadlines, and financial amounts. If none are found, state \"None found.\"",
    Indent + "For \"Vigilance Score (1-100) and Justification\", provide a numerical risk score from 1 (very low risk) to 100 (very high risk). After the score, provide a single sentence justifying your choice.",
    ""
  ]

  const OverviewInstructions := Join(OverviewInstructionLines, "\n") + "\n"

  /** Everything before `{document_text}`: the instructions, `Document:` and a `---` line. */
  const OverviewLead := OverviewInstructions + DocumentMarker

  /** `Document:` and a `---` line, then the indentation before the document. */
  const DocumentMarker := Indent + "Document:" + "\n" + Indent + "---" + "\n" + Indent

  /** What follows `{document_text}`: the newline and indentation before the closing quotes. */
  const OverviewTail := "\n" + Indent

  /** The template with `{document_text}` filled in. */
  function OverviewPrompt(documentText: string): (p: string)
    ensures ContainsAt(p, documentText, |OverviewLead|)
    ensures EndsWith(p, OverviewTail)
  {
    ThreePieces(OverviewLead, documentText, OverviewTail);
    OverviewLead + documentText + OverviewTail
  }

  /** Reads the document back out of a prompt, checking the fixed text around it. */
  function ParseOverviewPrompt(p: string): Option<string>
  {
    if |p| < |OverviewLead| + |OverviewTail| then None
    else if p[..|OverviewLead|] == OverviewLead && p[|p| - |OverviewTail|..] == OverviewTail
    then Some(p[|OverviewLead|..|p| - |OverviewTail|])
    else None
  }

  /** The document is the prompt's only variable part, and it comes back out unchanged. */
  lemma OverviewPromptRoundTrip(documentText: string)
    ensures ParseOverviewPrompt(OverviewPrompt(documentText)) == Some(documentText)
  {
    ThreePieces(OverviewLead, documentText, OverviewTail);
  }

  /** Whatever the parser accepts is the prompt of what it returns. */
  lemma ParseOverviewPromptSound(p: string)
    requires ParseOverviewPrompt(p).Some?
    ensures p == OverviewPrompt(ParseOverviewPrompt(p).value)
  {
    ThreeSlices(p, |OverviewLead|, |p| - |OverviewTail|);
  }

  /** Different documents give different prompts. */
  lemma OverviewPromptInjective(a: string, b: string)
    requires OverviewPrompt(a) == OverviewPrompt(b)
    ensures a == b
  {
    OverviewPromptRoundTrip(a);
    OverviewPromptRoundTrip(b);
  }

  /** Index in every overview prompt at which heading `i` appears. */
  function HeadingStart(i: nat): nat
    requires i < |OverviewHeadings|
  {
    Offset(OverviewInstructionLines, "\n", 4) + |HeadingsIntro| + Offset(OverviewHeadings, ", ", i)
  }

  /** The headings line sits in every prompt's instructions, before the document. */
  lemma HeadingsLineInPrompt(documentText: string)
    ensures ContainsAt(OverviewPrompt(documentText), HeadingsLine, Offset(OverviewInstructionLines, "\n", 4))
    ensures Offset(OverviewInstructionLines, "\n", 4) + |HeadingsLine| <= |OverviewLead|
  {
    var lines := OverviewInstructionLines;
    var p := OverviewPrompt(documentText);
    JoinPieceAt(lines, "\n", 4);
    ContainsAtAppend(Join(lines, "\n"), "\n", lines[4], Offset(lines, "\n", 4));
    StartsWithConcat(OverviewLead, documentText);
    StartsWithConcat(OverviewLead + documentText, OverviewTail);
    StartsWithTransitive(p, OverviewLead + documentText, OverviewLead);
    StartsWithConcat(OverviewInstructions, DocumentMarker);
    StartsWithTransitive(p, OverviewLead, OverviewInstructions);
    ContainsAtPrefix(p, OverviewInstructions, lines[4], Offset(lines, "\n", 4));
  }

  /** Heading `i` sits in the headings line after the introduction, at its join offset. */
  lemma HeadingInLine(i: nat)
    requires i < |OverviewHeadings|
    ensures ContainsAt(HeadingsLine, OverviewHeadings[i], |HeadingsIntro| + Offset(OverviewHeadings, ", ", i))
  {
    JoinPieceFramed(HeadingsIntro, OverviewHeadings, ", ", ".", i);
  }

  /** Heading `i` appears in every prompt at `HeadingStart(i)`. */
  lemma HeadingInPrompt(documentText: string, i: nat)
    requires i < |OverviewHeadings|
    ensures ContainsAt(OverviewPrompt(documentText), OverviewHeadings[i], HeadingStart(i))
  {
    HeadingsLineInPrompt(documentText);
    HeadingInText(OverviewPrompt(documentText), i);
  }

  /** Heading `i` sits at `HeadingStart(i)` in any text holding the headings line at its place. */
  lemma HeadingInText(p: string, i: nat)
    requires i < |OverviewHeadings|
    requires ContainsAt(p, HeadingsLine, Offset(OverviewInstructionLines, "\n", 4))
    ensures ContainsAt(p, OverviewHeadings[i], HeadingStart(i))
  {
    JoinPieceFramedIn(p, Offset(OverviewInstructionLines, "\n", 4), HeadingsIntro, OverviewHeadings, ", ", ".", i);
  }

  /** Headings start in list order, and the last one ends inside the headings line. */
  lemma HeadingStartsIncrease()
    ensures HeadingStart(0) < HeadingStart(1) < HeadingStart(2) < HeadingStart(3)
    ensures |HeadingsIntro| + Offset(OverviewHeadings, ", ", 3) + |OverviewHeadings[3]| < |HeadingsLine|
  {
    OffsetIncreasing(OverviewHeadings, ", ", 0, 1);
    OffsetIncreasing(OverviewHeadings, ", ", 1, 2);
    OffsetIncreasing(OverviewHeadings, ", ", 2, 3);
    JoinPieceAt(OverviewHeadings, ", ", 3);
  }

  /**
   * Exactly four headings are demanded, in the order Summary, Key Insights,
   * Important Mentions, Vigilance Score; each appears in the instructions at
   * its position, and all of them before the document text.
   */
  lemma OverviewHeadingsInOrder(documentText: string)
    ensures |OverviewHeadings| == 4
    ensures forall i :: 0 <= i < 4 ==>
      ContainsAt(OverviewPrompt(documentText), OverviewHeadings[i], HeadingStart(i))
    ensures HeadingStart(0) < HeadingStart(1) < HeadingStart(2) < HeadingStart(3)
    ensures HeadingStart(3) + |OverviewHeadings[3]| <= |OverviewLead|
  {
    forall i | 0 <= i < 4
      ensures ContainsAt(OverviewPrompt(documentText), OverviewHeadings[i], HeadingStart(i))
    {
      HeadingInPrompt(documentText, i);
    }
    HeadingStartsIncrease();
    HeadingsLineInPrompt(documentText);
  }

  /**
   * `get_document_overview`. It never raises: the model's text on success,
   * unchanged, and the fixed error text on any failure.
   */
  function GetDocumentOverview(svc: AiService, generate: Generator, documentText: string): (r: string)
    ensures generate(svc.llm, OverviewPrompt(documentText)).Ok? ==>
      r == generate(svc.llm, OverviewPrompt(documentText)).value
    ensures generate(svc.llm, OverviewPrompt(documentText)).Err? ==> r == OverviewFallback
  {
    match generate(svc.llm, OverviewPrompt(documentText))
    case Ok(text) => text
    case Err(_) => OverviewFallback
  }

  /**
   * The model sees the document verbatim as the last variable part of its
   * prompt, after the fixed instructions; the result is the fallback or
   * something the model produced.
   */
  lemma OverviewAnswerIsGeneratedOrFallback(svc: AiService, generate: Generator, documentText: string)
    ensures var r := GetDocumentOverview(svc, generate, documentText);
      r == OverviewFallback || exists prompt :: generate(svc.llm, prompt) == Ok(r)
    ensures (forall prompt :: generate(svc.llm, prompt).Err?) ==>
      GetDocumentOverview(svc, generate, documentText) == OverviewFallback
  {
    var p := OverviewPrompt(documentText);
    assert generate(svc.llm, p) == generate(svc.llm, p);
  }
}
