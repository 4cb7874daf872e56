/**
 * `RAGService`: configuration checked once at construction, the fixed
 * grounding prompt with its three delimited sections, the join of the
 * retrieved snippets, and `answer_user_query`, which always returns text.
 * The vector-store retriever, Python's rendering of the chain input and the
 * chat model are opaque functions.
 */
module RagServices {
  import opened Wrappers
  import opened Text
  import opened Common

  /** Store location, relative to the directory the API is started from. */
  const VectorDbDir := "vector_db"

  /** The retriever is configured with `search_kwargs={"k": 3}`. */
  const SearchK: nat := 3

  /** The separator `_format_docs` puts between snippets. */
  const ContextSeparator := "\n\n---\n\n"

  /** What `answer_user_query` returns whenever any step of the chain raises. */
  const FallbackAnswer := "I encountered an error trying to find the answer. Please try rephrasing your question."

  /** The fields `__init__` assigns once; nothing updates them afterwards. */
  datatype RagService = RagService(
    apiKey: string,
    embeddings: EmbeddingConfig,
    persistDirectory: string,
    searchK: nat,
    llm: LlmConfig)

  /** `RAGService()`: fails exactly when the key is unset or empty. */
  function NewRagService(env: Env): (r: Result<RagService, InitError>)
    ensures r.Err? <==> ApiKeyVariable !in env || env[ApiKeyVariable] == ""
    ensures r.Err? ==> r.error == ValueError("GOOGLE_API_KEY not set.")
    ensures r.Ok? ==>
      && r.value.apiKey == env[ApiKeyVariable]
      && r.value.searchK == 3
      && r.value.persistDirectory == "vector_db"
      && r.value.embeddings == EmbeddingConfig(EmbeddingModel, env[ApiKeyVariable])
      && r.value.llm == LlmConfig(ChatModel, env[ApiKeyVariable])
  {
    var key := Getenv(env, ApiKeyVariable);
    if !Truthy(key) then Err(ValueError(KeyNotSetMessage))
    else
      Ok(RagService(
        key.value,
        EmbeddingConfig(EmbeddingModel, key.value),
        VectorDbDir,
        SearchK,
        LlmConfig(ChatModel, key.value)))
  }

  // ---------------------------------------------------------------------
  // The prompt template, character for character: every template line
  // carries the source's eight-space indentation, and the template opens
  // with the newline that follows the opening triple quote.
  // ---------------------------------------------------------------------

  const SilenceRule := "4.  If the user's document is silent on the issue, say so."
  const ContradictionRule := "5.  If the user's document *contradicts* the legal context, point this out (e.g., \"Your document states X, which is unusual as the standard legal position is Y...\")."
  const NoFabricationRule := "6.  **DO NOT** make up information. If the answer cannot be found in the provided texts, state that you cannot answer."
  const NoLegalAdviceRule := "7.  **DO NOT** provide legal advice. Frame your answer as \"This clause appears to mean...\" or \"This document states...\"."

  /** The instruction lines, up to the blank line before the first section. */
  const RagInstructionLines: seq<string> := [
    "",
    Indent + "You are \"LawGeeks\", a specialized AI assistant. Your goal is to answer a user's specific question about their legal document, using *only* the provided context.",
    Indent,
    Indent + "You have been given three pieces of information:",
    Indent + "1.  **THE USER'S DOCUMENT**: The full text of their agreement.",
    Indent + "2.  **RELEVANT LEGAL CONTEXT**: Snippets from Indian law (e.g., The Contract Act, RERA) that are relevant to the user's question.",
    Indent + "3.  **THE USER'S QUESTION**: The specific question the user asked.",
    "",
    Indent + "**INSTRUCTIONS:**",
    Indent + "1.  First, analyze the **USER'S DOCUMENT** to find clauses that relate to the **USER'S QUESTION**.",
    Indent + "2.  Next, use the **RELEVANT LEGAL CONTEXT** to understand the standard legal position or definitions.",
    Indent + "3.  Combine these insights to provide a clear, simple, and direct answer.",
    Indent + SilenceRule,
    Indent + ContradictionRule,
    Indent + NoFabricationRule,
    Indent + NoLegalAdviceRule,
    ""
  ]

  /** The fixed instruction block; it mentions none of the inputs. */
  const RagInstructions := Join(RagInstructionLines, "\n") + "\n"

  const SectionRule := Indent + "---"
  const DocumentHeading := Indent + "**THE USER'S DOCUMENT:**"
  const LegalContextHeading := Indent + "**RELEVANT LEGAL CONTEXT:**"
  const QuestionHeading := Indent + "**THE USER'S QUESTION:**"

  /** What follows the question: a rule, a blank line, the answer cue. */
  const RagClosing := SectionRule + "\n" + "\n" + Indent + "**Your Answer:**" + "\n" + Indent

  /** A `---` line, the bold heading, and the indentation before the value. */
  function SectionLead(heading: string): string
  {
    SectionRule + "\n" + heading + "\n" + Indent
  }

  /** The fixed text before the document: instructions, then the first section's lead. */
  const DocumentLead := RagInstructions + SectionLead(DocumentHeading)

  /** The fixed text between the document and the legal context. */
  const LegalLead := "\n" + SectionLead(LegalContextHeading)

  /** The fixed text between the legal context and the question. */
  const QuestionLead := "\n" + SectionLead(QuestionHeading)

  /** The fixed text after the question. */
  const PromptTail := "\n" + RagClosing

  /** The template with `{document_context}`, `{rag_context}` and `{question}` filled in. */
  function RagPrompt(documentContext: string, ragContext: string, question: string): (p: string)
    ensures ContainsAt(p, documentContext, |DocumentLead|)
    ensures ContainsAt(p, ragContext, |DocumentLead| + |documentContext| + |LegalLead|)
    ensures ContainsAt(p, question,
      |DocumentLead| + |documentContext| + |LegalLead| + |ragContext| + |QuestionLead|)
    ensures EndsWith(p, PromptTail)
  {
    SevenPieces(DocumentLead, documentContext, LegalLead, ragContext, QuestionLead, question, PromptTail);
    DocumentLead + documentContext + LegalLead + ragContext + QuestionLead + question + PromptTail
  }

  /** The three values a filled prompt carries. */
  datatype RagSections = RagSections(document: string, legal: string, question: string)

  /**
   * Reads the three values back out of a prompt, given the lengths of the
   * first two, checking every fixed piece of text around them.
   */
  function ParseRagPrompt(p: string, documentLength: nat, legalLength: nat): Option<RagSections>
  {
    var d := |DocumentLead|;
    var l := d + documentLength + |LegalLead|;
    var q := l + legalLength + |QuestionLead|;
    if |p| < q + |PromptTail| then None
    else if
      && p[..d] == DocumentLead
      && p[d + documentLength..l] == LegalLead
      && p[l + legalLength..q] == QuestionLead
      && p[|p| - |PromptTail|..] == PromptTail
    then Some(RagSections(p[d..d + documentLength], p[l..l + legalLength], p[q..|p| - |PromptTail|]))
    else None
  }

  /**
   * Every filled prompt is read back to exactly the values it was filled
   * with: each value sits verbatim after its own heading, in the order
   * document, legal context, question, with the fixed text in between.
   */
  lemma RagPromptRoundTrip(dc: string, rc: string, q: string)
    ensures ParseRagPrompt(RagPrompt(dc, rc, q), |dc|, |rc|) == Some(RagSections(dc, rc, q))
  {
    SevenPieces(DocumentLead, dc, LegalLead, rc, QuestionLead, q, PromptTail);
  }

  /** Whatever the parser accepts is a prompt filled with what it returns. */
  lemma ParseRagPromptSound(p: string, documentLength: nat, legalLength: nat)
    requires ParseRagPrompt(p, documentLength, legalLength).Some?
    ensures var s := ParseRagPrompt(p, documentLength, legalLength).value;
      |s.document| == documentLength && |s.legal| == legalLength
      && p == RagPrompt(s.document, s.legal, s.question)
  {
    var d := |DocumentLead|;
    var l := d + documentLength + |LegalLead|;
    var q := l + legalLength + |QuestionLead|;
    var s := ParseRagPrompt(p, documentLength, legalLength).value;
    SevenSlicesAre(p, DocumentLead, s.document, LegalLead, s.legal, QuestionLead, s.question, PromptTail);
  }

  /** Prompts that agree on the lengths of the first two values agree on all three values. */
  lemma RagPromptInjective(dc: string, rc: string, q: string, dc': string, rc': string, q': string)
    requires RagPrompt(dc, rc, q) == RagPrompt(dc', rc', q')
    requires |dc| == |dc'| && |rc| == |rc'|
    ensures dc == dc' && rc == rc' && q == q'
  {
    RagPromptRoundTrip(dc, rc, q);
    RagPromptRoundTrip(dc', rc', q');
  }

  /** The instruction block opens every prompt, whatever the values, and ends before the first section. */
  lemma RagInstructionsFirst(dc: string, rc: string, q: string)
    ensures StartsWith(RagPrompt(dc, rc, q), RagInstructions)
    ensures |RagInstructions| < |DocumentLead|
  {
    SevenPieces(DocumentLead, dc, LegalLead, rc, QuestionLead, q, PromptTail);
    StartsWithConcat(RagInstructions, SectionLead(DocumentHeading));
    StartsWithTransitive(RagPrompt(dc, rc, q), DocumentLead, RagInstructions);
  }

  /** Index of instruction line `i` within the instruction block. */
  function InstructionLineStart(i: nat): nat
    requires i <= |RagInstructionLines|
  {
    Offset(RagInstructionLines, "\n", i)
  }

  /**
   * The grounding rules are all in the instruction block, in this order:
   * say when the document is silent, flag contradictions, do not make
   * things up, give no legal advice; and the block ends before the
   * document section of every prompt begins.
   */
  lemma GroundingRulesInOrder(dc: string, rc: string, q: string)
    ensures ContainsAt(RagPrompt(dc, rc, q), Indent + SilenceRule, InstructionLineStart(12))
    ensures ContainsAt(RagPrompt(dc, rc, q), Indent + ContradictionRule, InstructionLineStart(13))
    ensures ContainsAt(RagPrompt(dc, rc, q), Indent + NoFabricationRule, InstructionLineStart(14))
    ensures ContainsAt(RagPrompt(dc, rc, q), Indent + NoLegalAdviceRule, InstructionLineStart(15))
    ensures InstructionLineStart(12) < InstructionLineStart(13) < InstructionLineStart(14)
      < InstructionLineStart(15)
    ensures InstructionLineStart(15) + |Indent + NoLegalAdviceRule| < |DocumentLead|
  {
    RagInstructionsFirst(dc, rc, q);
    RulesInInstructedText(RagPrompt(dc, rc, q));
  }

  /** Any text that opens with the instruction block carries the rules at their line starts. */
  lemma RulesInInstructedText(p: string)
    requires StartsWith(p, RagInstructions)
    ensures ContainsAt(p, Indent + SilenceRule, InstructionLineStart(12))
    ensures ContainsAt(p, Indent + ContradictionRule, InstructionLineStart(13))
    ensures ContainsAt(p, Indent + NoFabricationRule, InstructionLineStart(14))
    ensures ContainsAt(p, Indent + NoLegalAdviceRule, InstructionLineStart(15))
    ensures InstructionLineStart(12) < InstructionLineStart(13) < InstructionLineStart(14)
      < InstructionLineStart(15)
    ensures InstructionLineStart(15) + |Indent + NoLegalAdviceRule| < |RagInstructions|
  {
    InstructionLineInText(p, 12);
    InstructionLineInText(p, 13);
    InstructionLineInText(p, 14);
    InstructionLineInText(p, 15);
    RuleLinesIncrease();
  }

  /** Instruction line `i` sits at its line start in any text that opens with the block. */
  lemma InstructionLineInText(p: string, i: nat)
    requires i < |RagInstructionLines|
    requires StartsWith(p, RagInstructions)
    ensures ContainsAt(p, RagInstructionLines[i], InstructionLineStart(i))
  {
    JoinPieceAt(RagInstructionLines, "\n", i);
    ContainsAtAppend(Join(RagInstructionLines, "\n"), "\n", RagInstructionLines[i], InstructionLineStart(i));
    ContainsAtPrefix(p, RagInstructions, RagInstructionLines[i], InstructionLineStart(i));
  }

  /** The rule lines start in order, and the last one ends inside the block. */
  lemma RuleLinesIncrease()
    ensures InstructionLineStart(12) < InstructionLineStart(13) < InstructionLineStart(14)
      < InstructionLineStart(15)
    ensures InstructionLineStart(15) + |Indent + NoLegalAdviceRule| < |RagInstructions|
  {
    var lines := RagInstructionLines;
    OffsetIncreasing(lines, "\n", 12, 13);
    OffsetIncreasing(lines, "\n", 13, 14);
    OffsetIncreasing(lines, "\n", 14, 15);
    OffsetIncreasing(lines, "\n", 15, 16);
    JoinPieceAt(lines, "\n", 16);
  }

  /** `_format_docs`: the snippets' texts joined with the separator, in retrieval order. */
  function FormatDocs(docs: seq<Document>): (r: string)
    ensures docs == [] ==> r == ""
    ensures |docs| == 1 ==> r == docs[0].pageContent
  {
    Join(PageContents(docs), ContextSeparator)
  }

  /** Index in `FormatDocs(docs)` at which snippet `i` starts. */
  function SnippetStart(docs: seq<Document>, i: nat): nat
    requires i <= |docs|
  {
    Offset(PageContents(docs), ContextSeparator, i)
  }

  /**
   * Snippet `i` sits verbatim at its position, exactly one separator follows
   * each snippet but the last, and the last snippet ends the text, so `n`
   * snippets give `n - 1` separators and nothing else.
   */
  lemma FormatDocsLayout(docs: seq<Document>, i: nat)
    requires i < |docs|
    ensures ContainsAt(FormatDocs(docs), docs[i].pageContent, SnippetStart(docs, i))
    ensures i + 1 < |docs| ==>
      ContainsAt(FormatDocs(docs), ContextSeparator, SnippetStart(docs, i) + |docs[i].pageContent|)
    ensures i + 1 < |docs| ==>
      SnippetStart(docs, i + 1)
        == SnippetStart(docs, i) + |docs[i].pageContent| + |ContextSeparator|
    ensures i + 1 == |docs| ==>
      SnippetStart(docs, i) + |docs[i].pageContent| == |FormatDocs(docs)|
  {
    JoinPieceAt(PageContents(docs), ContextSeparator, i);
  }

  // ---------------------------------------------------------------------
  // The chain `answer_user_query` builds and invokes.
  // ---------------------------------------------------------------------

  /** The mapping handed to `invoke`. */
  datatype ChainInput = ChainInput(question: string, documentContext: string)

  /**
   * The vector-store retriever: top-`k` search on what it is invoked with.
   * The chain invokes it with the whole input mapping, not the question alone.
   */
  type Retriever = (ChainInput, nat) -> Result<seq<Document>, Failure>

  /**
   * How the prompt template renders a value that is not a string. The two
   * `RunnablePassthrough` keys both carry the whole input mapping, so this
   * rendering fills both `{question}` and `{document_context}`.
   */
  type Renderer = ChainInput -> string

  /** The store returns at most `k` documents whenever it is asked for `k`. */
  ghost predicate HonoursK(retrieve: Retriever)
  {
    forall input: ChainInput, k: nat :: retrieve(input, k).Ok? ==> |retrieve(input, k).value| <= k
  }

  /** The prompt the chain gives the model, or the error retrieval raised. */
  function ChainPrompt(svc: RagService, retrieve: Retriever, render: Renderer, input: ChainInput)
    : (r: Result<string, Failure>)
    ensures r.Err? <==> retrieve(input, svc.searchK).Err?
    ensures r.Err? ==> r.error == retrieve(input, svc.searchK).error
    ensures r.Ok? ==>
      r.value == RagPrompt(render(input), FormatDocs(retrieve(input, svc.searchK).value), render(input))
  {
    match retrieve(input, svc.searchK)
    case Err(e) => Err(e)
    case Ok(docs) => Ok(RagPrompt(render(input), FormatDocs(docs), render(input)))
  }

  /**
   * The prompt of a successful retrieval is a filled template: the rendered
   * input in the document and question sections, the formatted snippets in
   * the legal section, the instruction block first; and a service built by
   * `NewRagService` over a store that honours `k` puts at most three
   * snippets there.
   */
  lemma ChainPromptLayout(svc: RagService, retrieve: Retriever, render: Renderer, input: ChainInput)
    requires ChainPrompt(svc, retrieve, render, input).Ok?
    ensures retrieve(input, svc.searchK).Ok?
    ensures var docs := retrieve(input, svc.searchK).value;
      var p := ChainPrompt(svc, retrieve, render, input).value;
      && ParseRagPrompt(p, |render(input)|, |FormatDocs(docs)|)
           == Some(RagSections(render(input), FormatDocs(docs), render(input)))
      && StartsWith(p, RagInstructions)
      && (HonoursK(retrieve) && svc.searchK == 3 ==> |docs| <= 3)
  {
    var docs := retrieve(input, svc.searchK).value;
    RagPromptRoundTrip(render(input), FormatDocs(docs), render(input));
    RagInstructionsFirst(render(input), FormatDocs(docs), render(input));
  }

  /**
   * `answer_user_query`. It never raises: a failure of retrieval, or of the
   * model or its output parser, yields the fallback sentence; otherwise the
   * model's text is returned unchanged.
   */
  function AnswerUserQuery(
    svc: RagService, retrieve: Retriever, render: Renderer, generate: Generator,
    documentText: string, userQuestion: string): (answer: string)
    ensures var input := ChainInput(userQuestion, documentText);
      ChainPrompt(svc, retrieve, render, input).Err? ==> answer == FallbackAnswer
    ensures var input := ChainInput(userQuestion, documentText);
      retrieve(input, svc.searchK).Err? ==> answer == FallbackAnswer
    ensures var input := ChainInput(userQuestion, documentText);
      var p := ChainPrompt(svc, retrieve, render, input);
      p.Ok? ==> answer == (if generate(svc.llm, p.value).Ok? then generate(svc.llm, p.value).value
                           else FallbackAnswer)
  {
    var input := ChainInput(userQuestion, documentText);
    match ChainPrompt(svc, retrieve, render, input)
    case Err(_) => FallbackAnswer
    case Ok(prompt) =>
      match generate(svc.llm, prompt)
      case Ok(text) => text
      case Err(_) => FallbackAnswer
  }

  /** The answer is the fallback sentence or something the model produced for some prompt. */
  lemma AnswerIsGeneratedOrFallback(
    svc: RagService, retrieve: Retriever, render: Renderer, generate: Generator,
    documentText: string, userQuestion: string)
    ensures var a := AnswerUserQuery(svc, retrieve, render, generate, documentText, userQuestion);
      a == FallbackAnswer || exists prompt :: generate(svc.llm, prompt) == Ok(a)
    ensures (forall prompt :: generate(svc.llm, prompt).Err?) ==>
      AnswerUserQuery(svc, retrieve, render, generate, documentText, userQuestion) == FallbackAnswer
  {
    var p := ChainPrompt(svc, retrieve, render, ChainInput(userQuestion, documentText));
    if p.Ok? {
      assert generate(svc.llm, p.value) == generate(svc.llm, p.value);
    }
  }
}
