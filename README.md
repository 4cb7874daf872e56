# LawGeeks-Pro: a verified model of the retrieval-augmented answering glue

LawGeeks-Pro answers questions about an uploaded legal document. It combines
the document's own text with snippets of Indian law retrieved from a vector
index, and sends both to a Gemini chat model. It also writes a structured
overview of a document, and an offline script rebuilds the vector index from
the PDFs of a knowledge base. The chunking, embedding, similarity search and
generation are library calls (LangChain, Chroma, Google GenAI). Here they are
opaque functions that return a value or fail. What the repository does
itself is modelled and proved:

- **Retrieval service** (`RagServices`, from `api/core/rag_services.py`).
  The constructor checks the key and fixes the configuration (top 3 chunks).
  The grounding prompt is modelled character for character. `_format_docs`
  joins snippets with `"\n\n---\n\n"`. `answer_user_query` always returns
  text: the model's answer or one fixed fallback sentence.
- **Overview service** (`AiServices`, from `api/core/ai_services.py`). The
  constructor checks the key. The overview prompt is modelled verbatim, with
  the document as its last variable part. Any failure returns one fixed
  markdown error text.
- **Ingestion script** (`Ingest`, from `scripts/ingest.py`). `main` is an
  imperative method over a `VectorStore` object (directory present or not,
  indexed chunks, a history of store operations). The method is proved
  against a pure specification `IngestSpec`.
- **Request and response bodies** (`PydanticModels`, from
  `api/models/pydantic_models.py`). Required fields and `min_length` bounds
  become validation functions that report every failing field.
- **Shared support**: `Wrappers` (Option, Result, Outcome), `Text` (Python's
  `str.join` and positional facts about strings), `Common` (the environment,
  LangChain documents, model configurations, the chat-model collaborator).

How the chain is wired, as `answer_user_query` builds it at
`api/core/rag_services.py:103-116`: a parallel map hands its *whole* input
mapping `{"question": ..., "document_context": ...}` to each branch. So the
retriever is invoked with that mapping (`Retriever` takes a `ChainInput`),
and the two `RunnablePassthrough` keys also carry the mapping. The template's
`{question}` and `{document_context}` slots therefore both receive the
template's rendering of the mapping (`Renderer`, an opaque function). The
comments at lines 94-101 and 119-120 say the question goes to the retriever
and to `{question}`. The model follows the code, not the comments. The
template fill itself (`RagPrompt`) is a function of three strings.

What the code does not do itself:

- It has no chunker, index search or retry logic of its own. These are
  library calls.
- An empty knowledge base is reported by a print and a normal return. It is
  not an error.
- The script returns nothing. It prints the number of pages loaded and the
  number of chunks split.
- The old index is deleted before the new one is built, so the swap is not
  atomic.

## Model

| member | source | states |
|---|---|---|
| `Common.Getenv` | api/core/rag_services.py:16 | `os.getenv`: a value exactly when the variable is set, and then its value |
| `Common.Truthy` | api/core/rag_services.py:17 | Python's `not api_key` on an optional string: only `None` and `""` are false |
| `Common.PageContents` | api/core/rag_services.py:87 | the `page_content` of each retrieved document, same length and order |
| `Text.Join` | api/core/rag_services.py:87 | `sep.join`: empty list gives `""`, one part gives that part, length is the parts' total plus one separator per gap |
| `Text.JoinPieceAt` | api/core/rag_services.py:87 | every part sits verbatim at its offset; exactly one separator follows each part but the last; the last part ends the string |
| `RagServices.NewRagService` | api/core/rag_services.py:15-38 | fails with `ValueError("GOOGLE_API_KEY not set.")` exactly when the key is unset or empty; otherwise k = 3, store `vector_db`, and both models use that key |
| `RagServices.RagPrompt` | api/core/rag_services.py:41-70 | the template fill: the document, legal context and question each sit verbatim right after their fixed lead text, and the closing text ends the prompt |
| `RagServices.RagPromptRoundTrip` | api/core/rag_services.py:41-70 | given the lengths of the document and the legal context, a filled prompt reads back to exactly its three values, each verbatim after its bold heading, in that order, between `---` lines. Without those lengths the reading is not unique: a document that contains the legal section's lead text shifts the sections |
| `RagServices.ParseRagPromptSound` | api/core/rag_services.py:58-70 | anything the section reader accepts is the template filled with the values it returns |
| `RagServices.RagPromptInjective` | api/core/rag_services.py:58-70 | two fills whose first two values have equal lengths are equal only when all three values are |
| `RagServices.RagInstructionsFirst` | api/core/rag_services.py:41-58 | the fixed instruction block, which contains no input, is a prefix of every prompt and ends before the first section |
| `RagServices.RulesInInstructedText` | api/core/rag_services.py:49-57 | any text that opens with the instruction block holds the four grounding rules at increasing line starts, all inside the block |
| `RagServices.GroundingRulesInOrder` | api/core/rag_services.py:49-57 | the rules "say when the document is silent", "flag contradictions", "do not make things up" and "no legal advice" sit in every prompt in that order, before the document section |
| `RagServices.FormatDocs` | api/core/rag_services.py:85-87 | no snippets give `""`; one snippet gives exactly its `page_content` |
| `RagServices.FormatDocsLayout` | api/core/rag_services.py:85-87 | snippets keep retrieval order, each verbatim at its position, with exactly one separator between neighbours and nothing else, so n snippets give n-1 separators |
| `RagServices.ChainPrompt` | api/core/rag_services.py:103-116 | the chain fails exactly when retrieval fails, with retrieval's error; otherwise the prompt is the template filled with the rendered input mapping in the document and question slots and the joined snippets in the legal slot |
| `RagServices.ChainPromptLayout` | api/core/rag_services.py:103-113 | after a successful retrieval, the model's prompt is the template filled with the rendered input (document and question slots) and the formatted snippets (legal slot); with k = 3 and a store that honours k there are at most three snippets |
| `RagServices.AnswerUserQuery` | api/core/rag_services.py:89-129 | retrieval failure or model failure yields exactly the fallback sentence; otherwise the model's parsed text is returned unchanged |
| `RagServices.AnswerIsGeneratedOrFallback` | api/core/rag_services.py:121-129 | the answer is the fallback sentence or a text the model produced; a model that always fails always gives the fallback |
| `AiServices.NewAiService` | api/core/ai_services.py:11-20 | fails with `ValueError("GOOGLE_API_KEY not set.")` exactly when the key is unset or empty; otherwise the chat model uses that key |
| `AiServices.OverviewPrompt` | api/core/ai_services.py:28-40 | the template fill: the document sits verbatim right after the fixed instructions and `Document:` / `---` lines, and the closing indentation ends the prompt |
| `AiServices.OverviewPromptRoundTrip` | api/core/ai_services.py:28-40 | the document is the prompt's only variable part, after the fixed instructions, `Document:` and `---`; it reads back unchanged |
| `AiServices.ParseOverviewPromptSound` | api/core/ai_services.py:28-40 | anything the reader accepts is the prompt of the document it returns |
| `AiServices.OverviewPromptInjective` | api/core/ai_services.py:28-40 | different documents give different prompts |
| `AiServices.HeadingsLineInPrompt` | api/core/ai_services.py:32 | the line listing the headings is in every prompt, before the document |
| `AiServices.HeadingInLine` | api/core/ai_services.py:32 | each heading sits in that line at its place in the comma-separated list |
| `AiServices.HeadingInPrompt` | api/core/ai_services.py:32 | each heading appears in every prompt at its fixed position |
| `AiServices.HeadingStartsIncrease` | api/core/ai_services.py:32 | the headings appear in list order, all inside the line |
| `AiServices.OverviewHeadingsInOrder` | api/core/ai_services.py:32 | exactly four `###` headings are demanded, in the order Summary, Key Insights, Important Mentions, Vigilance Score (1-100) and Justification, all before the document |
| `AiServices.GetDocumentOverview` | api/core/ai_services.py:42-51 | the model's text unchanged on success; exactly `"### Error\n\nCould not generate analysis. The AI service failed."` on any failure |
| `AiServices.OverviewAnswerIsGeneratedOrFallback` | api/core/ai_services.py:46-51 | the overview is the error text or a text the model produced; a model that always fails always gives the error text |
| `PydanticModels.CheckField` | api/models/pydantic_models.py:4-11 | a required string field has no error exactly when it is present and long enough; otherwise one `Missing` or one `StringTooShort` error |
| `PydanticModels.ValidateAnalyzeRequest` | api/models/pydantic_models.py:3-4 | valid exactly when `document_text` is present with at least 100 characters; the errors otherwise |
| `PydanticModels.ValidateChatRequest` | api/models/pydantic_models.py:9-11 | valid exactly when both fields are present and `question` has at least 5 characters (an empty `document_text` is accepted); otherwise every failing field, in declaration order |
| `PydanticModels.AnalyzeRequestRoundTrip` | api/models/pydantic_models.py:3-4 | a request's own text validates back to it exactly when it meets the bound |
| `PydanticModels.ChatRequestRoundTrip` | api/models/pydantic_models.py:9-11 | a request's own fields validate back to it exactly when the question meets the bound |
| `PydanticModels.MakeAnalyzeResponse` | api/models/pydantic_models.py:6-7 | every string is a valid analysis response and is kept as is |
| `PydanticModels.MakeChatResponse` | api/models/pydantic_models.py:13-14 | every string is a valid chat response and is kept as is |
| `Ingest.MatchesPdfGlob` | scripts/ingest.py:27 | `glob="**/*.pdf"`: a file matches exactly when its last path component ends in `.pdf`, at any depth below the knowledge base |
| `Ingest.PdfGlobAnyDepth` | scripts/ingest.py:27 | placing a file under more directories never changes whether it matches |
| `Ingest.LoadKnowledgeBase` | scripts/ingest.py:25-30 | the load succeeds exactly when every file matching `**/*.pdf` can be read; otherwise it raises the error of the first matching file that cannot |
| `Ingest.LoadReadsOnlyPdfs` | scripts/ingest.py:25-30 | only files matching `**/*.pdf` are read: two readers that agree on those files load the same result |
| `Ingest.LoadedExactlyThePdfPages` | scripts/ingest.py:25-30 | a successful load holds every page of every matching file, and only such pages |
| `Ingest.NoPdfsLoadNothing` | scripts/ingest.py:25-34 | a knowledge base without a matching file loads nothing, the case that returns early |
| `Ingest.IngestEmbeddings` | scripts/ingest.py:46 | the script's embedding model is `models/embedding-001` with the key it read |
| `Ingest.IngestAndQueryEmbedAlike` | scripts/ingest.py:46 | with the same key, the script indexes with the embedding model and key that the retrieval service embeds queries with |
| `Ingest.RunChunks` | scripts/ingest.py:40-41 | the chunks are the loaded pages split by the splitter configured with chunk size 1000 and overlap 200 |
| `Ingest.FromDocumentsSpec` | scripts/ingest.py:55-59 | building at an existing directory opens it and keeps its old chunks; building at a missing one creates it empty; the chunks are added only if embedding succeeds |
| `Ingest.IngestSpec` | scripts/ingest.py:15-59 | a missing key raises before loading and leaves the store alone; with a key, a failed load raises the loader's error, and it and an empty load leave the store alone; with a key and some pages the run reaches the store, and it succeeds exactly when embedding this run's chunks (split with 1000/200) succeeds; success leaves exactly this run's chunks and carries the page and chunk counts the script prints; a failed build raises the embedding error and leaves an empty store; removal happens exactly when an old store existed, before the creation; nothing is opened in place |
| `Ingest.VectorStore.constructor` | scripts/ingest.py:49 | the store directory as the script finds it, with an empty history |
| `Ingest.VectorStore.RemoveTree` | scripts/ingest.py:49-51 | `rmtree` leaves no directory and no chunks, and records the removal |
| `Ingest.VectorStore.FromDocuments` | scripts/ingest.py:55-59 | the store's new state and history are those of `FromDocumentsSpec` for the embedding result |
| `Ingest.RunIngestion` | scripts/ingest.py:15-62 | the step-by-step `main`: its outcome, the store's final state and the operations it records are those of `IngestSpec` |

## Left out

- Library internals are opaque functions: the `RecursiveCharacterTextSplitter` algorithm, Google embeddings and their vectors, Chroma's persistence and similarity search, and Gemini generation. No chunk-size, overlap, ranking or tie-break property is claimed.
- Temperatures (0.3 and 0.2) are floating-point settings with no effect on the modelled logic. The model names are kept.
- `self.rag_chain` (api/core/rag_services.py:74-83) is built but never invoked, so it is not modelled. `ChatPromptTemplate` objects are represented by the strings they format to.
- `RagServices.NewRagService`: the library constructors it calls are taken not to raise. These are `GoogleGenerativeAIEmbeddings(...)`, `Chroma(persist_directory=...)` and `ChatGoogleGenerativeAI(...)`. So "fails exactly when the key is unset or empty" holds only under that assumption. The store it opens is not modelled. The retriever is an opaque function, not tied to the ingested store.
- `AiServices.NewAiService`: `ChatGoogleGenerativeAI(...)` is taken not to raise. So "fails exactly when the key is unset or empty" holds only under that assumption.
- `RagServices.ChainPrompt` / `AnswerUserQuery`: Python's rendering of the input mapping into a template slot is an opaque function (`Renderer`). Template formatting and output parsing are treated as unable to fail on their own. A model or parser failure is part of the `Generator` result.
- `Ingest.FromDocumentsSpec`: the chunks are modelled as one batch, embedded once and then added. An embedding failure therefore leaves an empty store. The vector store library may add chunks in several batches and embed each one. A failure in a later batch would then leave the earlier batches stored. That case is not modelled.
- `Ingest.VectorStore.RemoveTree`: `rmtree` is taken to succeed when the directory exists. Its own I/O errors are not modelled.
- Constructing `GoogleGenerativeAIEmbeddings` in the script is taken not to fail. Only its configuration (model, key) is kept.
- `DirectoryLoader` details are not modelled: skipping hidden files, skipping directory entries, and the filesystem order of glob results. The knowledge base is given as a list of regular files in the order they are loaded. A missing knowledge-base directory is not modelled: the loader may raise for it before the early return for an empty load is reached. Either way the store is left alone.
- `load_dotenv`, print logging and filesystem paths are left out. The environment is given as a mapping. The API's store path `vector_db` is kept as a constant. The script's `../knowledge_base` and `../vector_db` are not modelled: the knowledge base is given as a list of files, and the store as one object. Whether the two paths name the same directory depends on the working directory, which is not modelled.
- `api/index.py` (FastAPI routes, error mapping, CORS, static files, server start-up) is not part of this model.
- Pydantic coercion of non-string values, extra fields and error message texts are not modelled. Lengths count characters as Unicode scalar values.
- Concurrency and atomic index replacement: the code has none.
