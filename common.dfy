/**
 * What the two services and the ingestion script share: the process
 * environment, the `GOOGLE_API_KEY` check, LangChain documents, the model
 * configurations and the opaque collaborators (Google's chat model and
 * embedding model), each given as a function that returns a value or fails.
 */
module Common {
  import opened Wrappers

  /** The process environment after `.env` has been loaded. */
  type Env = map<string, string>

  const ApiKeyVariable := "GOOGLE_API_KEY"

  /** Chat model named by both services. */
  const ChatModel := "models/gemini-pro-latest"

  /** Embedding model named by the retrieval service and the ingestion script. */
  const EmbeddingModel := "models/embedding-001"

  /** The `ValueError` message both service constructors raise without a key. */
  const KeyNotSetMessage := "GOOGLE_API_KEY not set."

  /** The indentation of every line inside the services' triple-quoted templates. */
  const Indent := "        "

  /** Python's `os.getenv(name)`. */
  function Getenv(env: Env, name: string): (v: Option<string>)
    ensures v.Some? <==> name in env
    ensures v.Some? ==> v.value == env[name]
  {
    if name in env then Some(env[name]) else None
  }

  /** Python truthiness of an optional string: `None` and `""` are false. */
  predicate Truthy(v: Option<string>)
    ensures !Truthy(v) <==> v == None || v == Some("")
  {
    v.Some? && v.value != ""
  }

  /** A LangChain `Document`: its text and its metadata. */
  datatype Document = Document(pageContent: string, metadata: map<string, string>)

  /** The `page_content` of each document, in order. */
  function PageContents(docs: seq<Document>): (texts: seq<string>)
    ensures |texts| == |docs|
    ensures forall i :: 0 <= i < |docs| ==> texts[i] == docs[i].pageContent
  {
    if docs == [] then [] else [docs[0].pageContent] + PageContents(docs[1..])
  }

  /** An exception raised by a library call; its kind and text are opaque. */
  datatype Failure = Failure(message: string)

  /** The exception a service constructor raises. */
  datatype InitError = ValueError(message: string)

  /** `ChatGoogleGenerativeAI(model=..., google_api_key=...)`; the temperature is not modelled. */
  datatype LlmConfig = LlmConfig(model: string, apiKey: string)

  /** `GoogleGenerativeAIEmbeddings(model=..., google_api_key=...)`. */
  datatype EmbeddingConfig = EmbeddingConfig(model: string, apiKey: string)

  /**
   * `(prompt | llm | StrOutputParser()).invoke(...)` once the prompt is
   * filled: the configured chat model turns the prompt into text, or raises.
   */
  type Generator = (LlmConfig, string) -> Result<string, Failure>
}
