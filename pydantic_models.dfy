/**
 * The request and response bodies of the two endpoints, with the field
 * constraints pydantic enforces: a required field must be present, and a
 * `min_length` bounds the number of characters from below. A field is given
 * as `Some(text)` when the body carries it and `None` when it does not.
 */
module PydanticModels {
  import opened Wrappers

  /** `AnalyzeRequest.document_text` has `min_length=100`. */
  const AnalyzeMinLength: nat := 100

  /** `ChatRequest.question` has `min_length=5`. */
  const QuestionMinLength: nat := 5

  datatype AnalyzeRequest = AnalyzeRequest(documentText: string)
  datatype ChatRequest = ChatRequest(documentText: string, question: string)

  /** Response bodies: one string each, with no constraint on it. */
  datatype AnalyzeResponse = AnalyzeResponse(analysisText: string)
  datatype ChatResponse = ChatResponse(answer: string)

  /** One field's validation error, named by the field's wire name. */
  datatype FieldError = Missing(field: string) | StringTooShort(field: string, minLength: nat)

  /** A validated model, or every field error found, in field declaration order. */
  datatype Validated<T> = Valid(value: T) | Invalid(errors: seq<FieldError>)

  /** The errors for one required string field with a lower length bound (`0` when none). */
  function CheckField(name: string, value: Option<string>, minLength: nat): (errors: seq<FieldError>)
    ensures errors == [] <==> value.Some? && |value.value| >= minLength
    ensures value.None? ==> errors == [Missing(name)]
    ensures value.Some? && |value.value| < minLength ==> errors == [StringTooShort(name, minLength)]
  {
    match value
    case None => [Missing(name)]
    case Some(s) => if |s| < minLength then [StringTooShort(name, minLength)] else []
  }

  /** `AnalyzeRequest(**body)`: valid exactly when the text is present with at least 100 characters. */
  function ValidateAnalyzeRequest(documentText: Option<string>): (r: Validated<AnalyzeRequest>)
    ensures r.Valid? <==> documentText.Some? && |documentText.value| >= 100
    ensures r.Valid? ==> r.value.documentText == documentText.value
    ensures documentText.None? ==> r == Invalid([Missing("document_text")])
    ensures documentText.Some? && |documentText.value| < 100 ==>
      r == Invalid([StringTooShort("document_text", 100)])
  {
    var errors := CheckField("document_text", documentText, AnalyzeMinLength);
    if errors == [] then Valid(AnalyzeRequest(documentText.value)) else Invalid(errors)
  }

  /**
   * `ChatRequest(**body)`: both fields are required, only the question is
   * bounded (at least 5 characters); an empty document text is accepted.
   * Every failing field is reported, document text first.
   */
  function ValidateChatRequest(documentText: Option<string>, question: Option<string>)
    : (r: Validated<ChatRequest>)
    ensures r.Valid? <==> documentText.Some? && question.Some? && |question.value| >= 5
    ensures r.Valid? ==> r.value == ChatRequest(documentText.value, question.value)
    ensures r.Invalid? ==>
      r.errors == (if documentText.None? then [Missing("document_text")] else [])
        + (if question.None? then [Missing("question")]
           else if |question.value| < 5 then [StringTooShort("question", 5)] else [])
  {
    var errors := CheckField("document_text", documentText, 0) + CheckField("question", question, QuestionMinLength);
    if errors == [] then Valid(ChatRequest(documentText.value, question.value)) else Invalid(errors)
  }

  /** The request models' own constraints, stated on a model value. */
  predicate AnalyzeRequestOk(req: AnalyzeRequest)
  {
    |req.documentText| >= AnalyzeMinLength
  }

  predicate ChatRequestOk(req: ChatRequest)
  {
    |req.question| >= QuestionMinLength
  }

  /** A body built from a model is accepted back exactly when the model meets its constraints. */
  lemma AnalyzeRequestRoundTrip(req: AnalyzeRequest)
    ensures ValidateAnalyzeRequest(Some(req.documentText)) == Valid(req) <==> AnalyzeRequestOk(req)
  {
  }

  lemma ChatRequestRoundTrip(req: ChatRequest)
    ensures ValidateChatRequest(Some(req.documentText), Some(req.question)) == Valid(req)
      <==> ChatRequestOk(req)
  {
  }

  /** `AnalyzeResponse(analysis_text=...)` accepts every string. */
  function MakeAnalyzeResponse(analysisText: string): (r: Validated<AnalyzeResponse>)
    ensures r.Valid? && r.value.analysisText == analysisText
  {
    Valid(AnalyzeResponse(analysisText))
  }

  /** `ChatResponse(answer=...)` accepts every string. */
  function MakeChatResponse(answer: string): (r: Validated<ChatResponse>)
    ensures r.Valid? && r.value.answer == answer
  {
    Valid(ChatResponse(answer))
  }
}
