/** The request and response records of the backend API
    (packages/backend/app/models/api.py), their field defaults, and the
    keyword-argument validation pydantic performs when the response parser
    builds a `CheckIssue` or a `PolishChange`. */
module ApiModels {
  import opened Wrappers
  import opened Json

  /** The optional `language` every request inherits from `TextRequest`. */
  const DefaultLanguage := "auto"

  datatype CheckRequest = CheckRequest(
    text: string,
    language: Option<string>,
    enableGrammar: bool,
    enableStyle: bool,
    enableTerminology: bool,
    enableConsistency: bool,
    strictMode: bool)

  datatype PolishRequest = PolishRequest(
    text: string,
    language: Option<string>,
    targetAudience: Option<string>,
    focusOn: Option<string>)

  datatype TranslateRequest = TranslateRequest(
    text: string,
    language: Option<string>,
    targetLanguage: string,
    preserveTerminology: bool)

  /** `conversation_history` is a list of free-form dicts. */
  datatype RewriteRequest = RewriteRequest(
    text: string,
    language: Option<string>,
    instruction: string,
    conversationHistory: seq<map<string, Json>>)

  /** A check request that sets only the required `text`. */
  function NewCheckRequest(text: string): (r: CheckRequest)
    ensures r.text == text && r.language == Some(DefaultLanguage)
    ensures r.enableGrammar && r.enableStyle && r.enableTerminology && r.enableConsistency
    ensures !r.strictMode
  {
    CheckRequest(text, Some(DefaultLanguage), true, true, true, true, false)
  }

  /** A polish request that sets only the required `text`. */
  function NewPolishRequest(text: string): (r: PolishRequest)
    ensures r.text == text && r.language == Some(DefaultLanguage)
    ensures r.targetAudience.None? && r.focusOn.None?
  {
    PolishRequest(text, Some(DefaultLanguage), None, None)
  }

  /** A translate request that sets only the required `text` and `target_language`. */
  function NewTranslateRequest(text: string, targetLanguage: string): (r: TranslateRequest)
    ensures r.text == text && r.targetLanguage == targetLanguage
    ensures r.language == Some(DefaultLanguage) && r.preserveTerminology
  {
    TranslateRequest(text, Some(DefaultLanguage), targetLanguage, true)
  }

  /** A rewrite request that sets only the required `text` and `instruction`. */
  function NewRewriteRequest(text: string, instruction: string): (r: RewriteRequest)
    ensures r.text == text && r.instruction == instruction
    ensures r.language == Some(DefaultLanguage) && r.conversationHistory == []
  {
    RewriteRequest(text, Some(DefaultLanguage), instruction, [])
  }

  /** The segment kinds the backend produces; the record's `type` field is a
      free string documented as one of these three. */
  const EqualKind := "equal"
  const InsertKind := "insert"
  const DeleteKind := "delete"

  datatype DiffSegment = DiffSegment(kind: string, value: string)

  /** `range` is `[start, end]`. */
  datatype CheckIssue = CheckIssue(
    message: string,
    suggestion: string,
    range: seq<int>,
    severity: string,
    category: string)

  datatype CheckResponse = CheckResponse(
    diffs: seq<DiffSegment>,
    issues: seq<CheckIssue>,
    correctedText: Option<string>)

  datatype PolishChange = PolishChange(
    kind: string,
    description: string,
    originalText: string,
    polishedText: string,
    reason: string)

  datatype PolishResponse = PolishResponse(
    diffs: seq<DiffSegment>,
    polishedText: string,
    changes: Option<seq<PolishChange>>)

  datatype TranslateResponse = TranslateResponse(
    diffs: seq<DiffSegment>,
    translatedText: string,
    sourceLanguage: string,
    targetLanguage: string)

  datatype RewriteResponse = RewriteResponse(
    diffs: seq<DiffSegment>,
    rewrittenText: string,
    conversationId: string)

  /** A check response built without `corrected_text`. */
  function NewCheckResponse(diffs: seq<DiffSegment>, issues: seq<CheckIssue>): (r: CheckResponse)
    ensures r.diffs == diffs && r.issues == issues && r.correctedText.None?
  {
    CheckResponse(diffs, issues, None)
  }

  /** A polish response built without `changes`. */
  function NewPolishResponse(diffs: seq<DiffSegment>, polishedText: string): (r: PolishResponse)
    ensures r.diffs == diffs && r.polishedText == polishedText && r.changes == Some([])
  {
    PolishResponse(diffs, polishedText, Some([]))
  }

  /** `CheckIssue(**kw)`: `message`, `suggestion` and `range` are required,
      `severity` defaults to "warning" and `category` to "general"; `None`
      when pydantic raises a validation error. Unknown keywords are ignored. */
  function CheckIssueFrom(kw: map<string, Json>): (r: Option<CheckIssue>)
    ensures r.Some? <==>
      && StrField(kw, "message", None).Some?
      && StrField(kw, "suggestion", None).Some?
      && "range" in kw && AsIntList(kw["range"]).Some?
      && StrField(kw, "severity", Some("warning")).Some?
      && StrField(kw, "category", Some("general")).Some?
    ensures r.Some? ==> "message" in kw && "suggestion" in kw && "range" in kw
    ensures r.Some? ==> r.value == CheckIssue(kw["message"].s, kw["suggestion"].s, AsIntList(kw["range"]).value,
      StrField(kw, "severity", Some("warning")).value, StrField(kw, "category", Some("general")).value)
    ensures r.Some? && "severity" !in kw ==> r.value.severity == "warning"
    ensures r.Some? && "category" !in kw ==> r.value.category == "general"
  {
    var message := StrField(kw, "message", None);
    var suggestion := StrField(kw, "suggestion", None);
    var range := if "range" in kw then AsIntList(kw["range"]) else None;
    var severity := StrField(kw, "severity", Some("warning"));
    var category := StrField(kw, "category", Some("general"));
    if message.Some? && suggestion.Some? && range.Some? && severity.Some? && category.Some? then
      Some(CheckIssue(message.value, suggestion.value, range.value, severity.value, category.value))
    else
      None
  }

  /** The five fields of `PolishChange`, all required strings. */
  const PolishChangeFields := ["type", "description", "original_text", "polished_text", "reason"]

  /** `PolishChange(**kw)`; `None` when pydantic raises a validation error.
      Unknown keywords are ignored. */
  function PolishChangeFrom(kw: map<string, Json>): (r: Option<PolishChange>)
    ensures r.Some? <==> forall f :: f in PolishChangeFields ==> f in kw && kw[f].JStr?
    ensures r.Some? ==> r.value == PolishChange(kw["type"].s, kw["description"].s,
      kw["original_text"].s, kw["polished_text"].s, kw["reason"].s)
  {
    var kind := StrField(kw, "type", None);
    var description := StrField(kw, "description", None);
    var original := StrField(kw, "original_text", None);
    var polished := StrField(kw, "polished_text", None);
    var reason := StrField(kw, "reason", None);
    if kind.Some? && description.Some? && original.Some? && polished.Some? && reason.Some? then
      Some(PolishChange(kind.value, description.value, original.value, polished.value, reason.value))
    else
      None
  }
}
