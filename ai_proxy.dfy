/** The request-independent logic of `AIProxyService`
    (packages/backend/app/services/ai_proxy.py): the list of enabled check
    categories, the chat message list sent to the model, and the four
    `_parse_*_response` functions with their layered fallbacks.

    The JSON extractor and difflib are not modelled: each parser receives
    the extractor's result as a `Json` value and the opcode producer as a
    `Matcher`. Inside each parser, every way Python can raise (a `.get` on
    something that is not a dict, iterating what is not iterable, a
    pydantic validation error) ends in the same catch-all response. */
module AiProxy {
  import opened Wrappers
  import opened Text
  import opened Json
  import opened ApiModels
  import opened Diff
  import CheckPrompts
  import PolishPrompts
  import TranslatePrompts
  import RewritePrompts

  // ---------------------------------------------------------------------
  // Check categories

  const GrammarLabel := "语法错误"
  const StyleLabel := "写作风格"
  const TerminologyLabel := "术语使用"
  const ConsistencyLabel := "内容一致性"

  /** The position of a label in the fixed order grammar, style,
      terminology, consistency; 4 for anything else. */
  function LabelRank(category: string): (k: nat)
    ensures k <= 4
  {
    if category == GrammarLabel then 0
    else if category == StyleLabel then 1
    else if category == TerminologyLabel then 2
    else if category == ConsistencyLabel then 3
    else 4
  }

  /** The `check_types` list `check_text` builds from the request's flags. */
  method CheckTypes(request: CheckRequest) returns (types: seq<string>)
    ensures GrammarLabel in types <==> request.enableGrammar
    ensures StyleLabel in types <==> request.enableStyle
    ensures TerminologyLabel in types <==> request.enableTerminology
    ensures ConsistencyLabel in types <==> request.enableConsistency
    ensures forall i :: 0 <= i < |types| ==> LabelRank(types[i]) < 4
    ensures forall i, j :: 0 <= i < j < |types| ==> LabelRank(types[i]) < LabelRank(types[j])
  {
    types := [];
    if request.enableGrammar {
      types := types + [GrammarLabel];
    }
    if request.enableStyle {
      types := types + [StyleLabel];
    }
    if request.enableTerminology {
      types := types + [TerminologyLabel];
    }
    if request.enableConsistency {
      types := types + [ConsistencyLabel];
    }
  }

  // ---------------------------------------------------------------------
  // The prompt each operation sends

  /** The prompt of `check_text`: the document, the strictness word and the
      label of every enabled check reach the model. */
  method CheckPromptFor(request: CheckRequest) returns (prompt: string)
    ensures IsInfix(request.text, prompt)
    ensures IsInfix(CheckPrompts.Strictness(request.strictMode), prompt)
    ensures request.enableGrammar ==> IsInfix(GrammarLabel, prompt)
    ensures request.enableStyle ==> IsInfix(StyleLabel, prompt)
    ensures request.enableTerminology ==> IsInfix(TerminologyLabel, prompt)
    ensures request.enableConsistency ==> IsInfix(ConsistencyLabel, prompt)
  {
    var types := CheckTypes(request);
    prompt := CheckPrompts.BuildCheckPrompt(request.text, types, request.strictMode);
  }

  /** The prompt of `polish_text`: always the "all" focus and the
      "technical" audience, whatever the request asks for. */
  function PolishPromptFor(request: PolishRequest): (prompt: string)
    ensures IsInfix(request.text, prompt)
    ensures IsInfix(PolishPrompts.FocusDescriptions["all"], prompt)
    ensures IsInfix(PolishPrompts.AudienceDescriptions["technical"], prompt)
  {
    PolishPrompts.BuildPolishPrompt(request.text, "all", "technical")
  }

  /** `target_audience` and `focus_on` never reach the polish prompt: two
      requests with the same text get the same prompt. */
  lemma PolishIgnoresOptions(request1: PolishRequest, request2: PolishRequest)
    requires request1.text == request2.text
    ensures PolishPromptFor(request1) == PolishPromptFor(request2)
  {
  }

  /** The prompt of `translate_text`: the source is the request's language
      or "auto", the target is the requested one, there is no context, and
      the text and both codes reach the model. */
  function TranslatePromptFor(request: TranslateRequest): (prompt: string)
    ensures IsInfix(request.text, prompt)
    ensures IsInfix(SourceLanguage(request.language), prompt)
    ensures IsInfix(request.targetLanguage, prompt)
    ensures IsInfix(TranslatePrompts.TerminologyNote(request.preserveTerminology), prompt)
  {
    TranslatePrompts.BuildTranslatePrompt(request.text, SourceLanguage(request.language), request.targetLanguage,
                                          request.preserveTerminology, "")
  }

  /** The prompt of `rewrite_text`: the text and the instruction, always
      with the note asking to preserve terminology. */
  function RewritePromptFor(request: RewriteRequest): (prompt: string)
    ensures IsInfix(request.text, prompt)
    ensures IsInfix(request.instruction, prompt)
    ensures IsInfix(RewritePrompts.PreserveTermsNote, prompt)
  {
    RewritePrompts.BuildRewritePrompt(request.text, request.instruction, true)
  }

  // ---------------------------------------------------------------------
  // Chat messages

  /** One entry of the `messages` list; history entries may carry any JSON
      value as role or content. */
  datatype ChatMessage = ChatMessage(role: Json, content: Json)

  /** The history `_call_ai_service` replays: nothing when it is `None`. */
  function HistoryOf(history: Option<seq<map<string, Json>>>): seq<map<string, Json>>
  {
    if history.Some? then history.value else []
  }

  /** The message list `_call_ai_service` sends: every history entry in
      order, with role defaulting to "user" and content to "", then the
      prompt as one final user message. */
  method BuildMessages(prompt: string, history: Option<seq<map<string, Json>>>)
    returns (messages: seq<ChatMessage>)
    ensures |messages| == |HistoryOf(history)| + 1
    ensures forall i :: 0 <= i < |HistoryOf(history)| ==>
      messages[i] == ChatMessage(Get(HistoryOf(history)[i], "role", JStr("user")),
                                 Get(HistoryOf(history)[i], "content", JStr("")))
    ensures messages[|messages| - 1] == ChatMessage(JStr("user"), JStr(prompt))
  {
    var h := HistoryOf(history);
    messages := [];
    if h != [] {
      for n := 0 to |h|
        invariant |messages| == n
        invariant forall i :: 0 <= i < n ==>
          messages[i] == ChatMessage(Get(h[i], "role", JStr("user")), Get(h[i], "content", JStr("")))
      {
        var msg := h[n];
        messages := messages + [ChatMessage(Get(msg, "role", JStr("user")), Get(msg, "content", JStr("")))];
      }
    }
    messages := messages + [ChatMessage(JStr("user"), JStr(prompt))];
  }

  // ---------------------------------------------------------------------
  // Helpers shared by the parsers

  /** The map `_extract_json_from_response` returns when no JSON can be
      found in the reply. */
  function ExtractFailure(response: string): (r: Json)
    ensures Contains(r, "error") == Some(true)
    ensures r.JObj? && "raw_response" in r.fields && r.fields["raw_response"] == JStr(response)
  {
    JObj(map["error" := JStr("Failed to parse JSON response"), "raw_response" := JStr(response)])
  }

  /** `request.language or "auto"`. */
  function SourceLanguage(language: Option<string>): (r: string)
    ensures language.Some? && language.value != "" ==> r == language.value
    ensures language.None? || language == Some("") ==> r == DefaultLanguage
    ensures r != ""
  {
    if language.Some? && language.value != "" then language.value else DefaultLanguage
  }

  /** The single segment every catch-all response carries. */
  function Unchanged(text: string): (r: seq<DiffSegment>)
    ensures |r| == 1 && r[0].kind == EqualKind && r[0].value == text
    ensures OldText(r) == text && NewText(r) == text
  {
    TextsOfSingle(DiffSegment(EqualKind, text));
    [DiffSegment(EqualKind, text)]
  }

  /** The diff of a parser's successful branch, with the reconstruction
      guarantee of a sound matcher. */
  function DiffWith(matcher: Matcher, original: string, modified: string): (r: seq<DiffSegment>)
    ensures SoundMatcher(matcher) ==> OldText(r) == original && NewText(r) == modified
    ensures matcher(original, modified).None? ==>
      r == [DiffSegment(DeleteKind, original), DiffSegment(InsertKind, modified)]
  {
    DiffOf(original, modified, matcher(original, modified))
  }

  // ---------------------------------------------------------------------
  // _parse_check_response

  const CheckErrorMessage := "AI服务响应格式异常，无法解析检查结果"
  const RetrySuggestion := "请重试或联系管理员检查AI服务配置"

  /** The keyword arguments of the issue the error branch builds. */
  function ErrorIssueArgs(original: string): map<string, Json>
  {
    map["message" := JStr(CheckErrorMessage), "suggestion" := JStr(RetrySuggestion),
        "range" := JArr([JNum(0.0), JNum(|original| as real)]),
        "severity" := JStr("warning"), "category" := JStr("system")]
  }

  /** The keyword arguments the success branch passes to `CheckIssue` for
      one entry of `issues`: the entry's values, or "" / "" / 0 /
      len(original) / "info" / "general" where it lacks a key; the
      category is read from the entry's "type". */
  function IssueArgs(item: map<string, Json>, original: string): map<string, Json>
  {
    map["message" := Get(item, "message", JStr("")),
        "suggestion" := Get(item, "suggestion", JStr("")),
        "range" := JArr([Get(item, "start", JNum(0.0)), Get(item, "end", JNum(|original| as real))]),
        "severity" := Get(item, "severity", JStr("info")),
        "category" := Get(item, "type", JStr("general"))]
  }

  /** One iteration of the issue loop: `None` when `CheckIssue` rejects it. */
  function ParseIssue(original: string, item: map<string, Json>): (r: Option<CheckIssue>)
    ensures r.Some? <==>
      && Get(item, "message", JStr("")).JStr?
      && Get(item, "suggestion", JStr("")).JStr?
      && AsInt(Get(item, "start", JNum(0.0))).Some?
      && AsInt(Get(item, "end", JNum(|original| as real))).Some?
      && Get(item, "severity", JStr("info")).JStr?
      && Get(item, "type", JStr("general")).JStr?
    ensures r.Some? ==> r.value == CheckIssue(
      Get(item, "message", JStr("")).s,
      Get(item, "suggestion", JStr("")).s,
      [AsInt(Get(item, "start", JNum(0.0))).value, AsInt(Get(item, "end", JNum(|original| as real))).value],
      Get(item, "severity", JStr("info")).s,
      Get(item, "type", JStr("general")).s)
    ensures r.Some? && "message" !in item ==> r.value.message == ""
    ensures r.Some? && "suggestion" !in item ==> r.value.suggestion == ""
    ensures r.Some? && "start" !in item ==> r.value.range[0] == 0
    ensures r.Some? && "end" !in item ==> r.value.range[1] == |original|
    ensures r.Some? && "severity" !in item ==> r.value.severity == "info"
    ensures r.Some? && "type" !in item ==> r.value.category == "general"
  {
    var args := IssueArgs(item, original);
    var start, end := Get(item, "start", JNum(0.0)), Get(item, "end", JNum(|original| as real));
    IssueArgsFields(item, original);
    IntPair(start, end);
    WholeNumber(0);
    WholeNumber(|original|);
    CheckIssueFrom(args)
  }

  /** What `CheckIssue(**args)` receives for each of its fields. */
  lemma IssueArgsFields(item: map<string, Json>, original: string)
    ensures var args := IssueArgs(item, original);
      && StrField(args, "message", None) == AsStr(Get(item, "message", JStr("")))
      && StrField(args, "suggestion", None) == AsStr(Get(item, "suggestion", JStr("")))
      && "range" in args
      && args["range"] == JArr([Get(item, "start", JNum(0.0)), Get(item, "end", JNum(|original| as real))])
      && StrField(args, "severity", Some("warning")) == AsStr(Get(item, "severity", JStr("info")))
      && StrField(args, "category", Some("general")) == AsStr(Get(item, "type", JStr("general")))
  {
  }

  /** A whole number written as a JSON number validates as itself. */
  lemma WholeNumber(n: int)
    ensures AsInt(JNum(n as real)) == Some(n)
  {
  }

  /** The `[start, end]` list validates as `List[int]` exactly when both ends do. */
  lemma IntPair(start: Json, end: Json)
    ensures AsIntList(JArr([start, end])).Some? <==> AsInt(start).Some? && AsInt(end).Some?
    ensures AsIntList(JArr([start, end])).Some? ==> AsIntList(JArr([start, end])).value == [AsInt(start).value, AsInt(end).value]
  {
    var e := [start, end];
    if AsInt(start).Some? && AsInt(end).Some? {
      assert forall k :: 0 <= k < |e| ==> AsInt(e[k]).Some?;
    }
    if AsIntList(JArr(e)).Some? {
      assert AsInt(e[0]).Some? && AsInt(e[1]).Some?;
    }
  }

  /** What `_parse_check_response` returns when it raises. */
  function CheckFallback(original: string): (r: CheckResponse)
    ensures r.issues == [] && r.correctedText == Some(original)
    ensures r.diffs == [DiffSegment(EqualKind, original)]
    ensures OldText(r.diffs) == original && NewText(r.diffs) == original
  {
    CheckResponse(Unchanged(original), [], Some(original))
  }

  /** The issue loop of the success branch over the reply's "issues"
      (absent: the empty list): `None` when it raises, because "issues" does
      not iterate as dicts or one entry fails to validate; otherwise one
      issue per entry, in order. */
  function IssuesOf(fields: map<string, Json>, original: string): (r: Option<seq<CheckIssue>>)
    ensures Dicts(Get(fields, "issues", JArr([]))).None? ==> r.None?
    ensures Dicts(Get(fields, "issues", JArr([]))).Some? ==>
      var items := Dicts(Get(fields, "issues", JArr([]))).value;
      && (r.Some? <==> forall k :: 0 <= k < |items| ==> ParseIssue(original, items[k]).Some?)
      && (r.Some? ==> |r.value| == |items|)
      && (r.Some? ==> forall k :: 0 <= k < |items| ==> ParseIssue(original, items[k]) == Some(r.value[k]))
  {
    var items := Dicts(Get(fields, "issues", JArr([])));
    if items.None? then None else Traverse(items.value, item => ParseIssue(original, item))
  }

  /** `_parse_check_response`, given the extractor's result for the reply.
      On the success branch the response holds the reply's corrected text
      (the original when absent) and its issues, unless either fails, in
      which case the catch-all answers. */
  function CheckResponseOf(data: Json, original: string, matcher: Matcher): (r: CheckResponse)
    ensures r.correctedText.Some?
    ensures SoundMatcher(matcher) ==>
      OldText(r.diffs) == original && NewText(r.diffs) == r.correctedText.value
    ensures Contains(data, "error") == Some(true) ==> r.correctedText == Some(original)
    ensures Contains(data, "error").None? ==> r == CheckFallback(original)
    ensures Contains(data, "error") == Some(false) && !data.JObj? ==> r == CheckFallback(original)
    ensures Contains(data, "error") == Some(false) && data.JObj? ==>
      var corrected := Get(data.fields, "correctedText", JStr(original));
      var issues := IssuesOf(data.fields, original);
      if corrected.JStr? && issues.Some? then
        && r.correctedText == Some(corrected.s) && r.issues == issues.value
        && r.diffs == DiffWith(matcher, original, corrected.s)
      else
        r == CheckFallback(original)
  {
    match Contains(data, "error")
    case None =>
      CheckFallback(original)
    case Some(true) =>
      (match CheckIssueFrom(ErrorIssueArgs(original))
       case None => CheckFallback(original)
       case Some(issue) => CheckResponse(DiffWith(matcher, original, original), [issue], Some(original)))
    case Some(false) =>
      if !data.JObj? then CheckFallback(original)
      else
        var corrected := Get(data.fields, "correctedText", JStr(original));
        var issues := IssuesOf(data.fields, original);
        if issues.None? || !corrected.JStr? then CheckFallback(original)
        else CheckResponse(DiffWith(matcher, original, corrected.s), issues.value, Some(corrected.s))
  }

  /** The loop of `_parse_check_response` that turns every item of
      `issues` into a `CheckIssue`; one that fails to validate ends it. */
  method ParseIssues(items: seq<map<string, Json>>, originalText: string) returns (issues: Option<seq<CheckIssue>>)
    ensures issues == Traverse(items, item => ParseIssue(originalText, item))
  {
    var f := item => ParseIssue(originalText, item);
    var parsed := [];
    for n := 0 to |items|
      invariant Traverse(items[..n], f) == Some(parsed)
    {
      var issue := ParseIssue(originalText, items[n]);
      if issue.None? {
        assert f(items[n]).None?;
        return None;
      }
      assert items[..n + 1][..n] == items[..n];
      parsed := parsed + [issue.value];
    }
    assert items[..|items|] == items;
    return Some(parsed);
  }

  /** `_parse_check_response(ai_response, original_text)`, where `data` is
      what the JSON extractor made of `ai_response`. */
  method ParseCheckResponse(data: Json, originalText: string, matcher: Matcher)
    returns (r: CheckResponse)
    ensures r == CheckResponseOf(data, originalText, matcher)
  {
    var hasError := Contains(data, "error");
    if hasError.None? {
      return CheckFallback(originalText);
    }
    var correctedText: Json;
    var issues: seq<CheckIssue>;
    if hasError.value {
      correctedText := JStr(originalText);
      var issue := CheckIssueFrom(ErrorIssueArgs(originalText));
      if issue.None? {
        return CheckFallback(originalText);
      }
      issues := [issue.value];
    } else {
      if !data.JObj? {
        return CheckFallback(originalText);
      }
      correctedText := Get(data.fields, "correctedText", JStr(originalText));
      var items := Dicts(Get(data.fields, "issues", JArr([])));
      if items.None? {
        return CheckFallback(originalText);
      }
      var parsed := ParseIssues(items.value, originalText);
      if parsed.None? {
        return CheckFallback(originalText);
      }
      issues := parsed.value;
    }
    if !correctedText.JStr? {
      return CheckFallback(originalText);
    }
    var diffs := CalculateDiff(originalText, correctedText.s, matcher(originalText, correctedText.s));
    r := CheckResponse(diffs, issues, Some(correctedText.s));
  }

  /** The error branch: one warning issue of category "system" spanning the
      whole original, and the original returned as the corrected text. */
  lemma CheckErrorBranch(data: Json, original: string, matcher: Matcher)
    requires Contains(data, "error") == Some(true)
    ensures CheckResponseOf(data, original, matcher) == CheckResponse(
      DiffWith(matcher, original, original),
      [CheckIssue(CheckErrorMessage, RetrySuggestion, [0, |original|], "warning", "system")],
      Some(original))
  {
    var args := ErrorIssueArgs(original);
    var e := args["range"].elems;
    assert AsInt(e[0]) == Some(0) && AsInt(e[1]) == Some(|original|);
    assert forall k :: 0 <= k < |e| ==> AsInt(e[k]).Some?;
    var range := AsIntList(args["range"]);
    assert range.Some? && |range.value| == 2;
    assert range.value == [0, |original|];
    assert CheckIssueFrom(args) ==
      Some(CheckIssue(CheckErrorMessage, RetrySuggestion, [0, |original|], "warning", "system"));
  }

  /** The reply the extractor could not read always takes the error branch. */
  lemma CheckUnreadableReply(response: string, original: string, matcher: Matcher)
    ensures CheckResponseOf(ExtractFailure(response), original, matcher).issues ==
      [CheckIssue(CheckErrorMessage, RetrySuggestion, [0, |original|], "warning", "system")]
  {
    CheckErrorBranch(ExtractFailure(response), original, matcher);
  }

  /** The success branch: one issue per entry of "issues", in order, and
      the corrected text defaults to the original. */
  lemma CheckSuccessBranch(data: Json, original: string, matcher: Matcher, items: seq<map<string, Json>>)
    requires data.JObj? && "error" !in data.fields
    requires Dicts(Get(data.fields, "issues", JArr([]))) == Some(items)
    requires forall k :: 0 <= k < |items| ==> ParseIssue(original, items[k]).Some?
    requires Get(data.fields, "correctedText", JStr(original)).JStr?
    ensures |CheckResponseOf(data, original, matcher).issues| == |items|
    ensures forall k :: 0 <= k < |items| ==>
      ParseIssue(original, items[k]) == Some(CheckResponseOf(data, original, matcher).issues[k])
    ensures "correctedText" in data.fields ==>
      CheckResponseOf(data, original, matcher).correctedText == Some(data.fields["correctedText"].s)
    ensures "correctedText" !in data.fields ==>
      CheckResponseOf(data, original, matcher).correctedText == Some(original)
    ensures "issues" !in data.fields ==> CheckResponseOf(data, original, matcher).issues == []
  {
  }

  /** A corrected text that is not a string fails validation of the
      response and ends in the catch-all. */
  lemma CheckBadCorrectedText(data: Json, original: string, matcher: Matcher)
    requires data.JObj? && "error" !in data.fields
    requires "correctedText" in data.fields && !data.fields["correctedText"].JStr?
    ensures CheckResponseOf(data, original, matcher) == CheckFallback(original)
  {
  }

  /** An "issues" value the loop cannot iterate as dicts (a number, null, a
      non-empty string or object, a list holding a non-object) ends in the
      catch-all. */
  lemma CheckIssuesNotIterable(data: Json, original: string, matcher: Matcher)
    requires data.JObj? && "error" !in data.fields
    requires Dicts(Get(data.fields, "issues", JArr([]))).None?
    ensures CheckResponseOf(data, original, matcher) == CheckFallback(original)
  {
  }

  /** An entry the issue loop cannot turn into a `CheckIssue` sends the
      whole response to the catch-all. */
  lemma CheckBadIssue(data: Json, original: string, matcher: Matcher, items: seq<map<string, Json>>, k: nat)
    requires data.JObj? && "error" !in data.fields
    requires Dicts(Get(data.fields, "issues", JArr([]))) == Some(items)
    requires k < |items| && ParseIssue(original, items[k]).None?
    ensures CheckResponseOf(data, original, matcher) == CheckFallback(original)
  {
  }

  // ---------------------------------------------------------------------
  // _parse_polish_response

  const PolishErrorDescription := "AI服务响应格式异常，无法解析润色结果"

  /** The keyword arguments the error branch passes to `PolishChange`. They
      name `originalText`, `polishedText`, `start`, `end` and `confidence`,
      none of which is a field of the record. */
  function ErrorChangeArgs(original: string): map<string, Json>
  {
    map["type" := JStr("system"), "description" := JStr(PolishErrorDescription),
        "reason" := JStr(RetrySuggestion), "start" := JNum(0.0), "end" := JNum(|original| as real),
        "originalText" := JStr(original), "polishedText" := JStr(original), "confidence" := JNum(0.0)]
  }

  /** The error branch's `PolishChange(...)` always fails validation: the
      required `original_text` and `polished_text` are never supplied. */
  lemma ErrorChangeRejected(original: string)
    ensures PolishChangeFrom(ErrorChangeArgs(original)).None?
  {
    assert "original_text" !in ErrorChangeArgs(original);
  }

  /** The keyword arguments the loop passes to `PolishChange` for one entry
      of "changes": type defaults to "polish", the rest to "", and the
      camel-case keys of the reply fill the snake-case fields. */
  function ChangeArgs(change: map<string, Json>): map<string, Json>
  {
    map["type" := Get(change, "type", JStr("polish")),
        "description" := Get(change, "description", JStr("")),
        "original_text" := Get(change, "originalText", JStr("")),
        "polished_text" := Get(change, "polishedText", JStr("")),
        "reason" := Get(change, "reason", JStr(""))]
  }

  /** One iteration of the change loop: `None` when `PolishChange` rejects it. */
  function ParseChange(change: map<string, Json>): (r: Option<PolishChange>)
    ensures r.Some? <==>
      && Get(change, "type", JStr("polish")).JStr?
      && Get(change, "description", JStr("")).JStr?
      && Get(change, "originalText", JStr("")).JStr?
      && Get(change, "polishedText", JStr("")).JStr?
      && Get(change, "reason", JStr("")).JStr?
    ensures r.Some? ==> r.value == PolishChange(
      Get(change, "type", JStr("polish")).s,
      Get(change, "description", JStr("")).s,
      Get(change, "originalText", JStr("")).s,
      Get(change, "polishedText", JStr("")).s,
      Get(change, "reason", JStr("")).s)
    ensures r.Some? && "type" !in change ==> r.value.kind == "polish"
  {
    var args := ChangeArgs(change);
    assert forall f :: f in PolishChangeFields ==> f in args;
    PolishChangeFrom(args)
  }

  /** What `_parse_polish_response` returns when it raises: the original
      text, one equal segment, and the default empty change list. */
  function PolishFallback(original: string): (r: PolishResponse)
    ensures r.polishedText == original && r.changes == Some([])
    ensures r.diffs == [DiffSegment(EqualKind, original)]
    ensures OldText(r.diffs) == original && NewText(r.diffs) == original
  {
    NewPolishResponse(Unchanged(original), original)
  }

  /** The change loop of the success branch over the reply's "changes"
      (absent: the empty list): `None` when it raises, because "changes"
      does not iterate as dicts or one entry fails to validate; otherwise
      one change per entry, in order. */
  function ChangesOf(fields: map<string, Json>): (r: Option<seq<PolishChange>>)
    ensures Dicts(Get(fields, "changes", JArr([]))).None? ==> r.None?
    ensures Dicts(Get(fields, "changes", JArr([]))).Some? ==>
      var items := Dicts(Get(fields, "changes", JArr([]))).value;
      && (r.Some? <==> forall k :: 0 <= k < |items| ==> ParseChange(items[k]).Some?)
      && (r.Some? ==> |r.value| == |items|)
      && (r.Some? ==> forall k :: 0 <= k < |items| ==> ParseChange(items[k]) == Some(r.value[k]))
  {
    var items := Dicts(Get(fields, "changes", JArr([])));
    if items.None? then None else Traverse(items.value, ParseChange)
  }

  /** `_parse_polish_response`, given the extractor's result for the reply.
      The error branch cannot build its `PolishChange` (`ErrorChangeRejected`),
      so it ends in the catch-all like every other failure. On the success
      branch the response holds the reply's polished text (the original
      when absent) and its changes, unless either fails. */
  function PolishResponseOf(data: Json, original: string, matcher: Matcher): (r: PolishResponse)
    ensures r.changes.Some?
    ensures SoundMatcher(matcher) ==>
      OldText(r.diffs) == original && NewText(r.diffs) == r.polishedText
    ensures Contains(data, "error") != Some(false) ==> r == PolishFallback(original)
    ensures !data.JObj? ==> r == PolishFallback(original)
    ensures Contains(data, "error") == Some(false) && data.JObj? ==>
      var polished := Get(data.fields, "polishedText", JStr(original));
      var changes := ChangesOf(data.fields);
      if polished.JStr? && changes.Some? then
        && r.polishedText == polished.s && r.changes == changes
        && r.diffs == DiffWith(matcher, original, polished.s)
      else
        r == PolishFallback(original)
  {
    match Contains(data, "error")
    case None =>
      PolishFallback(original)
    case Some(true) =>
      PolishFallback(original)
    case Some(false) =>
      if !data.JObj? then PolishFallback(original)
      else
        var polished := Get(data.fields, "polishedText", JStr(original));
        var changes := ChangesOf(data.fields);
        if !polished.JStr? || changes.None? then PolishFallback(original)
        else PolishResponse(DiffWith(matcher, original, polished.s), polished.s, changes)
  }

  /** The loop of `_parse_polish_response` that turns every item of
      `changes` into a `PolishChange`; one that fails to validate ends it. */
  method ParseChanges(items: seq<map<string, Json>>) returns (changes: Option<seq<PolishChange>>)
    ensures changes == Traverse(items, ParseChange)
  {
    var parsed := [];
    for n := 0 to |items|
      invariant Traverse(items[..n], ParseChange) == Some(parsed)
    {
      var change := ParseChange(items[n]);
      if change.None? {
        return None;
      }
      assert items[..n + 1][..n] == items[..n];
      parsed := parsed + [change.value];
    }
    assert items[..|items|] == items;
    return Some(parsed);
  }

  /** `_parse_polish_response(ai_response, original_text)`, where `data` is
      what the JSON extractor made of `ai_response`. */
  method ParsePolishResponse(data: Json, originalText: string, matcher: Matcher)
    returns (r: PolishResponse)
    ensures r == PolishResponseOf(data, originalText, matcher)
  {
    var hasError := Contains(data, "error");
    if hasError.None? {
      return PolishFallback(originalText);
    }
    if hasError.value {
      ErrorChangeRejected(originalText);
      return PolishFallback(originalText);
    }
    if !data.JObj? {
      return PolishFallback(originalText);
    }
    var polishedText := Get(data.fields, "polishedText", JStr(originalText));
    var changes := Get(data.fields, "changes", JArr([]));
    if !polishedText.JStr? {
      return PolishFallback(originalText);
    }
    var diffs := CalculateDiff(originalText, polishedText.s, matcher(originalText, polishedText.s));
    var items := Dicts(changes);
    if items.None? {
      return PolishFallback(originalText);
    }
    var polishChanges := ParseChanges(items.value);
    if polishChanges.None? {
      return PolishFallback(originalText);
    }
    r := PolishResponse(diffs, polishedText.s, polishChanges);
  }

  /** The reply the extractor could not read yields the catch-all response. */
  lemma PolishUnreadableReply(response: string, original: string, matcher: Matcher)
    ensures PolishResponseOf(ExtractFailure(response), original, matcher) == PolishFallback(original)
  {
  }

  /** The success branch keeps every change, in order, and the polished
      text defaults to the original. */
  lemma PolishSuccessBranch(data: Json, original: string, matcher: Matcher, items: seq<map<string, Json>>)
    requires data.JObj? && "error" !in data.fields
    requires Dicts(Get(data.fields, "changes", JArr([]))) == Some(items)
    requires forall k :: 0 <= k < |items| ==> ParseChange(items[k]).Some?
    requires Get(data.fields, "polishedText", JStr(original)).JStr?
    ensures |PolishResponseOf(data, original, matcher).changes.value| == |items|
    ensures forall k :: 0 <= k < |items| ==>
      ParseChange(items[k]) == Some(PolishResponseOf(data, original, matcher).changes.value[k])
    ensures "polishedText" in data.fields ==>
      PolishResponseOf(data, original, matcher).polishedText == data.fields["polishedText"].s
    ensures "polishedText" !in data.fields ==> PolishResponseOf(data, original, matcher).polishedText == original
  {
  }

  /** A polished text that is not a string ends in the catch-all. */
  lemma PolishBadText(data: Json, original: string, matcher: Matcher)
    requires data.JObj? && "error" !in data.fields
    requires "polishedText" in data.fields && !data.fields["polishedText"].JStr?
    ensures PolishResponseOf(data, original, matcher) == PolishFallback(original)
  {
  }

  /** A change the loop cannot turn into a `PolishChange` sends the whole
      response to the catch-all. */
  lemma PolishBadChange(data: Json, original: string, matcher: Matcher, items: seq<map<string, Json>>, k: nat)
    requires data.JObj? && "error" !in data.fields
    requires Dicts(Get(data.fields, "changes", JArr([]))) == Some(items)
    requires k < |items| && ParseChange(items[k]).None?
    ensures PolishResponseOf(data, original, matcher) == PolishFallback(original)
  {
  }

  /** A "changes" value the loop cannot iterate as dicts ends in the catch-all. */
  lemma PolishChangesNotIterable(data: Json, original: string, matcher: Matcher)
    requires data.JObj? && "error" !in data.fields
    requires Dicts(Get(data.fields, "changes", JArr([]))).None?
    ensures PolishResponseOf(data, original, matcher) == PolishFallback(original)
  {
  }

  // ---------------------------------------------------------------------
  // _parse_translate_response

  const TranslateUnavailable := "翻译服务暂时不可用，请稍后重试"

  /** What `_parse_translate_response` returns when it raises. */
  function TranslateFallback(request: TranslateRequest): (r: TranslateResponse)
    ensures r.translatedText == request.text
    ensures r.diffs == [DiffSegment(EqualKind, request.text)]
    ensures r.sourceLanguage == SourceLanguage(request.language) && r.targetLanguage == request.targetLanguage
    ensures OldText(r.diffs) == request.text && NewText(r.diffs) == request.text
  {
    TranslateResponse(Unchanged(request.text), request.text, SourceLanguage(request.language), request.targetLanguage)
  }

  /** The translated text of the non-raising branches, or `None` when the
      branch raises: the unavailable notice on the error branch, otherwise
      "translatedText" defaulting to the stripped reply. */
  function TranslatedTextOf(data: Json, aiResponse: string): (r: Option<string>)
    ensures Contains(data, "error") == Some(true) ==> r == Some(TranslateUnavailable)
    ensures Contains(data, "error") == Some(false) && data.JObj? && "translatedText" !in data.fields ==>
      r == Some(Strip(aiResponse))
    ensures Contains(data, "error") == Some(false) && data.JObj? && "translatedText" in data.fields ==>
      r == AsStr(data.fields["translatedText"])
    ensures r.Some? ==> Contains(data, "error") == Some(true) || data.JObj?
  {
    match Contains(data, "error")
    case None => None
    case Some(true) => Some(TranslateUnavailable)
    case Some(false) =>
      if !data.JObj? then None
      else AsStr(Get(data.fields, "translatedText", JStr(Strip(aiResponse))))
  }

  /** `_parse_translate_response`, given the extractor's result for the reply. */
  function TranslateResponseOf(data: Json, aiResponse: string, request: TranslateRequest, matcher: Matcher)
    : (r: TranslateResponse)
    ensures r.sourceLanguage == SourceLanguage(request.language) && r.targetLanguage == request.targetLanguage
    ensures SoundMatcher(matcher) ==>
      OldText(r.diffs) == request.text && NewText(r.diffs) == r.translatedText
    ensures TranslatedTextOf(data, aiResponse).None? ==> r == TranslateFallback(request)
    ensures TranslatedTextOf(data, aiResponse).Some? ==>
      && r.translatedText == TranslatedTextOf(data, aiResponse).value
      && r.diffs == DiffWith(matcher, request.text, TranslatedTextOf(data, aiResponse).value)
  {
    match TranslatedTextOf(data, aiResponse)
    case None => TranslateFallback(request)
    case Some(text) =>
      TranslateResponse(DiffWith(matcher, request.text, text), text,
                        SourceLanguage(request.language), request.targetLanguage)
  }

  /** `_parse_translate_response(ai_response, request)`, where `data` is
      what the JSON extractor made of `ai_response`. */
  method ParseTranslateResponse(data: Json, aiResponse: string, request: TranslateRequest, matcher: Matcher)
    returns (r: TranslateResponse)
    ensures r == TranslateResponseOf(data, aiResponse, request, matcher)
  {
    var hasError := Contains(data, "error");
    if hasError.None? {
      return TranslateFallback(request);
    }
    var translatedText: Json;
    if hasError.value {
      translatedText := JStr(TranslateUnavailable);
    } else {
      if !data.JObj? {
        return TranslateFallback(request);
      }
      translatedText := Get(data.fields, "translatedText", JStr(Strip(aiResponse)));
    }
    if !translatedText.JStr? {
      return TranslateFallback(request);
    }
    var diffs := CalculateDiff(request.text, translatedText.s, matcher(request.text, translatedText.s));
    r := TranslateResponse(diffs, translatedText.s, SourceLanguage(request.language), request.targetLanguage);
  }

  // ---------------------------------------------------------------------
  // _parse_rewrite_response

  const RewriteUnavailable := "改写服务暂时不可用，请稍后重试"

  /** The conversation id of a successful rewrite: the user id, "_", and
      the length of the replayed history. */
  function ConversationId(userId: string, historyLength: nat): (r: string)
    ensures |r| > |userId| + 1 && r[..|userId|] == userId && r[|userId|] == '_'
    ensures AllDigits(r[|userId| + 1..]) && DigitsValue(r[|userId| + 1..]) == historyLength
  {
    var r := userId + "_" + NatToString(historyLength);
    assert r[|userId| + 1..] == NatToString(historyLength);
    NatToStringRoundTrip(historyLength);
    r
  }

  /** The conversation id of a rewrite that raised. */
  function ErrorConversationId(userId: string): (r: string)
    ensures |r| == |userId| + 6 && r[..|userId|] == userId && r[|userId|..] == "_error"
  {
    userId + "_error"
  }

  /** A successful rewrite's id never looks like a failed one's, and it
      determines the history length. */
  lemma ConversationIdsDistinct(userId: string, m: nat, n: nat)
    ensures ConversationId(userId, m) != ErrorConversationId(userId)
    ensures ConversationId(userId, m) == ConversationId(userId, n) ==> m == n
  {
    var ok, err := ConversationId(userId, m), ErrorConversationId(userId);
    assert err[|userId| + 1] == 'e';
    assert IsDigit(ok[|userId| + 1]) by {
      assert ok[|userId| + 1..][0] == ok[|userId| + 1];
    }
    if ConversationId(userId, m) == ConversationId(userId, n) {
      assert ConversationId(userId, m)[|userId| + 1..] == ConversationId(userId, n)[|userId| + 1..];
    }
  }

  /** What `_parse_rewrite_response` returns when it raises. */
  function RewriteFallback(request: RewriteRequest, userId: string): (r: RewriteResponse)
    ensures r.rewrittenText == request.text && r.conversationId == ErrorConversationId(userId)
    ensures r.diffs == [DiffSegment(EqualKind, request.text)]
    ensures OldText(r.diffs) == request.text && NewText(r.diffs) == request.text
  {
    RewriteResponse(Unchanged(request.text), request.text, ErrorConversationId(userId))
  }

  /** The rewritten text of the non-raising branches, or `None` when the
      branch raises: the unavailable notice on the error branch, otherwise
      "rewrittenText" defaulting to the stripped reply. */
  function RewrittenTextOf(data: Json, aiResponse: string): (r: Option<string>)
    ensures Contains(data, "error") == Some(true) ==> r == Some(RewriteUnavailable)
    ensures Contains(data, "error") == Some(false) && data.JObj? && "rewrittenText" in data.fields ==>
      r == AsStr(data.fields["rewrittenText"])
    ensures Contains(data, "error") == Some(false) && data.JObj? && "rewrittenText" !in data.fields ==>
      r == Some(Strip(aiResponse))
    ensures r.Some? ==> Contains(data, "error") == Some(true) || data.JObj?
  {
    match Contains(data, "error")
    case None => None
    case Some(true) => Some(RewriteUnavailable)
    case Some(false) =>
      if !data.JObj? then None
      else AsStr(Get(data.fields, "rewrittenText", JStr(Strip(aiResponse))))
  }

  /** `_parse_rewrite_response`, given the extractor's result for the reply. */
  function RewriteResponseOf(data: Json, aiResponse: string, request: RewriteRequest, userId: string, matcher: Matcher)
    : (r: RewriteResponse)
    ensures SoundMatcher(matcher) ==>
      OldText(r.diffs) == request.text && NewText(r.diffs) == r.rewrittenText
    ensures RewrittenTextOf(data, aiResponse).None? ==> r == RewriteFallback(request, userId)
    ensures RewrittenTextOf(data, aiResponse).Some? ==>
      && r.rewrittenText == RewrittenTextOf(data, aiResponse).value
      && r.diffs == DiffWith(matcher, request.text, RewrittenTextOf(data, aiResponse).value)
      && r.conversationId == ConversationId(userId, |request.conversationHistory|)
  {
    match RewrittenTextOf(data, aiResponse)
    case None => RewriteFallback(request, userId)
    case Some(text) =>
      RewriteResponse(DiffWith(matcher, request.text, text), text,
                      ConversationId(userId, |request.conversationHistory|))
  }

  /** `_parse_rewrite_response(ai_response, request, user_id)`, where
      `data` is what the JSON extractor made of `ai_response`. */
  method ParseRewriteResponse(data: Json, aiResponse: string, request: RewriteRequest, userId: string, matcher: Matcher)
    returns (r: RewriteResponse)
    ensures r == RewriteResponseOf(data, aiResponse, request, userId, matcher)
  {
    var hasError := Contains(data, "error");
    if hasError.None? {
      return RewriteFallback(request, userId);
    }
    var rewrittenText: Json;
    if hasError.value {
      rewrittenText := JStr(RewriteUnavailable);
    } else {
      if !data.JObj? {
        return RewriteFallback(request, userId);
      }
      rewrittenText := Get(data.fields, "rewrittenText", JStr(Strip(aiResponse)));
    }
    if !rewrittenText.JStr? {
      return RewriteFallback(request, userId);
    }
    var diffs := CalculateDiff(request.text, rewrittenText.s, matcher(request.text, rewrittenText.s));
    var conversationId := userId + "_" + NatToString(|request.conversationHistory|);
    r := RewriteResponse(diffs, rewrittenText.s, conversationId);
  }
}
