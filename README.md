# DocMate core, modelled in Dafny

DocMate is a writing assistant for technical documentation. It has two parts.

- A VS Code extension whose webview shows the results of checking, polishing, translating and rewriting a text.
- A FastAPI backend that builds a prompt for each operation, sends it to a chat model and normalises the reply.

This project models the logic between the model's reply and the screen. It covers:

- **Prompts and chat messages.** How the backend builds each prompt and the chat message list.
- **Reply normalisation.** How it turns the model's JSON reply into typed responses, with layered fallbacks. How it turns difflib's opcodes into the `DiffSegment` list the editor applies.
- **Settings validation.** How it validates its settings.
- **The two result components.** How the webview's result card and unified result section route a payload to a view. How they open and close items, and how they send an accepted suggestion to the extension host.

Modules, one per source file plus two shared helpers:

| module | file | source |
|---|---|---|
| `Wrappers` | wrappers.dfy | `Option`, `Result`, and the all-or-nothing conversion a Python append loop performs |
| `Text` | text.dfy | Python slicing, `str.join`, `str(int)`, `str.strip`, and the layout lemmas for f-strings |
| `Json` | json.dfy | JSON values, Python's `in` and `dict.get`, and pydantic's validation of `str`, `int` and `List[int]` fields |
| `ApiModels` | api_models.dfy | packages/backend/app/models/api.py |
| `Diff` | diff.dfy | `_calculate_diff` in packages/backend/app/services/ai_proxy.py |
| `AiProxy` | ai_proxy.dfy | the rest of packages/backend/app/services/ai_proxy.py |
| `CheckPrompts`, `TranslatePrompts`, `PolishPrompts`, `RewritePrompts` | *_prompts.dfy | packages/backend/app/prompts/*.py |
| `Config` | config.dfy | packages/backend/app/core/config.py |
| `Webview` | webview.dfy | what both UI components share: the expansion toggle and the type-icon table |
| `ResultCard` | result_card.dfy | packages/ui/src/components/ResultCard.tsx |
| `UnifiedResultSection` | unified_result_section.dfy | packages/ui/src/components/UnifiedResultSection.tsx |

Two values come from code outside the model, so each parser receives them as parameters:

- `data: Json` is what `_extract_json_from_response` made of the reply. It is any JSON value, or the `{"error", "raw_response"}` map (`AiProxy.ExtractFailure`).
- `matcher: Matcher` is difflib's opcode producer. `None` means it raised. `Diff.SoundMatcher` states difflib's promise that the opcodes tile both texts. The reconstruction theorem assumes only that promise.

Behaviours of the code that a reader might not expect, which the model reproduces:

- **Payload routing in the result card.** A payload that is a non-array object without a `diffs` key is not shown as an itemised list. The renderer chosen by the card's type calls `.map` on the object, and rendering throws (`ResultCard.View.RenderFailure`). A payload whose type names no renderer gives a bare card (`Blank`).
- **Expansion state.** The card's expansion set lives as long as the component. It is not reset when a new payload arrives, so `ResultCard.Render` is applied to the card's current set whatever the payload.
- **Polish error branch.** The error branch of `_parse_polish_response` never returns its explanatory change. Its `PolishChange` is built with keyword names the record does not have (`originalText`, `polishedText`, `start`, `end`, `confidence` instead of `original_text` and `polished_text`). Validation therefore fails and control reaches the catch-all response (`AiProxy.ErrorChangeRejected`).
- **Polish options.** `polish_text` always builds its prompt with focus "all" and audience "technical". The request's `focus_on` and `target_audience` are ignored (`AiProxy.PolishIgnoresOptions`).

## Model

| member | source | states |
|---|---|---|
| Wrappers.Traverse | packages/backend/app/services/ai_proxy.py:397-407 | a loop that appends the conversion of every element succeeds exactly when every conversion does, keeps length and order, and holds each element's conversion at its index |
| Json.Contains | packages/backend/app/services/ai_proxy.py:379 | Python's `"error" in x`: key membership for a dict, element membership for a list, a substring test for a string, and a raise for null, booleans and numbers |
| Json.Get | packages/backend/app/services/ai_proxy.py:393 | `dict.get(key, default)` gives the stored value when the key is present and the default otherwise |
| Json.AsStr | packages/backend/app/models/api.py:60-61 | a pydantic `str` field accepts exactly the JSON strings, unchanged |
| Json.AsInt | packages/backend/app/models/api.py:62 | an `int` element accepts a number exactly when it has no fractional part, keeping its value, and a boolean as 0 or 1; nothing else is accepted |
| Json.AsIntList | packages/backend/app/models/api.py:62 | a `List[int]` field accepts exactly the arrays whose every element is accepted as an int, element by element |
| Json.Dicts | packages/backend/app/services/ai_proxy.py:397 | `for x in v: x.get(...)` gets through exactly for arrays of objects, the empty object and the empty string, and raises for null, booleans and numbers |
| Json.StrField | packages/backend/app/models/api.py:60-64 | a `str` keyword argument is validated when given and the field's default is used when omitted |
| ApiModels.NewCheckRequest | packages/backend/app/models/api.py:9-21 | a check request built from its text alone has language "auto", all four checks enabled and strict mode off |
| ApiModels.NewPolishRequest | packages/backend/app/models/api.py:9-10 | a polish request built from its text alone has language "auto" and no audience or focus |
| ApiModels.NewTranslateRequest | packages/backend/app/models/api.py:9-10 | a translate request has language "auto" and preserves terminology unless told otherwise |
| ApiModels.NewRewriteRequest | packages/backend/app/models/api.py:9-10 | a rewrite request has language "auto" and an empty conversation history unless told otherwise |
| ApiModels.NewCheckResponse | packages/backend/app/models/api.py:67-73 | a check response built without a corrected text has none |
| ApiModels.NewPolishResponse | packages/backend/app/models/api.py:86-92 | a polish response built without changes has the empty change list |
| ApiModels.CheckIssueFrom | packages/backend/app/models/api.py:56-64 | `CheckIssue(**kw)` validates exactly when message and suggestion are strings, range is an int list, and severity and category are strings when given; the record then holds exactly the given message, suggestion, range, severity and category, with "warning" and "general" for an omitted severity and category |
| ApiModels.PolishChangeFrom | packages/backend/app/models/api.py:76-84 | `PolishChange(**kw)` validates exactly when all five required fields are given as strings, and then holds exactly those values |
| Diff.SegmentsOf | packages/backend/app/services/ai_proxy.py:341-352 | equal, delete and insert each give exactly one segment of that kind holding the opcode's slice; replace gives a delete of the original slice then an insert of the modified slice, each only when its slice is non-empty; any other tag gives nothing |
| Diff.DiffOf | packages/backend/app/services/ai_proxy.py:334-362 | when the matcher raises the diff is exactly a delete of the whole original then an insert of the whole modified text; when the opcodes tile both texts the equal and delete segments spell the original and the equal and insert segments spell the modified text |
| Diff.CalculateDiff | packages/backend/app/services/ai_proxy.py:323-362 | the appending loop over the opcodes, and the two-segment fallback, produce exactly `DiffOf` |
| Diff.Reconstruction | packages/backend/app/services/ai_proxy.py:341-354 | opcodes that tile both texts up to given positions convert into segments whose old side is the original's prefix and whose new side is the modified text's prefix |
| Diff.DiffReconstructs | packages/backend/app/services/ai_proxy.py:334-362 | for every matcher that keeps difflib's tiling promise and every pair of texts, the equal and delete segments of the diff spell the original and the equal and insert segments spell the modified text |
| Text.Slice | packages/backend/app/services/ai_proxy.py:343 | Python's `s[i:j]`: the slice when the indices are in order and in range, the empty string when `j <= i` |
| Text.Join | packages/backend/app/prompts/check_prompts.py:17 | `sep.join(parts)` of no parts is "", of one part is that part, and of two parts is the first, the separator, then the second |
| Text.JoinCons | packages/backend/app/prompts/check_prompts.py:17 | a join of two or more parts is the first part, the separator, then the join of the rest, so the parts appear in order with one separator between each two |
| Text.JoinMentionsEach | packages/backend/app/prompts/check_prompts.py:17 | every joined part occurs in the joined string |
| Text.NatToString | packages/backend/app/services/ai_proxy.py:559 | `str(n)` is a non-empty digit string, with a leading zero only for 0 and one digit exactly below 10 |
| Text.NatToStringRoundTrip | packages/backend/app/services/ai_proxy.py:559 | reading back the digits of `str(n)` gives `n` |
| Text.NatToStringInjective | packages/backend/app/services/ai_proxy.py:559 | different numbers give different strings |
| Text.TrimStart | packages/backend/app/services/ai_proxy.py:510 | removes exactly the leading whitespace |
| Text.TrimEnd | packages/backend/app/services/ai_proxy.py:510 | removes exactly the trailing whitespace |
| Text.Strip | packages/backend/app/services/ai_proxy.py:510 | `str.strip()` is the part of the input that starts where the leading whitespace ends, with only whitespace before and after it, and it neither starts nor ends with whitespace |
| AiProxy.LabelRank | packages/backend/app/services/ai_proxy.py:46-54 | the labels' fixed order grammar, style, terminology, consistency |
| AiProxy.CheckTypes | packages/backend/app/services/ai_proxy.py:46-54 | each label is present exactly when its flag is set, and the labels appear in strictly increasing fixed order |
| AiProxy.CheckPromptFor | packages/backend/app/services/ai_proxy.py:46-56 | the check prompt contains the text, the strictness word and the label of every enabled check |
| AiProxy.PolishPromptFor | packages/backend/app/services/ai_proxy.py:86 | the polish prompt contains the text and the descriptions of focus "all" and audience "technical" |
| AiProxy.PolishIgnoresOptions | packages/backend/app/services/ai_proxy.py:86 | two polish requests with the same text get the same prompt, whatever their focus and audience |
| AiProxy.TranslatePromptFor | packages/backend/app/services/ai_proxy.py:116-122 | the translate prompt contains the text, the source language or "auto", the target language and the terminology note the request selects |
| AiProxy.RewritePromptFor | packages/backend/app/services/ai_proxy.py:152-156 | the rewrite prompt contains the text, the instruction and the note asking to preserve terminology |
| AiProxy.BuildMessages | packages/backend/app/services/ai_proxy.py:193-205 | the history entries in order, with role defaulting to "user" and content to "", then exactly one final user message with the prompt |
| AiProxy.ExtractFailure | packages/backend/app/services/ai_proxy.py:311-316 | the extractor's last resort is a map that has an "error" key and carries the raw reply |
| AiProxy.SourceLanguage | packages/backend/app/services/ai_proxy.py:518 | `request.language or "auto"`: the language when it is a non-empty string, "auto" otherwise, never empty |
| AiProxy.Unchanged | packages/backend/app/services/ai_proxy.py:422 | exactly one segment, of kind equal, holding the text, which therefore spells the text on both sides |
| AiProxy.DiffWith | packages/backend/app/services/ai_proxy.py:410 | with a sound matcher the diff spells the original and the new text, and when the matcher raises it is exactly a delete of the original then an insert of the new text |
| AiProxy.ParseIssue | packages/backend/app/services/ai_proxy.py:398-407 | an issue entry validates exactly when its message, suggestion, severity and type are strings and start and end are whole numbers, given or defaulted, and the issue then holds exactly those values, with the defaults "" / "" / 0 / len(original) / "info" / "general" for absent keys |
| AiProxy.CheckFallback | packages/backend/app/services/ai_proxy.py:418-425 | the catch-all check response has no issues, returns the original as the corrected text, and its diff is exactly one equal segment of the original |
| AiProxy.IssuesOf | packages/backend/app/services/ai_proxy.py:397-407 | the issue loop raises when "issues" does not iterate as dicts, and otherwise succeeds exactly when every entry validates, giving one issue per entry in order |
| AiProxy.CheckResponseOf | packages/backend/app/services/ai_proxy.py:375-425 | on an object reply without an error key the response holds the reply's corrected text (the original when absent), the issues of `IssuesOf` and the diff `DiffWith` computes for the two texts, and when the text is not a string or the issue loop raises it is the catch-all; the error map keeps the original; a reply on which `in` raises, and a non-object reply without an error key, get the catch-all; the diff always reconstructs original and corrected text under a sound matcher |
| AiProxy.ParseIssues | packages/backend/app/services/ai_proxy.py:397-407 | the issue loop yields one issue per entry in order, or nothing when one entry fails |
| AiProxy.ParseCheckResponse | packages/backend/app/services/ai_proxy.py:364-425 | the parser computes exactly `CheckResponseOf` |
| AiProxy.CheckErrorBranch | packages/backend/app/services/ai_proxy.py:379-390 | on the error map: the original as corrected text and exactly one warning of category "system" whose range covers the whole original |
| AiProxy.CheckUnreadableReply | packages/backend/app/services/ai_proxy.py:379-390 | a reply the extractor cannot read gives that single system warning |
| AiProxy.CheckSuccessBranch | packages/backend/app/services/ai_proxy.py:391-407 | a readable reply gives one issue per entry, in order, and its corrected text when given, the original when absent; missing issues give none |
| AiProxy.CheckBadIssue | packages/backend/app/services/ai_proxy.py:397-425 | one entry that fails validation sends the whole response to the catch-all |
| AiProxy.CheckBadCorrectedText | packages/backend/app/services/ai_proxy.py:393-425 | a corrected text that is not a string ends in the catch-all |
| AiProxy.CheckIssuesNotIterable | packages/backend/app/services/ai_proxy.py:397-425 | an "issues" value that does not iterate as dicts ends in the catch-all |
| AiProxy.ErrorChangeRejected | packages/backend/app/services/ai_proxy.py:445-456 | the error branch's `PolishChange` never validates |
| AiProxy.ParseChange | packages/backend/app/services/ai_proxy.py:468-474 | a change entry validates exactly when its five values, given or defaulted, are strings, and the change then holds exactly its type (default "polish"), description, originalText, polishedText and reason, the camel-case keys filling the snake-case fields |
| AiProxy.PolishFallback | packages/backend/app/services/ai_proxy.py:482-488 | the catch-all polish response returns the original, no changes, and a diff of exactly one equal segment of the original |
| AiProxy.ChangesOf | packages/backend/app/services/ai_proxy.py:460-474 | the change loop raises when "changes" does not iterate as dicts, and otherwise succeeds exactly when every entry validates, giving one change per entry in order |
| AiProxy.PolishResponseOf | packages/backend/app/services/ai_proxy.py:438-488 | on an object reply without an error key the response holds the reply's polished text (the original when absent), the changes of `ChangesOf` and the diff `DiffWith` computes for the two texts, and when the text is not a string or the change loop raises it is the catch-all; the error map and every non-object reply end in the catch-all; the diff reconstructs original and polished text under a sound matcher |
| AiProxy.ParseChanges | packages/backend/app/services/ai_proxy.py:466-474 | the change loop yields one change per entry in order, or nothing when one entry fails |
| AiProxy.ParsePolishResponse | packages/backend/app/services/ai_proxy.py:427-488 | the parser computes exactly `PolishResponseOf` |
| AiProxy.PolishUnreadableReply | packages/backend/app/services/ai_proxy.py:442-488 | a reply the extractor cannot read always gives the catch-all response |
| AiProxy.PolishSuccessBranch | packages/backend/app/services/ai_proxy.py:457-480 | a readable reply gives one change per entry, in order, and its polished text when given, the original when absent |
| AiProxy.PolishBadText | packages/backend/app/services/ai_proxy.py:459-488 | a polished text that is not a string ends in the catch-all |
| AiProxy.PolishBadChange | packages/backend/app/services/ai_proxy.py:467-488 | one change that fails validation sends the whole response to the catch-all |
| AiProxy.PolishChangesNotIterable | packages/backend/app/services/ai_proxy.py:460-488 | a "changes" value that does not iterate as dicts ends in the catch-all |
| AiProxy.TranslateFallback | packages/backend/app/services/ai_proxy.py:522-530 | the catch-all returns the request text unchanged, with the request's languages and a diff of exactly one equal segment of the text |
| AiProxy.TranslatedTextOf | packages/backend/app/services/ai_proxy.py:505-510 | the unavailable notice on the error map; on an object reply the given translatedText when it is a string and a raise when it is not, and the stripped reply when the key is missing; a raise for non-object replies |
| AiProxy.TranslateResponseOf | packages/backend/app/services/ai_proxy.py:501-530 | the languages are always `language or "auto"` and the target; when `TranslatedTextOf` gives a text the response holds it and the diff `DiffWith` computes from the request text, and when it raises the response is the catch-all |
| AiProxy.ParseTranslateResponse | packages/backend/app/services/ai_proxy.py:490-530 | the parser computes exactly `TranslateResponseOf` |
| AiProxy.ConversationId | packages/backend/app/services/ai_proxy.py:559 | the id is the user id, "_" and the decimal history length |
| AiProxy.ErrorConversationId | packages/backend/app/services/ai_proxy.py:573 | the failure id is the user id followed by "_error" |
| AiProxy.ConversationIdsDistinct | packages/backend/app/services/ai_proxy.py:559-573 | a success id never equals the failure id, and it determines the history length |
| AiProxy.RewriteFallback | packages/backend/app/services/ai_proxy.py:567-574 | the catch-all returns the request text unchanged with the failure id and a diff of exactly one equal segment of the text |
| AiProxy.RewrittenTextOf | packages/backend/app/services/ai_proxy.py:548-553 | the unavailable notice on the error map; on an object reply the given rewrittenText when it is a string and a raise when it is not, and the stripped reply when the key is missing; a raise for non-object replies |
| AiProxy.RewriteResponseOf | packages/backend/app/services/ai_proxy.py:544-574 | when `RewrittenTextOf` gives a text the response holds it, the diff `DiffWith` computes from the request text and the history-length id, and when it raises the response is the catch-all |
| AiProxy.ParseRewriteResponse | packages/backend/app/services/ai_proxy.py:532-574 | the parser computes exactly `RewriteResponseOf` |
| CheckPrompts.CheckList | packages/backend/app/prompts/check_prompts.py:17 | "全面" when there are no check types, otherwise the types joined with "、" in their given order (for two types: the first, "、", the second), every type occurring in the list |
| CheckPrompts.Strictness | packages/backend/app/prompts/check_prompts.py:18 | "严格" exactly in strict mode and "标准" exactly otherwise |
| CheckPrompts.CheckPrompt | packages/backend/app/prompts/check_prompts.py:20-56 | the strictness, the category list and the text each sit at their place in the fixed wording |
| CheckPrompts.BuildCheckPrompt | packages/backend/app/prompts/check_prompts.py:5-58 | the prompt contains the strictness word, every check type and the text |
| CheckPrompts.StrictnessVisible | packages/backend/app/prompts/check_prompts.py:18-20 | a strict prompt never equals a standard one, whatever the texts and types |
| CheckPrompts.CheckPromptDeterminesText | packages/backend/app/prompts/check_prompts.py:20-23 | with the same strictness and categories, the prompt determines the text |
| CheckPrompts.BuildTerminologyCheckPrompt | packages/backend/app/prompts/check_prompts.py:71-100 | the text verbatim between the fixed request and answer format |
| CheckPrompts.TerminologyPromptInjective | packages/backend/app/prompts/check_prompts.py:71-74 | different texts give different terminology prompts |
| TranslatePrompts.DisplayName | packages/backend/app/prompts/translate_prompts.py:34-35 | a known code maps to its table name and an unknown code passes through |
| TranslatePrompts.DisplayNamePassesThroughExactlyUnknown | packages/backend/app/prompts/translate_prompts.py:20-94 | in both tables the name equals the code exactly for the unknown codes |
| TranslatePrompts.TablesAgree | packages/backend/app/prompts/translate_prompts.py:20-92 | the full-document table agrees with the main table on every code it has |
| TranslatePrompts.ContextSection | packages/backend/app/prompts/translate_prompts.py:37 | empty exactly when the context is, otherwise the context between the fixed head and a newline |
| TranslatePrompts.TerminologyNote | packages/backend/app/prompts/translate_prompts.py:39 | the preserve note exactly when terminology is preserved, the localise note exactly otherwise |
| TranslatePrompts.TranslatePrompt | packages/backend/app/prompts/translate_prompts.py:41-69 | names, context section, text, note and both raw codes each sit at their place in the fixed wording |
| TranslatePrompts.BuildTranslatePrompt | packages/backend/app/prompts/translate_prompts.py:5-71 | the prompt contains both display names, a non-empty context, the text, the selected note and both raw codes |
| TranslatePrompts.TerminologyNoteVisible | packages/backend/app/prompts/translate_prompts.py:39-48 | preserving and localising prompts always differ |
| TranslatePrompts.TranslatePromptDeterminesText | packages/backend/app/prompts/translate_prompts.py:41-44 | with everything else equal, the prompt determines the text |
| TranslatePrompts.FullDocumentPrompt | packages/backend/app/prompts/translate_prompts.py:96-117 | name, text and code each sit at their place in the fixed wording |
| TranslatePrompts.BuildFullDocumentTranslatePrompt | packages/backend/app/prompts/translate_prompts.py:74-119 | the prompt contains the display name, the text and the raw code |
| TranslatePrompts.FullDocumentPromptDeterminesText | packages/backend/app/prompts/translate_prompts.py:96-99 | with the same language, the prompt determines the text |
| PolishPrompts.FocusDescription | packages/backend/app/prompts/polish_prompts.py:17-32 | a known focus maps to its description and an unknown one to that of "all" (全面提升文档质量) |
| PolishPrompts.AudienceDescription | packages/backend/app/prompts/polish_prompts.py:25-33 | a known audience maps to its description and an unknown one to that of "technical" (技术人员) |
| PolishPrompts.PolishPrompt | packages/backend/app/prompts/polish_prompts.py:35-65 | focus, audience and text each sit at their place in the fixed wording |
| PolishPrompts.BuildPolishPrompt | packages/backend/app/prompts/polish_prompts.py:5-67 | the prompt contains both descriptions and the text |
| PolishPrompts.UnknownOptionsFallBack | packages/backend/app/prompts/polish_prompts.py:32-33 | an unknown focus or audience gives the same prompt as "all" or "technical" |
| PolishPrompts.PolishPromptDeterminesText | packages/backend/app/prompts/polish_prompts.py:35-40 | with the same descriptions, the prompt determines the text |
| PolishPrompts.BuildClarityPolishPrompt | packages/backend/app/prompts/polish_prompts.py:80-105 | the text verbatim between the fixed request and answer format |
| PolishPrompts.ClarityPromptInjective | packages/backend/app/prompts/polish_prompts.py:80-83 | different texts give different clarity prompts |
| RewritePrompts.TerminologyNote | packages/backend/app/prompts/rewrite_prompts.py:17 | the note when terminology is preserved, "" otherwise |
| RewritePrompts.RewritePrompt | packages/backend/app/prompts/rewrite_prompts.py:19-49 | the note directly after requirement 5, then the original text, then the instruction, each at its place |
| RewritePrompts.BuildRewritePrompt | packages/backend/app/prompts/rewrite_prompts.py:5-51 | the prompt contains the text, the instruction, and the note when terminology is preserved |
| RewritePrompts.TerminologyNoteVisible | packages/backend/app/prompts/rewrite_prompts.py:17-26 | preserving adds exactly the note's length and always changes the prompt |
| RewritePrompts.RewritePromptDeterminesInputs | packages/backend/app/prompts/rewrite_prompts.py:28-31 | with the rest fixed, the prompt determines the text and the instruction |
| RewritePrompts.BuildStyleRewritePrompt | packages/backend/app/prompts/rewrite_prompts.py:65-86 | the text and the requirements verbatim, each at its place in the fixed wording |
| RewritePrompts.StylePromptDeterminesText | packages/backend/app/prompts/rewrite_prompts.py:65-70 | with the same requirements, the prompt determines the text |
| Config.WithDefaults | packages/backend/app/core/config.py:12-52 | every optional setting has its default: host, port, debug, environment, HS256, 1440 minutes, both openEuler URLs, the OpenAI base URL and model, timeout 30, 3 retries, the three allowed origins, INFO and mock auth off |
| Config.MissingAmong | packages/backend/app/core/config.py:73-76 | a name is missing exactly when it is checked and its value is empty, and no more names than checked |
| Config.MissingRequired | packages/backend/app/core/config.py:68-76 | the missing list is JWT_SECRET_KEY then AI_API_KEY, each exactly when empty |
| Config.MissingFields | packages/backend/app/core/config.py:68-76 | the loop collects exactly `MissingAmong` of the required fields, in order |
| Config.MissingMessage | packages/backend/app/core/config.py:79-82 | the missing names joined by ", " between the fixed head and tail, each name occurring in the message |
| Config.ValidateRequiredSettings | packages/backend/app/core/config.py:64-82 | an error exactly when a required value is empty; its message names every empty one |
| Config.NewSettings | packages/backend/app/core/config.py:59-62 | for given values of both required settings, construction succeeds with them exactly when both are non-empty, and otherwise fails with the validation message |
| Webview.Toggle | packages/ui/src/components/ResultCard.tsx:25-33 | the clicked id flips membership and every other id keeps it |
| Webview.ToggleInvolutive | packages/ui/src/components/UnifiedResultSection.tsx:28-36 | toggling the same id twice restores the set |
| Webview.ToggleCommutes | packages/ui/src/components/ResultCard.tsx:25-33 | clicks on two items may be made in either order |
| Webview.Clicks | packages/ui/src/components/ResultCard.tsx:25-33 | the click count is zero exactly when the id was never clicked |
| Webview.ToggleAllParity | packages/ui/src/components/ResultCard.tsx:23-33 | after any series of clicks, an item is open exactly when its click count's parity flips its initial state; from the initial empty set, exactly the items clicked an odd number of times are open |
| Webview.OtherClicksIrrelevant | packages/ui/src/components/UnifiedResultSection.tsx:28-36 | clicks on other items never change an item's state |
| Webview.TypeIcon | packages/ui/src/components/ResultCard.tsx:121-142 | a known type gets its table icon, and "📄" marks exactly the unknown types (the same table as UnifiedResultSection.tsx:51-72) |
| Webview.SeverityIcon | packages/ui/src/components/ResultCard.tsx:108-119 | the three severities get their icons, and the component's fallback ("📝" in the card, "✨" in the section) marks exactly the others |
| ResultCard.TypeTitle | packages/ui/src/components/ResultCard.tsx:35-46 | the three types get their titles, and "处理结果" marks exactly the others |
| ResultCard.UnknownSeverityLooksLikeGrammar | packages/ui/src/components/ResultCard.tsx:116-126 | an unknown severity shows the same icon as the grammar type |
| ResultCard.Preview | packages/ui/src/components/ResultCard.tsx:241-244 | the text itself up to 50 characters, otherwise its first 50 followed by "..."; never longer than 53 |
| ResultCard.PreviewIdempotent | packages/ui/src/components/ResultCard.tsx:241-244 | previewing a preview changes nothing |
| ResultCard.PreviewHidesTheRest | packages/ui/src/components/ResultCard.tsx:241-244 | two long texts with the same first 50 characters have the same preview |
| ResultCard.DiffBranch | packages/ui/src/components/ResultCard.tsx:76-103 | the diff view exactly when there are diffs, titled by type; one line per issue, with its suggestion exactly when that is non-empty |
| ResultCard.CheckRow | packages/ui/src/components/ResultCard.tsx:149-185 | severity and type icon and the message as summary; when expanded, the original text, then the suggestion and the source each exactly when non-empty, and no details otherwise |
| ResultCard.PolishRow | packages/ui/src/components/ResultCard.tsx:195-221 | type icon and the explanation as summary; when expanded, exactly the original and the polished text, and no details otherwise |
| ResultCard.TranslateRow | packages/ui/src/components/ResultCard.tsx:231-274 | the summary is the language pair "source → target" and the preview; when expanded, the original, the translation and, when there are alternatives, the heading "备选翻译：" followed by every alternative, and no details otherwise |
| ResultCard.RendererFor | packages/ui/src/components/ResultCard.tsx:292-294 | each of the three types selects its own renderer, and no other type selects one |
| ResultCard.Rows | packages/ui/src/components/ResultCard.tsx:144-277 | one row per item, in item order, each drawn by the given renderer's row function, open exactly when its id is expanded |
| ResultCard.Render | packages/ui/src/components/ResultCard.tsx:49-295 | exactly for objects with a `diffs` key, the diff card `DiffBranch` draws from the payload's diffs and issues; the empty card exactly for the empty array; exactly for non-empty arrays of a known type, the list whose rows are those of the renderer the type selects; otherwise a bare card or a render failure |
| ResultCard.EmptyArrayIgnoresType | packages/ui/src/components/ResultCard.tsx:282-288 | the empty array gives the "nothing found" card whatever the type and expansion |
| ResultCard.EmptyDiffPayload | packages/ui/src/components/ResultCard.tsx:78-101 | a diff payload with no diffs and no issues renders an empty card |
| ResultCard.ExpansionOnlyOpensRows | packages/ui/src/components/ResultCard.tsx:163-251 | in a list, an item shows details exactly when its id is expanded, whichever renderer draws it |
| ResultCard.AcceptMessage | packages/ui/src/components/ResultCard.tsx:59-62 | the message has command "applySuggestion" and the suggestion as its text |
| ResultCard.Card.constructor | packages/ui/src/components/ResultCard.tsx:22-23 | a mounted card has nothing expanded, posted or dismissed |
| ResultCard.Card.ToggleExpanded | packages/ui/src/components/ResultCard.tsx:25-33 | the new set is `Toggle` of the old one; nothing else changes |
| ResultCard.Card.PostMessage | packages/ui/src/components/ResultCard.tsx:59-62 | every call is posted, and the host receives the message unless the call throws |
| ResultCard.Card.HandleAccept | packages/ui/src/components/ResultCard.tsx:54-67 | exactly one apply-suggestion message is posted, and the method returns normally whether the host receives it or not |
| ResultCard.Card.HandleReject | packages/ui/src/components/ResultCard.tsx:69-74 | `onDismiss` is called once when supplied and never otherwise; nothing is posted |
| UnifiedResultSection.ItemIcon | packages/ui/src/components/UnifiedResultSection.tsx:92 | the severity icon when a severity is set, the type icon otherwise |
| UnifiedResultSection.SeverityHidesType | packages/ui/src/components/UnifiedResultSection.tsx:38-92 | a set but unrecognised severity shows "✨" and never the type's icon |
| UnifiedResultSection.TypeIconsDistinguish | packages/ui/src/components/UnifiedResultSection.tsx:51-92 | items without severity of different known types show different icons |
| UnifiedResultSection.EntryOf | packages/ui/src/components/UnifiedResultSection.tsx:86-104 | details are shown exactly when the item is expanded and has non-empty details |
| UnifiedResultSection.Render | packages/ui/src/components/UnifiedResultSection.tsx:74-107 | nothing exactly for an empty item list; otherwise the title, the count and one entry per item in order |
| UnifiedResultSection.ClickChangesOneEntry | packages/ui/src/components/UnifiedResultSection.tsx:89-100 | a click flips only the clicked item's entry and leaves every other entry as drawn |
| UnifiedResultSection.ResultSection.constructor | packages/ui/src/components/UnifiedResultSection.tsx:20-26 | a mounted section has nothing expanded |
| UnifiedResultSection.ResultSection.ToggleExpanded | packages/ui/src/components/UnifiedResultSection.tsx:28-36 | the new set is `Toggle` of the old one |

## Left out

- The HTTP call, its retry loop and the back-off sleep in `_call_ai_service` are network and asynchronous I/O (packages/backend/app/services/ai_proxy.py:207-275).
  - The async `check_text`, `polish_text`, `translate_text` and `rewrite_text` are modelled only through the prompts they build and the parsers they call. Their logging and re-raising are not modelled.
- `_extract_json_from_response` relies on Python's `json` and `re` modules. Each parser receives its result as a `Json` value. Only its last-resort error map is modelled (`AiProxy.ExtractFailure`).
- difflib's `SequenceMatcher` is a foreign algorithm. Its opcodes are an input, and the reconstruction theorem assumes only its tiling promise (`Diff.SoundMatcher`).
- JSON numbers are reals. `Json.AsInt` models pydantic's lax acceptance of integral numbers and booleans as ints. Its acceptance of numeric strings is not modelled, so a reply with a string "start" or "end" ends in the catch-all in the model.
- Confidence values are floating point, and their display through `Math.round(confidence * 100)` is not modelled (ResultCard.tsx:173-177, 216-218, 269-271). The code does not clamp them to [0,1], and the model does not either.
- JSX markup, CSS classes, the section's `className` and `sectionType` styling, `CompactHeader.tsx` and emoji rendering are presentation.
- `DiffView` and `vscodeApi` are not part of this model. `DiffView` produces the suggestion that `handleAccept` receives, which is an input. The transport is `ResultCard.Card.PostMessage`, which may fail nondeterministically.
- Console logging in `handleAccept` and `handleReject` is not modelled.
- A payload item is a record with every field present; an optional field the item lacks is the empty string. An item that lacks a field a renderer dereferences, which makes JavaScript throw, is not modelled. Neither is a non-array `issues` or `alternatives`.
- `Config.NewSettings`: takes both required values as given. When `JWT_SECRET_KEY` or `AI_API_KEY` is absent altogether, pydantic's own validation of the required field raises inside `super().__init__` (config.py:60) before `_validate_required_settings` runs; that error and its message are not modelled.
- Reading settings from the environment and the `.env` file, and pydantic's type validation of the optional settings, are configuration I/O. `Config.Settings` takes the values as given.
- `ResultCard.Preview`: counts Unicode code points, whereas JavaScript's `length` and `substring` count UTF-16 code units, so texts with characters outside the Basic Multilingual Plane are cut at a different place.
- `ResultCard.Card.HandleAccept`: states that the host has either received the message or not, because a throwing `postMessage` says nothing about delivery.
- `CheckPrompts.BuildCheckPrompt`, `TranslatePrompts.BuildTranslatePrompt`, `TranslatePrompts.BuildFullDocumentTranslatePrompt`, `PolishPrompts.BuildPolishPrompt`, `RewritePrompts.BuildRewritePrompt`: their own contracts state which values the prompt contains. The exact layout is stated by `CheckPrompt`, `TranslatePrompt`, `FullDocumentPrompt`, `PolishPrompt` and `RewritePrompt`, and each builder is that function applied to the source's fixed wording.
- `AiProxy.CheckPromptFor`, `AiProxy.PolishPromptFor`, `AiProxy.TranslatePromptFor`, `AiProxy.RewritePromptFor`: state only which values the prompt contains, for the same reason.
- Authentication, the routers, the dependency plumbing, the JWT helpers, the openEuler client, the logger and the auth models are outside this model.
