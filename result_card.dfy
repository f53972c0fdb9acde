/** The result card of the webview (packages/ui/src/components/ResultCard.tsx):
    which view a result payload gets, the icon, title and preview lookups,
    and the component's state: the set of expanded items, the messages it
    posts to the extension host and the dismiss calls it makes. */
module ResultCard {
  import opened Wrappers
  import opened Text
  import opened ApiModels
  import opened Webview

  /** One item of an array payload. An array holds the items of one
      operation; the renderer chosen by the card's type reads the fields it
      needs: a check item its severity, type, message and suggestion, a
      polish item its type, explanation and polished text, a translate
      item its languages, translation and alternatives. An optional field
      the item lacks is the empty string. */
  datatype Item = Item(
    id: string,
    severity: string,
    kind: string,
    message: string,
    explanation: string,
    originalText: string,
    suggestedText: string,
    polishedText: string,
    source: string,
    sourceLanguage: string,
    targetLanguage: string,
    translatedText: string,
    alternatives: seq<string>)

  /** One entry of the `issues` of a diff payload: its message, and its
      suggestion, the empty string when it has none. */
  datatype IssueNote = IssueNote(message: string, suggestion: string)

  /** The `results` prop. `Record` is a non-array object; `hasDiffs` says
      whether it has the key `diffs`, and a `diffs` or `issues` that is
      missing or undefined is the empty list. `Absent` is `null` or
      `undefined`. */
  datatype Payload =
    | Items(items: seq<Item>)
    | Record(hasDiffs: bool, diffs: seq<DiffSegment>, issues: seq<IssueNote>)
    | Absent

  /** The line of one issue: its message, and its suggestion when that is non-empty. */
  datatype IssueLine = IssueLine(message: string, suggestion: Option<string>)

  /** What the `DiffView` of a diff payload is given besides the two callbacks. */
  datatype DiffViewProps = DiffViewProps(diffs: seq<DiffSegment>, title: string)

  /** The summary line of an item and, when it is expanded, its labelled details. */
  datatype Row = Row(id: string, icons: seq<string>, summary: seq<string>, expanded: bool, details: seq<string>)

  /** The three array renderers. */
  datatype Renderer = CheckRenderer | PolishRenderer | TranslateRenderer

  /** What the card renders. `Blank` is the bare card of an array payload
      whose type names no renderer; `RenderFailure` is a renderer called on
      something that is not an array, whose `items.map` throws. */
  datatype View =
    | DiffCard(diffView: Option<DiffViewProps>, issues: seq<IssueLine>)
    | EmptyCard
    | ListCard(renderer: Renderer, rows: seq<Row>)
    | Blank
    | RenderFailure

  /** The message `handleAccept` posts to the extension host. */
  datatype HostMessage = HostMessage(command: string, text: string)

  const ApplySuggestion := "applySuggestion"

  const Titles: map<string, string> := map["check" := "检查结果", "polish" := "润色结果", "translate" := "翻译结果"]
  const DefaultTitle := "处理结果"

  /** `getTypeTitle(type)`: the title of the three result types, "处理结果"
      for any other. */
  function TypeTitle(kind: string): (r: string)
    ensures kind in Titles ==> r == Titles[kind]
    ensures r == DefaultTitle <==> kind !in Titles
  {
    if kind in Titles then Titles[kind] else DefaultTitle
  }

  /** The card's `getSeverityIcon` falls back to "📝". */
  const DefaultSeverityIcon := "📝"

  /** The card's severity default is the icon of a grammar item, so an
      unknown severity and a grammar item look alike. */
  lemma UnknownSeverityLooksLikeGrammar(severity: string)
    requires severity !in SeverityIcons
    ensures SeverityIcon(severity, DefaultSeverityIcon) == TypeIcon("grammar")
  {
  }

  const PreviewLength := 50
  const Ellipsis := "..."

  /** The translated preview: the text itself when it has at most 50
      characters, otherwise its first 50 followed by "...". */
  function Preview(text: string): (r: string)
    ensures |text| <= PreviewLength ==> r == text
    ensures |text| > PreviewLength ==> |r| == PreviewLength + |Ellipsis|
    ensures |r| <= PreviewLength + |Ellipsis|
    ensures var shown := if |text| <= PreviewLength then |text| else PreviewLength;
      shown <= |r| && r[..shown] == text[..shown]
    ensures |text| > PreviewLength ==> r[PreviewLength..] == Ellipsis
  {
    if |text| > PreviewLength then text[..PreviewLength] + Ellipsis else text
  }

  /** Previewing a preview changes nothing. */
  lemma PreviewIdempotent(text: string)
    ensures Preview(Preview(text)) == Preview(text)
  {
    if |text| > PreviewLength {
      assert Preview(text)[..PreviewLength] == text[..PreviewLength];
    }
  }

  /** Two texts with the same first 50 characters and more than 50 each
      have the same preview: nothing past the 50th character is shown. */
  lemma PreviewHidesTheRest(text1: string, text2: string)
    requires |text1| > PreviewLength && |text2| > PreviewLength
    requires text1[..PreviewLength] == text2[..PreviewLength]
    ensures Preview(text1) == Preview(text2)
  {
  }

  /** `isDiffFormat`: the payload is a non-null object with the key `diffs`,
      whatever that key holds. */
  predicate IsDiffFormat(payload: Payload)
  {
    payload.Record? && payload.hasDiffs
  }

  /** The diff branch: the diff view only when there are diffs, the issue
      list only when there are issues. */
  function DiffBranch(kind: string, diffs: seq<DiffSegment>, issues: seq<IssueNote>): (v: View)
    ensures v.DiffCard?
    ensures v.diffView.Some? <==> diffs != []
    ensures v.diffView.Some? ==> v.diffView.value == DiffViewProps(diffs, TypeTitle(kind))
    ensures |v.issues| == |issues|
    ensures forall k :: 0 <= k < |issues| ==> v.issues[k].message == issues[k].message
    ensures forall k :: 0 <= k < |issues| ==>
      (v.issues[k].suggestion.Some? <==> issues[k].suggestion != "")
      && (v.issues[k].suggestion.Some? ==> v.issues[k].suggestion.value == issues[k].suggestion)
  {
    var diffView := if diffs != [] then Some(DiffViewProps(diffs, TypeTitle(kind))) else None;
    var lines := seq(|issues|, k requires 0 <= k < |issues| =>
      IssueLine(issues[k].message, if issues[k].suggestion != "" then Some(issues[k].suggestion) else None));
    DiffCard(diffView, lines)
  }

  const OriginalHeading := "原文："
  const SuggestionHeading := "建议："
  const SourceHeading := "来源："
  const PolishedHeading := "润色后："
  const TranslationHeading := "翻译："
  const AlternativesHeading := "备选翻译："
  const Arrow := " → "

  /** A labelled detail line shown only when its value is non-empty. */
  function Optional(heading: string, value: string): (r: seq<string>)
    ensures r == [] <==> value == ""
    ensures value != "" ==> r == [heading + value]
  {
    if value != "" then [heading + value] else []
  }

  /** The row `renderCheckResults` draws for one item. */
  function CheckRow(item: Item, expanded: set<string>): (r: Row)
    ensures r.id == item.id && r.expanded == (item.id in expanded)
    ensures r.icons == [SeverityIcon(item.severity, DefaultSeverityIcon), TypeIcon(item.kind)]
    ensures r.summary == [item.message]
    ensures r.details != [] <==> item.id in expanded
    ensures item.id in expanded ==>
      |r.details| == 1 + (if item.suggestedText != "" then 1 else 0) + (if item.source != "" then 1 else 0)
    ensures item.id in expanded ==> r.details[0] == OriginalHeading + item.originalText
    ensures item.id in expanded && item.suggestedText != "" ==> r.details[1] == SuggestionHeading + item.suggestedText
    ensures item.id in expanded && item.source != "" ==> r.details[|r.details| - 1] == SourceHeading + item.source
  {
    var open := item.id in expanded;
    Row(item.id, [SeverityIcon(item.severity, DefaultSeverityIcon), TypeIcon(item.kind)], [item.message], open,
      if open then [OriginalHeading + item.originalText] + Optional(SuggestionHeading, item.suggestedText)
        + Optional(SourceHeading, item.source)
      else [])
  }

  /** The row `renderPolishResults` draws for one item. */
  function PolishRow(item: Item, expanded: set<string>): (r: Row)
    ensures r.id == item.id && r.expanded == (item.id in expanded)
    ensures r.icons == [TypeIcon(item.kind)]
    ensures r.summary == [item.explanation]
    ensures r.details != [] <==> item.id in expanded
    ensures item.id in expanded ==>
      r.details == [OriginalHeading + item.originalText, PolishedHeading + item.polishedText]
  {
    var open := item.id in expanded;
    Row(item.id, [TypeIcon(item.kind)], [item.explanation], open,
      if open then [OriginalHeading + item.originalText, PolishedHeading + item.polishedText] else [])
  }

  /** The row `renderTranslateResults` draws for one item: the language
      pair and the preview of the translation. */
  function TranslateRow(item: Item, expanded: set<string>): (r: Row)
    ensures r.id == item.id && r.expanded == (item.id in expanded)
    ensures r.icons == []
    ensures r.summary == [item.sourceLanguage + Arrow + item.targetLanguage, Preview(item.translatedText)]
    ensures r.details != [] <==> item.id in expanded
    ensures item.id in expanded ==>
      && |r.details| == 2 + (if item.alternatives != [] then 1 + |item.alternatives| else 0)
      && r.details[0] == OriginalHeading + item.originalText
      && r.details[1] == TranslationHeading + item.translatedText
      && (item.alternatives != [] ==> r.details[2] == AlternativesHeading && r.details[3..] == item.alternatives)
  {
    var open := item.id in expanded;
    Row(item.id, [], [item.sourceLanguage + Arrow + item.targetLanguage, Preview(item.translatedText)], open,
      if open then
        [OriginalHeading + item.originalText, TranslationHeading + item.translatedText]
        + (if item.alternatives != [] then [AlternativesHeading] + item.alternatives else [])
      else [])
  }

  /** The renderer `type` selects, if any. */
  function RendererFor(kind: string): (r: Option<Renderer>)
    ensures r == Some(CheckRenderer) <==> kind == "check"
    ensures r == Some(PolishRenderer) <==> kind == "polish"
    ensures r == Some(TranslateRenderer) <==> kind == "translate"
  {
    if kind == "check" then Some(CheckRenderer)
    else if kind == "polish" then Some(PolishRenderer)
    else if kind == "translate" then Some(TranslateRenderer)
    else None
  }

  /** The rows of one renderer, one per item and in item order. */
  function Rows(renderer: Renderer, items: seq<Item>, expanded: set<string>): (rows: seq<Row>)
    ensures |rows| == |items|
    ensures forall k :: 0 <= k < |items| ==> rows[k].id == items[k].id
    ensures forall k :: 0 <= k < |items| ==> rows[k].expanded == (items[k].id in expanded)
    ensures renderer == CheckRenderer ==> forall k :: 0 <= k < |items| ==> rows[k] == CheckRow(items[k], expanded)
    ensures renderer == PolishRenderer ==> forall k :: 0 <= k < |items| ==> rows[k] == PolishRow(items[k], expanded)
    ensures renderer == TranslateRenderer ==>
      forall k :: 0 <= k < |items| ==> rows[k] == TranslateRow(items[k], expanded)
  {
    seq(|items|, k requires 0 <= k < |items| =>
      match renderer
      case CheckRenderer => CheckRow(items[k], expanded)
      case PolishRenderer => PolishRow(items[k], expanded)
      case TranslateRenderer => TranslateRow(items[k], expanded))
  }

  /** What `ResultCard` renders for a type, a payload and the expanded items. */
  function Render(kind: string, payload: Payload, expanded: set<string>): (v: View)
    ensures IsDiffFormat(payload) <==> v.DiffCard?
    ensures IsDiffFormat(payload) ==> v == DiffBranch(kind, payload.diffs, payload.issues)
    ensures v.EmptyCard? <==> payload == Items([])
    ensures v.ListCard? <==> payload.Items? && payload.items != [] && RendererFor(kind).Some?
    ensures v.ListCard? ==> Some(v.renderer) == RendererFor(kind) && |v.rows| == |payload.items|
    ensures v.ListCard? ==> v.rows == Rows(v.renderer, payload.items, expanded)
    ensures v.Blank? <==> !IsDiffFormat(payload) && payload != Items([]) && RendererFor(kind).None?
    ensures v.RenderFailure? <==> !IsDiffFormat(payload) && !payload.Items? && RendererFor(kind).Some?
  {
    if IsDiffFormat(payload) then DiffBranch(kind, payload.diffs, payload.issues)
    else if payload == Items([]) then EmptyCard
    else
      match RendererFor(kind)
      case None => Blank
      case Some(renderer) =>
        if payload.Items? then ListCard(renderer, Rows(renderer, payload.items, expanded))
        else RenderFailure
  }

  /** An empty array gives the "nothing found" card whatever the type. */
  lemma EmptyArrayIgnoresType(kind1: string, kind2: string, expanded1: set<string>, expanded2: set<string>)
    ensures Render(kind1, Items([]), expanded1) == Render(kind2, Items([]), expanded2) == EmptyCard
  {
  }

  /** A diff payload with neither diffs nor issues renders an empty card. */
  lemma EmptyDiffPayload(kind: string, expanded: set<string>)
    ensures Render(kind, Record(true, [], []), expanded) == DiffCard(None, [])
  {
  }

  /** In an array view, an item's details are shown exactly when its id
      is in the expansion set, whichever renderer draws it. */
  lemma ExpansionOnlyOpensRows(kind: string, items: seq<Item>, expanded: set<string>)
    requires items != [] && RendererFor(kind).Some?
    ensures var v := Render(kind, Items(items), expanded);
      v.ListCard? && forall k :: 0 <= k < |items| ==> (v.rows[k].details != [] <==> items[k].id in expanded)
  {
    var v := Render(kind, Items(items), expanded);
    forall k | 0 <= k < |items|
      ensures v.rows[k].details != [] <==> items[k].id in expanded
    {
      match RendererFor(kind).value
      case CheckRenderer => assert v.rows[k] == CheckRow(items[k], expanded);
      case PolishRenderer => assert v.rows[k] == PolishRow(items[k], expanded);
      case TranslateRenderer => assert v.rows[k] == TranslateRow(items[k], expanded);
    }
  }

  /** The message `handleAccept(suggestion)` posts. */
  function AcceptMessage(suggestion: string): (m: HostMessage)
    ensures m.command == ApplySuggestion && m.text == suggestion
  {
    HostMessage(ApplySuggestion, suggestion)
  }

  /** A mounted card: its expanded items, every message it has posted to
      the extension host, the messages the host received, and how often it
      has called `onDismiss`. `hasOnDismiss` says whether the caller
      supplied that callback. */
  class Card {
    var expandedItems: set<string>
    var posted: seq<HostMessage>
    var delivered: seq<HostMessage>
    var dismissals: nat
    const kind: string
    const hasOnDismiss: bool

    /** Mounting: no item is expanded, nothing posted, nothing dismissed. */
    constructor(kind: string, hasOnDismiss: bool)
      ensures this.kind == kind && this.hasOnDismiss == hasOnDismiss
      ensures expandedItems == {} && posted == [] && delivered == [] && dismissals == 0
    {
      this.kind := kind;
      this.hasOnDismiss := hasOnDismiss;
      expandedItems := {};
      posted := [];
      delivered := [];
      dismissals := 0;
    }

    /** `toggleExpanded(id)`: copy the set, flip `id` in the copy, store the copy. */
    method ToggleExpanded(id: string)
      modifies this
      ensures expandedItems == Toggle(old(expandedItems), id)
      ensures posted == old(posted) && delivered == old(delivered) && dismissals == old(dismissals)
    {
      var newExpanded := expandedItems;
      if id in newExpanded {
        newExpanded := newExpanded - {id};
      } else {
        newExpanded := newExpanded + {id};
      }
      expandedItems := newExpanded;
    }

    /** `vscodeApi.postMessage(message)`: the host may receive the message,
        or the call throws and it does not. */
    method PostMessage(message: HostMessage) returns (thrown: bool)
      modifies this
      ensures posted == old(posted) + [message]
      ensures delivered == if thrown then old(delivered) else old(delivered) + [message]
      ensures expandedItems == old(expandedItems) && dismissals == old(dismissals)
    {
      thrown :| true;
      posted := posted + [message];
      if !thrown {
        delivered := delivered + [message];
      }
    }

    /** `handleAccept(suggestion)`: posts exactly one apply-suggestion
        message with the suggestion, and returns normally whether or not
        posting throws. */
    method HandleAccept(suggestion: string)
      modifies this
      ensures posted == old(posted) + [AcceptMessage(suggestion)]
      ensures delivered == old(delivered) || delivered == old(delivered) + [AcceptMessage(suggestion)]
      ensures expandedItems == old(expandedItems) && dismissals == old(dismissals)
    {
      var thrown := PostMessage(AcceptMessage(suggestion));
      if thrown {
        // the error is logged and swallowed
      }
    }

    /** `handleReject()`: posts nothing, and calls `onDismiss` once when
        it was supplied. */
    method HandleReject()
      modifies this
      ensures dismissals == old(dismissals) + (if hasOnDismiss then 1 else 0)
      ensures posted == old(posted) && delivered == old(delivered) && expandedItems == old(expandedItems)
    {
      if hasOnDismiss {
        dismissals := dismissals + 1;
      }
    }
  }
}
