/** What the two result components of the webview share: the expansion set
    that a click on an item flips (`toggleExpanded` of ResultCard.tsx and of
    UnifiedResultSection.tsx), and the icon table of the item types, which
    both components spell out identically. */
module Webview {

  /** The set after `toggleExpanded(id)`: `id` removed when it was there,
      added when it was not, every other id as it was. */
  function Toggle(expanded: set<string>, id: string): (r: set<string>)
    ensures id in r <==> id !in expanded
    ensures forall other :: other != id ==> (other in r <==> other in expanded)
  {
    if id in expanded then expanded - {id} else expanded + {id}
  }

  /** Clicking the same item twice restores the set. */
  lemma ToggleInvolutive(expanded: set<string>, id: string)
    ensures Toggle(Toggle(expanded, id), id) == expanded
  {
  }

  /** Clicks on two items may be made in either order. */
  lemma ToggleCommutes(expanded: set<string>, a: string, b: string)
    ensures Toggle(Toggle(expanded, a), b) == Toggle(Toggle(expanded, b), a)
  {
  }

  /** The set after a series of clicks, in order. */
  function ToggleAll(expanded: set<string>, clicks: seq<string>): set<string>
  {
    if clicks == [] then expanded
    else Toggle(ToggleAll(expanded, clicks[..|clicks| - 1]), clicks[|clicks| - 1])
  }

  /** How often `id` occurs among the clicks. */
  function Clicks(clicks: seq<string>, id: string): (n: nat)
    ensures n <= |clicks|
    ensures n == 0 <==> id !in clicks
  {
    if clicks == [] then 0
    else Clicks(clicks[..|clicks| - 1], id) + (if clicks[|clicks| - 1] == id then 1 else 0)
  }

  /** After any series of clicks, an item is expanded exactly when it was
      expanded before and was clicked an even number of times, or was not
      and was clicked an odd number of times. Starting from the empty set
      of a freshly mounted component: exactly the items clicked an odd
      number of times are open. */
  lemma {:induction false} ToggleAllParity(expanded: set<string>, clicks: seq<string>, id: string)
    ensures id in ToggleAll(expanded, clicks) <==> (id in expanded) != (Clicks(clicks, id) % 2 == 1)
  {
    if clicks != [] {
      ToggleAllParity(expanded, clicks[..|clicks| - 1], id);
    }
  }

  /** Clicks on other items never change whether `id` is expanded. */
  lemma {:induction false} OtherClicksIrrelevant(expanded: set<string>, clicks: seq<string>, id: string)
    requires id !in clicks
    ensures id in ToggleAll(expanded, clicks) <==> id in expanded
  {
    ToggleAllParity(expanded, clicks, id);
  }

  /** The icons both components' `getSeverityIcon` give the three severities. */
  const SeverityIcons: map<string, string> := map["error" := "❌", "warning" := "⚠️", "info" := "ℹ️"]

  /** `getSeverityIcon(severity)`: the table's icon, or the component's
      own fallback for any other severity; the fallback, which is not an
      icon of the table, marks exactly the unknown severities. */
  function SeverityIcon(severity: string, fallback: string): (r: string)
    requires fallback !in SeverityIcons.Values
    ensures severity in SeverityIcons ==> r == SeverityIcons[severity]
    ensures r == fallback <==> severity !in SeverityIcons
  {
    if severity in SeverityIcons then SeverityIcons[severity] else fallback
  }

  /** The icons `getTypeIcon` gives the known item types. */
  const TypeIcons: map<string, string> := map[
    "terminology" := "📚", "grammar" := "📝", "style" := "🎨", "consistency" := "🔄",
    "clarity" := "💡", "conciseness" := "✂️", "tone" := "🎭", "structure" := "🏗️"]

  const DefaultTypeIcon := "📄"

  /** `getTypeIcon(type)`: the table's icon, or "📄" for any other type;
      the default marks exactly the unknown types. */
  function TypeIcon(kind: string): (r: string)
    ensures kind in TypeIcons ==> r == TypeIcons[kind]
    ensures r == DefaultTypeIcon <==> kind !in TypeIcons
  {
    if kind in TypeIcons then TypeIcons[kind] else DefaultTypeIcon
  }
}
