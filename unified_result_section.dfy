/** The unified result section of the webview
    (packages/ui/src/components/UnifiedResultSection.tsx): a titled list of
    check or polish items, each showing one icon and its title, and its
    details once clicked open. */
module UnifiedResultSection {
  import opened Wrappers
  import opened Webview

  /** One item of the section. `severity` and `details` are the empty
      string when the item has none. */
  datatype SectionItem = SectionItem(
    id: string,
    kind: string,
    title: string,
    description: string,
    details: string,
    severity: string)

  /** One drawn item: its icon, its title, whether it is open, and its details when shown. */
  datatype ItemView = ItemView(id: string, icon: string, title: string, expanded: bool, details: Option<string>)

  /** What the section renders: nothing at all, or the header with the
      number of items and one entry per item. */
  datatype SectionView =
    | Nothing
    | Section(title: string, count: nat, entries: seq<ItemView>)

  /** The section's `getSeverityIcon` falls back to "✨". */
  const DefaultSeverityIcon := "✨"

  /** The icon of an item: by its severity when it has one, by its type
      otherwise. */
  function ItemIcon(item: SectionItem): (r: string)
    ensures item.severity != "" ==> r == SeverityIcon(item.severity, DefaultSeverityIcon)
    ensures item.severity == "" ==> r == TypeIcon(item.kind)
  {
    if item.severity != "" then SeverityIcon(item.severity, DefaultSeverityIcon) else TypeIcon(item.kind)
  }

  /** A set severity always decides the icon: an unrecognised one shows
      "✨", never the icon of the item's type. */
  lemma SeverityHidesType(item: SectionItem)
    requires item.severity != "" && item.severity !in SeverityIcons
    ensures ItemIcon(item) == DefaultSeverityIcon
    ensures ItemIcon(item) != TypeIcon(item.kind)
  {
  }

  /** Items without a severity are told apart by type alone: two such
      items of different known types show different icons. */
  lemma TypeIconsDistinguish(item1: SectionItem, item2: SectionItem)
    requires item1.severity == "" && item2.severity == ""
    requires item1.kind in TypeIcons && item2.kind in TypeIcons && item1.kind != item2.kind
    ensures ItemIcon(item1) != ItemIcon(item2)
  {
  }

  /** One item as drawn: its details are shown when it is expanded and has details. */
  function EntryOf(item: SectionItem, expanded: set<string>): (r: ItemView)
    ensures r.id == item.id && r.icon == ItemIcon(item) && r.title == item.title
    ensures r.expanded <==> item.id in expanded
    ensures r.details.Some? <==> item.id in expanded && item.details != ""
    ensures r.details.Some? ==> r.details.value == item.details
  {
    var open := item.id in expanded;
    ItemView(item.id, ItemIcon(item), item.title, open,
      if open && item.details != "" then Some(item.details) else None)
  }

  /** What the section renders for its title, its items and the expanded ids. */
  function Render(title: string, items: seq<SectionItem>, expanded: set<string>): (v: SectionView)
    ensures v.Nothing? <==> items == []
    ensures v.Section? ==> v.title == title && v.count == |items| == |v.entries|
    ensures v.Section? ==> forall k :: 0 <= k < |items| ==> v.entries[k] == EntryOf(items[k], expanded)
  {
    if items == [] then Nothing
    else Section(title, |items|, seq(|items|, k requires 0 <= k < |items| => EntryOf(items[k], expanded)))
  }

  /** Clicking an item opens or closes its own details and leaves every
      other item as drawn before. */
  lemma ClickChangesOneEntry(title: string, items: seq<SectionItem>, expanded: set<string>, id: string)
    requires items != []
    ensures var before, after := Render(title, items, expanded), Render(title, items, Toggle(expanded, id));
      forall k :: 0 <= k < |items| ==>
        if items[k].id == id then after.entries[k].expanded != before.entries[k].expanded
        else after.entries[k] == before.entries[k]
  {
  }

  /** A mounted section. */
  class ResultSection {
    var expandedItems: set<string>
    const title: string
    const sectionType: string

    /** Mounting: no item is expanded. */
    constructor(title: string, sectionType: string)
      ensures this.title == title && this.sectionType == sectionType
      ensures expandedItems == {}
    {
      this.title := title;
      this.sectionType := sectionType;
      expandedItems := {};
    }

    /** `toggleExpanded(id)`: copy the set, flip `id` in the copy, store the copy. */
    method ToggleExpanded(id: string)
      modifies this
      ensures expandedItems == Toggle(old(expandedItems), id)
    {
      var newExpanded := expandedItems;
      if id in newExpanded {
        newExpanded := newExpanded - {id};
      } else {
        newExpanded := newExpanded + {id};
      }
      expandedItems := newExpanded;
    }
  }
}
