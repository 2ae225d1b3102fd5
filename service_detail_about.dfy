/**
 * `ServiceDetailAbout`: a list of tabs with one active tab, whose content is
 * shown in a panel beside the list.
 */
module ServiceDetailAbout {
  import opened Wrappers
  import opened JsStrings

  /** What a tab shows; every field but the title may be absent. */
  datatype TabContent = TabContent(
    title: string,
    description: Option<string>,
    content: Option<string>,
    items: Option<seq<string>>)

  /** A tab: its caption and its content, which the data may omit. */
  datatype Tab = Tab(caption: string, content: Option<TabContent>)

  /** `tabs[activeTab]?.content`: absent when the index is outside the list. */
  function ActiveContent(tabs: seq<Tab>, activeTab: int): (c: Option<TabContent>)
    ensures c.Some? ==> 0 <= activeTab < |tabs| && tabs[activeTab].content == c
    ensures 0 <= activeTab < |tabs| ==> c == tabs[activeTab].content
  {
    if 0 <= activeTab < |tabs| then tabs[activeTab].content else None
  }

  /** One tab button, with its accessibility attributes. */
  datatype TabButton = TabButton(caption: string, selected: bool, id: string, controls: string)

  function TabButtons(tabs: seq<Tab>, activeTab: int): (r: seq<TabButton>)
    ensures |r| == |tabs|
    ensures forall i :: 0 <= i < |r| ==> r[i].caption == tabs[i].caption
    ensures forall i :: 0 <= i < |r| ==> (r[i].selected <==> i == activeTab)
    ensures forall i :: 0 <= i < |r| ==>
              r[i].id == "tab-" + NatToString(i) && r[i].controls == "tab-panel-" + NatToString(i)
  {
    seq(|tabs|, i requires 0 <= i < |tabs| =>
      TabButton(tabs[i].caption, i == activeTab, "tab-" + NatToString(i), "tab-panel-" + NatToString(i)))
  }

  /** Exactly the active tab is selected when it is in range, and none otherwise. */
  lemma SelectedExactlyActive(tabs: seq<Tab>, activeTab: int)
    ensures var b := TabButtons(tabs, activeTab);
            (0 <= activeTab < |tabs| ==> b[activeTab].selected) &&
            (forall i, j :: 0 <= i < j < |b| ==> !(b[i].selected && b[j].selected))
  {
  }

  /** The rendered panel: its ids and the parts of the content that show. */
  datatype Panel = Panel(
    id: string,
    labelledBy: string,
    heading: Option<string>,
    description: Option<string>,
    body: Option<string>,
    items: seq<string>)

  /** A string field shows only when it is non-empty. */
  function Shown(s: Option<string>): (r: Option<string>)
    ensures r.Some? <==> Truthy(s)
    ensures r.Some? ==> r == s
  {
    if Truthy(s) then s else None
  }

  /** The items list shows only when present and non-empty. */
  function ShownItems(items: Option<seq<string>>): (r: seq<string>)
    ensures r != [] <==> items.Some? && items.value != []
    ensures r != [] ==> r == items.value
  {
    if items.Some? then items.value else []
  }

  /** The panel shows exactly when the active tab has content. */
  function RenderPanel(tabs: seq<Tab>, activeTab: int): (p: Option<Panel>)
    ensures p.Some? <==> ActiveContent(tabs, activeTab).Some?
    ensures p.Some? ==> 0 <= activeTab < |tabs|
    ensures p.Some? ==> p.value.id == "tab-panel-" + NatToString(activeTab)
    ensures p.Some? ==> p.value.labelledBy == "tab-" + NatToString(activeTab)
    ensures p.Some? ==> p.value.items == ShownItems(ActiveContent(tabs, activeTab).value.items)
    ensures p.Some? ==> p.value.heading == Shown(Some(ActiveContent(tabs, activeTab).value.title))
    ensures p.Some? ==> p.value.description == Shown(ActiveContent(tabs, activeTab).value.description)
    ensures p.Some? ==> p.value.body == Shown(ActiveContent(tabs, activeTab).value.content)
  {
    match ActiveContent(tabs, activeTab)
    case None => None
    case Some(c) =>
      Some(Panel(
        "tab-panel-" + NatToString(activeTab),
        "tab-" + NatToString(activeTab),
        Shown(Some(c.title)),
        Shown(c.description),
        Shown(c.content),
        ShownItems(c.items)))
  }

  /** The panel belongs to the selected tab: it is controlled by that tab's button. */
  lemma PanelMatchesSelectedTab(tabs: seq<Tab>, activeTab: int)
    requires RenderPanel(tabs, activeTab).Some?
    ensures TabButtons(tabs, activeTab)[activeTab].selected
    ensures TabButtons(tabs, activeTab)[activeTab].controls == RenderPanel(tabs, activeTab).value.id
    ensures RenderPanel(tabs, activeTab).value.labelledBy == TabButtons(tabs, activeTab)[activeTab].id
  {
  }

  /** With no tabs, nothing is selected and no panel shows. */
  lemma NoTabsNoPanel(activeTab: int)
    ensures TabButtons([], activeTab) == []
    ensures RenderPanel([], activeTab) == None
  {
  }

  /** The component's state. */
  class TabsState {
    var activeTab: int

    /** The first tab starts active. */
    constructor ()
      ensures activeTab == 0
    {
      activeTab := 0;
    }

    /** `handleTabClick`: the clicked tab becomes active. */
    method HandleTabClick(index: int)
      modifies this
      ensures activeTab == index
    {
      activeTab := index;
    }
  }

  /** After clicking tab `i` the panel shows that tab's content, and that tab alone is selected. */
  lemma ClickShowsTab(tabs: seq<Tab>, i: nat)
    requires i < |tabs|
    ensures ActiveContent(tabs, i) == tabs[i].content
    ensures forall j :: 0 <= j < |tabs| ==> (TabButtons(tabs, i)[j].selected <==> j == i)
  {
  }
}
