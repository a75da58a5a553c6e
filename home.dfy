/**
 * The home page (src/Home.tsx): three tabs, one of them active, and the one
 * paragraph that belongs to it.
 */
module Home {

  const Tabs: seq<string> := ["For you", "Fashion", "Skincare"]
  const FirstTab := "For you"

  /** The paragraph text the page shows for a tab. */
  function Paragraph(tab: string): string {
    "นี่คือหน้า " + tab
  }

  /** The three conditional paragraphs, in source order; each shows only for its own tab. */
  function Paragraphs(activeTab: string): (ps: seq<string>)
    ensures |ps| <= 1
    ensures |ps| == 1 <==> activeTab in Tabs
    ensures |ps| == 1 ==> ps[0] == Paragraph(activeTab)
  {
    (if activeTab == "For you" then [Paragraph("For you")] else [])
    + (if activeTab == "Fashion" then [Paragraph("Fashion")] else [])
    + (if activeTab == "Skincare" then [Paragraph("Skincare")] else [])
  }

  /** How one tab is drawn. */
  datatype TabLook = TabLook(text: string, className: string, bold: bool, color: string, underline: bool)

  function LookOf(tab: string, activeTab: string): (t: TabLook)
    ensures t.text == tab
    ensures t.bold <==> tab == activeTab
    ensures t.underline <==> tab == activeTab
    ensures t.color == (if tab == activeTab then "black" else "gray")
    ensures t.className == (if tab == activeTab then "tab active" else "tab ")
  {
    var active := tab == activeTab;
    TabLook(tab, if active then "tab active" else "tab ", active, if active then "black" else "gray", active)
  }

  /** `tabs.map(...)`: one look per tab, in order. */
  function TabBar(activeTab: string): (ts: seq<TabLook>)
    ensures |ts| == |Tabs|
    ensures forall i :: 0 <= i < |Tabs| ==> ts[i] == LookOf(Tabs[i], activeTab)
  {
    seq(|Tabs|, i requires 0 <= i < |Tabs| => LookOf(Tabs[i], activeTab))
  }

  /** With a valid active tab, exactly one tab of the bar is drawn bold and underlined: the active one. */
  lemma ExactlyOneHighlighted(activeTab: string, i: nat, j: nat)
    requires activeTab in Tabs
    requires i < |Tabs| && j < |Tabs|
    requires TabBar(activeTab)[i].bold && TabBar(activeTab)[j].bold
    ensures i == j && Tabs[i] == activeTab
  {
  }

  class HomePage {
    var activeTab: string

    ghost predicate Valid()
      reads this
    {
      activeTab in Tabs
    }

    constructor ()
      ensures Valid() && activeTab == FirstTab
    {
      activeTab := FirstTab;
    }

    /** Clicking a tab of the bar makes it the active one. */
    method ClickTab(tab: string)
      requires tab in Tabs
      modifies this
      ensures Valid() && activeTab == tab
    {
      activeTab := tab;
    }

    function Shown(): (ps: seq<string>)
      reads this
      requires Valid()
      ensures ps == [Paragraph(activeTab)]
    {
      Paragraphs(activeTab)
    }
  }
}
