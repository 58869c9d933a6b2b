/** The farmer dashboard shell: a sidebar of seven menu entries, the active
    entry highlighted, and the page the active name selects. */
module FarmerLayout {

  /** The sidebar entries, top to bottom. */
  const MenuNames: seq<string> := ["Home", "My Farm", "Market", "Orders", "Messages", "Settings", "Listings"]

  /** The pages the shell can show. */
  datatype Page = HomePage | MyFarmPage | MarketPage | OrdersPage | MessagesPage | SettingsPage | MyProducts

  /** The page of each menu entry, in menu order. */
  const Pages: seq<Page> := [HomePage, MyFarmPage, MarketPage, OrdersPage, MessagesPage, SettingsPage, MyProducts]

  /** `renderContent`: the page of the entry named `active`, and the home
      page for any other name. */
  function RenderContent(active: string): (r: Page)
    ensures forall i :: 0 <= i < |MenuNames| && active == MenuNames[i] ==> r == Pages[i]
    ensures active !in MenuNames ==> r == HomePage
  {
    match active
    case "Home" => HomePage
    case "My Farm" => MyFarmPage
    case "Market" => MarketPage
    case "Orders" => OrdersPage
    case "Messages" => MessagesPage
    case "Settings" => SettingsPage
    case "Listings" => MyProducts
    case _ => HomePage
  }

  datatype Layout = Layout(active: string)

  const Initial := Layout("Home")

  /** Clicking the entry at `i` makes it active. */
  function Click(l: Layout, i: int): (r: Layout)
    requires 0 <= i < |MenuNames|
    ensures r.active == MenuNames[i]
    ensures RenderContent(r.active) == Pages[i]
  {
    Layout(MenuNames[i])
  }

  /** The entries that are drawn highlighted: those whose name is the active
      one. */
  function Highlighted(l: Layout): (r: set<int>)
    ensures forall i :: i in r <==> 0 <= i < |MenuNames| && MenuNames[i] == l.active
  {
    set i | 0 <= i < |MenuNames| && MenuNames[i] == l.active
  }

  /** The menu names differ, so every entry reaches its own page and no two
      entries reach the same one. */
  lemma DispatchIsInjective()
    ensures forall i, j :: 0 <= i < j < |MenuNames| ==> MenuNames[i] != MenuNames[j]
    ensures forall i, j :: 0 <= i < j < |Pages| ==> Pages[i] != Pages[j]
    ensures |MenuNames| == |Pages| == 7
  {
  }

  /** Starting on Home, and after any click, exactly one entry is highlighted
      and the page shown is that entry's. */
  lemma ExactlyOneHighlighted(l: Layout, i: int)
    requires 0 <= i < |MenuNames|
    ensures Highlighted(Initial) == {0} && RenderContent(Initial.active) == HomePage
    ensures Highlighted(Click(l, i)) == {i}
  {
    DispatchIsInjective();
  }
}
