/** The application sidebar: a constant navigation tree of plain links and
    collapsible groups, where a group opens and is highlighted when the
    current path is one of its children's urls. */
module AppSidebar {
  import opened Collections

  datatype SubItem = SubItem(title: string, url: string)

  /** A top-level entry: a plain link, or a group of links without a url of
      its own. */
  datatype NavItem =
    | Link(title: string, url: string)
    | Group(title: string, items: seq<SubItem>)

  /** The sidebar's entries, top to bottom. */
  function NavigationItems(): seq<NavItem>
  {
    [ Link("Dashboard", "/dashboard"),
      Group("Forecast", [ SubItem("Baseline Forecast", "/forecast/baseline"),
                          SubItem("Bottom-up Forecast", "/forecast/bottom-up"),
                          SubItem("Finalization", "/forecast/finalization") ]),
      Group("Inventory", [ SubItem("Planning", "/inventory/planning"),
                           SubItem("Alerts & Signals", "/inventory/alerts") ]),
      Group("Crop GIS", [ SubItem("Map View", "/crop-gis") ]),
      Link("Reports", "/reports"),
      Link("Settings", "/settings") ]
  }

  /** `isActive`: a path is active when it is the current path itself; no
      prefix or parent matching. */
  predicate IsActive(currentPath: string, path: string): (active: bool)
    ensures active <==> |currentPath| == |path| && forall i :: 0 <= i < |path| ==> currentPath[i] == path[i]
    ensures |path| != |currentPath| ==> !active
  {
    currentPath == path
  }

  /** `isGroupActive`: whether any child's url is active. */
  function IsGroupActive(currentPath: string, items: seq<SubItem>): (active: bool)
    ensures active <==> exists i :: 0 <= i < |items| && IsActive(currentPath, items[i].url)
    ensures items == [] ==> !active
  {
    if items == [] then false
    else
      var rest := IsGroupActive(currentPath, items[1..]);
      assert forall i :: 1 <= i < |items| ==> items[i] == items[1..][i - 1];
      IsActive(currentPath, items[0].url) || rest
  }

  /** How a group renders: whether it starts expanded and whether its
      button is highlighted. */
  datatype GroupView = GroupView(title: string, defaultOpen: bool, highlighted: bool)

  function RenderGroup(currentPath: string, title: string, items: seq<SubItem>): (v: GroupView)
    ensures v.title == title
    ensures v.defaultOpen == v.highlighted
    ensures v.highlighted <==> exists i :: 0 <= i < |items| && items[i].url == currentPath
  {
    var active := IsGroupActive(currentPath, items);
    GroupView(title, active, active)
  }

  function SubUrls(items: seq<SubItem>): (urls: seq<string>)
    ensures |urls| == |items|
    ensures forall i :: 0 <= i < |items| ==> urls[i] == items[i].url
  {
    if items == [] then [] else [items[0].url] + SubUrls(items[1..])
  }

  /** The urls an entry links to: its own, or its children's. */
  function ItemUrls(item: NavItem): seq<string>
  {
    match item
    case Link(_, url) => [url]
    case Group(_, items) => SubUrls(items)
  }

  /** Every url in the tree, entry by entry. */
  function AllUrls(nav: seq<NavItem>): (urls: seq<string>)
    ensures forall k :: 0 <= k < |nav| ==> forall u <- ItemUrls(nav[k]) :: u in urls
  {
    if nav == [] then []
    else
      var rest := AllUrls(nav[1..]);
      assert forall k :: 1 <= k < |nav| ==> nav[k] == nav[1..][k - 1];
      ItemUrls(nav[0]) + rest
  }

  /** Whether an entry is a group that the current path opens. */
  predicate GroupIsActive(currentPath: string, item: NavItem)
  {
    item.Group? && IsGroupActive(currentPath, item.items)
  }

  /** How many groups the current path opens. */
  function ActiveGroupCount(currentPath: string, nav: seq<NavItem>): (n: nat)
    ensures n <= |nav|
    ensures currentPath !in AllUrls(nav) ==> n == 0
  {
    if nav == [] then 0
    else
      ActiveGroupLinksToPath(currentPath, nav[0]);
      (if GroupIsActive(currentPath, nav[0]) then 1 else 0) + ActiveGroupCount(currentPath, nav[1..])
  }

  /** A group the current path opens links to that path. */
  lemma ActiveGroupLinksToPath(currentPath: string, item: NavItem)
    ensures GroupIsActive(currentPath, item) ==> currentPath in ItemUrls(item)
  {
  }

  /** When no url occurs twice in the tree, a path opens at most one group. */
  lemma {:induction false} AtMostOneGroupActive(currentPath: string, nav: seq<NavItem>)
    requires NoDuplicates(AllUrls(nav))
    ensures ActiveGroupCount(currentPath, nav) <= 1
  {
    if nav != [] {
      assert AllUrls(nav) == ItemUrls(nav[0]) + AllUrls(nav[1..]);
      NoDuplicatesAppend(ItemUrls(nav[0]), AllUrls(nav[1..]));
      AtMostOneGroupActive(currentPath, nav[1..]);
      ActiveGroupLinksToPath(currentPath, nav[0]);
    }
  }

  /** The tree's urls, in order. */
  lemma NavigationUrls()
    ensures AllUrls(NavigationItems()) ==
              [ "/dashboard", "/forecast/baseline", "/forecast/bottom-up", "/forecast/finalization",
                "/inventory/planning", "/inventory/alerts", "/crop-gis", "/reports", "/settings" ]
  {
  }

  /** In the sidebar as built, whatever the path, at most one group is open
      and highlighted. */
  lemma SidebarOpensAtMostOneGroup(currentPath: string)
    ensures ActiveGroupCount(currentPath, NavigationItems()) <= 1
  {
    NavigationUrlsDistinct();
    AtMostOneGroupActive(currentPath, NavigationItems());
  }

  /** No url occurs twice in the sidebar. */
  lemma NavigationUrlsDistinct()
    ensures NoDuplicates(AllUrls(NavigationItems()))
  {
    NavigationUrls();
  }

  /** The paths the router serves; any other path shows the not-found page. */
  function RoutePaths(): seq<string>
  {
    [ "/", "/dashboard", "/forecast/baseline", "/forecast/bottom-up", "/forecast/finalization",
      "/inventory/planning", "/inventory/alerts", "/crop-gis", "/reports", "/settings" ]
  }

  /** Every link in the sidebar leads to a route the router serves. */
  lemma EveryLinkIsRouted()
    ensures forall u <- AllUrls(NavigationItems()) :: u in RoutePaths()
  {
    NavigationUrls();
  }

  /** A group opens only for its children's exact urls: on a child's page
      its group is open, while the root path and a deeper path under a
      group open nothing. */
  lemma SampleGroupActivity()
    ensures IsGroupActive("/forecast/bottom-up", NavigationItems()[1].items)
    ensures !IsGroupActive("/forecast/bottom-up", NavigationItems()[2].items)
    ensures ActiveGroupCount("/", NavigationItems()) == 0
    ensures ActiveGroupCount("/forecast/baseline/sku", NavigationItems()) == 0
  {
    NavigationUrls();
    assert NavigationItems()[1].items[1].url == "/forecast/bottom-up";
  }
}
