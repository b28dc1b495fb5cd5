/**
 * The page shell: the language held by the application, the header's
 * mobile-menu flag, the navigation links and which one is highlighted.
 */
module Shell {
  import opened Types
  import opened Marks

  // ---------------------------------------------------------------------
  // Language
  // ---------------------------------------------------------------------

  /** The language the language button switches to: always the other one. */
  function Toggle(lang: Language): (r: Language)
    ensures r != lang
  {
    if lang == Am then En else Am
  }

  /** Switching twice restores the language. */
  lemma ToggleTwice(lang: Language)
    ensures Toggle(Toggle(lang)) == lang
  {
  }

  /** A language's own name, as the language buttons write it. */
  function LanguageName(lang: Language): (s: string)
  {
    match lang
    case Am => "አማርኛ"
    case En => "English"
  }

  /**
   * The label of the language button (desktop and mobile alike): the name
   * of the language a click switches to, never the current one.
   */
  function LanguageButtonLabel(lang: Language): (s: string)
    ensures s == LanguageName(Toggle(lang))
    ensures s != LanguageName(lang)
  {
    if lang == Am then "English" else "አማርኛ"
  }

  // ---------------------------------------------------------------------
  // Navigation
  // ---------------------------------------------------------------------

  /**
   * The navigation labels of one language. Their text lives in the
   * translation table, which is not part of this model, so they are given.
   */
  datatype NavLabels = NavLabels(home: string, about: string, services: string, gallery: string, contact: string)

  /** One link of the header: its label and the route it leads to. */
  datatype NavItem = NavItem(name: string, path: string)

  /** The routes of the five pages, in header order. */
  const RoutePaths: seq<string> := ["/", "/about", "/services", "/gallery", "/contact"]

  /** The header's links for the labels of the current language. */
  function NavItems(nav: NavLabels): (r: seq<NavItem>)
    ensures |r| == |RoutePaths| == 5
    ensures forall k :: 0 <= k < |r| ==> r[k].path == RoutePaths[k]
    ensures forall j, k :: 0 <= j < k < |r| ==> r[j].path != r[k].path
    ensures [r[0].name, r[1].name, r[2].name, r[3].name, r[4].name]
         == [nav.home, nav.about, nav.services, nav.gallery, nav.contact]
  {
    [
      NavItem(nav.home, "/"),
      NavItem(nav.about, "/about"),
      NavItem(nav.services, "/services"),
      NavItem(nav.gallery, "/gallery"),
      NavItem(nav.contact, "/contact")
    ]
  }

  /** Per link: whether it is drawn highlighted for the current location. */
  function Highlighted(pathname: string, items: seq<NavItem>): (r: seq<bool>)
    ensures |r| == |items|
    ensures forall k :: 0 <= k < |items| ==> (r[k] <==> items[k].path == pathname)
  {
    seq(|items|, k requires 0 <= k < |items| => items[k].path == pathname)
  }

  /** No two links lead to the same route. */
  ghost predicate DistinctPaths(items: seq<NavItem>)
  {
    forall j, k :: 0 <= j < |items| && 0 <= k < |items| && j != k ==> items[j].path != items[k].path
  }

  /**
   * With distinct routes, the link whose route is the current location is
   * the only one highlighted, and no link is when none matches.
   */
  lemma HighlightIsUnique(pathname: string, items: seq<NavItem>)
    requires DistinctPaths(items)
    ensures CountTrue(Highlighted(pathname, items)) == (if exists k :: 0 <= k < |items| && items[k].path == pathname then 1 else 0)
    ensures CountTrue(Highlighted(pathname, items)) <= 1
  {
    var h := Highlighted(pathname, items);
    if k :| 0 <= k < |items| && items[k].path == pathname {
      assert OnlyAt(h, k);
      OnlyAtCountsOne(h, k);
    }
  }

  /**
   * In the header, at most one link is highlighted; exactly one when the
   * location is one of the five routes, and it is the link at that route.
   */
  lemma HeaderHighlight(pathname: string, nav: NavLabels)
    ensures CountTrue(Highlighted(pathname, NavItems(nav))) == (if pathname in RoutePaths then 1 else 0)
    ensures forall k :: 0 <= k < 5 && RoutePaths[k] == pathname ==> OnlyAt(Highlighted(pathname, NavItems(nav)), k)
  {
    var items := NavItems(nav);
    assert DistinctPaths(items);
    HighlightIsUnique(pathname, items);
    assert (exists k :: 0 <= k < |items| && items[k].path == pathname) <==> pathname in RoutePaths by {
      if pathname in RoutePaths {
        var k :| 0 <= k < 5 && RoutePaths[k] == pathname;
        assert items[k].path == pathname;
      }
    }
  }

  // ---------------------------------------------------------------------
  // The shell's state
  // ---------------------------------------------------------------------

  /**
   * The state the shell keeps between clicks: the application's language,
   * the header's mobile-menu flag, and the location the router shows.
   */
  class Shell {
    var lang: Language
    var isOpen: bool
    var pathname: string

    /** The application starts in Amharic with the mobile menu closed. */
    constructor (pathname: string)
      ensures lang == Am && !isOpen && this.pathname == pathname
    {
      lang := Am;
      isOpen := false;
      this.pathname := pathname;
    }

    /** The desktop language button. */
    method ToggleLang()
      modifies this
      ensures lang == Toggle(old(lang))
      ensures isOpen == old(isOpen) && pathname == old(pathname)
    {
      lang := if lang == Am then En else Am;
    }

    /** The burger button opens a closed menu and closes an open one. */
    method ToggleMenu()
      modifies this
      ensures isOpen == !old(isOpen)
      ensures lang == old(lang) && pathname == old(pathname)
    {
      isOpen := !isOpen;
    }

    /** A desktop link: the location becomes its route; the menu is untouched. */
    method FollowLink(item: NavItem)
      modifies this
      ensures pathname == item.path
      ensures lang == old(lang) && isOpen == old(isOpen)
    {
      pathname := item.path;
    }

    /** A link of the mobile menu, which exists only while the menu is open. */
    method ChooseMobileLink(item: NavItem)
      requires isOpen
      modifies this
      ensures pathname == item.path && !isOpen
      ensures lang == old(lang)
    {
      pathname := item.path;
      isOpen := false;
    }

    /** The language button of the mobile menu: switches and closes. */
    method MobileToggleLang()
      requires isOpen
      modifies this
      ensures lang == Toggle(old(lang)) && !isOpen
      ensures pathname == old(pathname)
    {
      lang := if lang == Am then En else Am;
      isOpen := false;
    }
  }

  /**
   * Choosing the link at route k of the header makes that link, and only
   * that link, the highlighted one.
   */
  method ChooseAndHighlight(s: Shell, nav: NavLabels, k: nat) returns (h: seq<bool>)
    requires k < 5
    modifies s
    ensures s.pathname == RoutePaths[k] && s.lang == old(s.lang) && s.isOpen == old(s.isOpen)
    ensures h == Highlighted(s.pathname, NavItems(nav)) && OnlyAt(h, k)
  {
    s.FollowLink(NavItems(nav)[k]);
    HeaderHighlight(s.pathname, nav);
    h := Highlighted(s.pathname, NavItems(nav));
  }
}
