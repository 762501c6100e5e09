/**
 * The site frame (src/Layout.tsx): the sixteen navigation items, the split
 * into a six-item bar and a "More" menu, the active-item rule, and the
 * navigation bar's scroll and mobile-menu state.
 */
module Layout {
  import PageUrl
  import Text

  /**
   * A navigation entry: its label, and the component name its path is built
   * from, written as the list of its capitalised words ("ProjectBackground"
   * is `["Project", "Background"]`).
   */
  datatype NavItem = NavItem(title: string, words: seq<string>)

  const NavigationItems: seq<NavItem> := [
    NavItem("Home", ["Home"]),
    NavItem("Project Background", ["Project", "Background"]),
    NavItem("System Diagram", ["System", "Diagram"]),
    NavItem("Parts List", ["Parts", "List"]),
    NavItem("Clamp & Enclosure", ["Clamp", "Enclosure"]),
    NavItem("Firmware", ["Firmware"]),
    NavItem("Mobile App", ["Mobile", "App"]),
    NavItem("Cloud & Data", ["Cloud", "Data"]),
    NavItem("Testing & Results", ["Testing", "Results"]),
    NavItem("Sustainability", ["Sustainability"]),
    NavItem("Timeline", ["Timeline"]),
    NavItem("Future Work", ["Future", "Work"]),
    NavItem("Professional Components", ["Professional", "Components"]),
    NavItem("Lessons Learned", ["Lessons", "Learned"]),
    NavItem("Documentation", ["Documentation"]),
    NavItem("Team & Contact", ["Team", "Contact"])
  ]

  /** The words written together. */
  function Concat(words: seq<string>): (r: string)
    ensures |words| == 1 ==> r == words[0]
  {
    if words == [] then "" else words[0] + Concat(words[1..])
  }

  /** The component name handed to `createPageUrl`. */
  function Name(item: NavItem): string {
    Concat(item.words)
  }

  /** `createPageUrl(name)`: the item's link target. */
  function Url(item: NavItem): (r: string)
    ensures |r| >= 1 && r[0] == '/'
    ensures Text.NoSpace(r) && Text.NoUpper(r)
  {
    PageUrl.CreatePageUrl(Name(item))
  }

  /** How many items the desktop bar shows. */
  const BarSize := 6

  /** `items.slice(0, 6)`: at most the first six items. */
  function BarItems<T>(items: seq<T>): (r: seq<T>)
    ensures |r| <= BarSize && r <= items
    ensures |items| >= BarSize ==> |r| == BarSize
  {
    if |items| <= BarSize then items else items[..BarSize]
  }

  /** `items.slice(6)`: everything after the first six. */
  function MoreItems<T>(items: seq<T>): (r: seq<T>)
    ensures |r| == if |items| <= BarSize then 0 else |items| - BarSize
  {
    if |items| <= BarSize then [] else items[BarSize..]
  }

  /** The bar and the "More" menu together show every item once, in order. */
  lemma BarAndMorePartition<T>(items: seq<T>)
    ensures BarItems(items) + MoreItems(items) == items
    ensures forall i :: 0 <= i < |MoreItems(items)| ==> MoreItems(items)[i] == items[BarSize + i]
  {
  }

  /** For the site's sixteen items the bar shows six and "More" the other ten. */
  lemma SiteSplit()
    ensures |NavigationItems| == 16
    ensures BarItems(NavigationItems) == NavigationItems[..6]
    ensures MoreItems(NavigationItems) == NavigationItems[6..] && |MoreItems(NavigationItems)| == 10
    ensures BarItems(NavigationItems)[0].title == "Home" && MoreItems(NavigationItems)[0].title == "Mobile App"
  {
  }

  /** `location.pathname === item.url`, the same rule in the bar, the menu and the mobile list. */
  predicate IsActive(pathname: string, item: NavItem)
    ensures IsActive(pathname, item) ==> |pathname| >= 1 && pathname[0] == '/'
  {
    pathname == Url(item)
  }

  /** The scroll-driven part of the navigation bar, and the mobile menu. */
  class NavBar {
    /** Past 20 pixels: the bar gets its solid background. */
    var scrolled: bool
    /** Scrolled down past 100 pixels: the bar slides away. */
    var hidden: bool
    var lastScrollY: int
    var menuOpen: bool
    /** The router's current path. */
    var pathname: string

    /** The flags always describe the last scroll position seen. */
    predicate Valid()
      reads this
    {
      scrolled == (lastScrollY > 20) && (hidden ==> lastScrollY > 100)
    }

    constructor(path: string)
      ensures Valid()
      ensures !scrolled && !hidden && lastScrollY == 0 && !menuOpen && pathname == path
    {
      scrolled, hidden, lastScrollY := false, false, 0;
      menuOpen := false;
      pathname := path;
    }

    /**
     * `handleScroll` at offset `y`: solid past 20, hidden only when moving down
     * and past 100, and `y` remembered for the next event.
     */
    method Scroll(y: int)
      requires Valid()
      modifies this
      ensures Valid()
      ensures scrolled == (y > 20)
      ensures hidden == (y > old(lastScrollY) && y > 100)
      ensures lastScrollY == y
      ensures menuOpen == old(menuOpen) && pathname == old(pathname)
    {
      scrolled := y > 20;
      hidden := y > lastScrollY && y > 100;
      lastScrollY := y;
    }

    /** The menu button flips the mobile menu. */
    method ToggleMenu()
      requires Valid()
      modifies this
      ensures Valid()
      ensures menuOpen == !old(menuOpen)
      ensures scrolled == old(scrolled) && hidden == old(hidden) && lastScrollY == old(lastScrollY)
      ensures pathname == old(pathname)
    {
      menuOpen := !menuOpen;
    }

    /**
     * The router moves to `path`; the effect keyed on the pathname closes the
     * mobile menu when the path actually changes.
     */
    method Navigate(path: string)
      requires Valid()
      modifies this
      ensures Valid()
      ensures pathname == path
      ensures menuOpen == (old(menuOpen) && path == old(pathname))
      ensures scrolled == old(scrolled) && hidden == old(hidden) && lastScrollY == old(lastScrollY)
    {
      if path != pathname {
        pathname := path;
        menuOpen := false;
      }
    }
  }
}
