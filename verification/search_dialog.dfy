/**
 * The search dialog's state: whether it is open, the query being typed, the
 * highlighted row, the body-scroll lock, and where the router and the window
 * are. The rows shown are the ranking of the query over the catalog.
 */
module SearchDialog {
  import opened Wrappers
  import opened Text
  import opened SearchIndex
  import Search

  /** The keys `onKeyDown` tells apart; every other key is ignored. */
  datatype Key = Escape | ArrowDown | ArrowUp | Enter | OtherKey

  /**
   * ArrowDown: `Math.min(active + 1, len - 1)`. It moves one row down, stays on
   * the last row, and gives -1 when there are no rows.
   */
  function NextDown(active: int, len: nat): (r: int)
    ensures len == 0 && active >= -2 ==> r == -1
    ensures active >= -1 && len > 0 ==> 0 <= r < len
    ensures -1 <= active < len - 1 ==> r == active + 1
    ensures active >= len - 1 ==> r == len - 1
    ensures active >= -1 ==> r >= -1
  {
    if active + 1 < len - 1 then active + 1 else len - 1
  }

  /** ArrowUp: `Math.max(active - 1, 0)`. It moves one row up and stays on the first row. */
  function NextUp(active: int): (r: int)
    ensures r >= 0
    ensures active <= 1 ==> r == 0
    ensures active >= 1 ==> r == active - 1
  {
    if active - 1 > 0 then active - 1 else 0
  }

  /** `results[active]`: a row only when the index exists (a negative index reads `undefined`). */
  function Selected(results: seq<SearchItem>, active: int): (r: Option<SearchItem>)
    ensures r.Some? <==> 0 <= active < |results|
    ensures r.Some? ==> r.value == results[active]
  {
    if 0 <= active < |results| then Some(results[active]) else None
  }

  /**
   * The global shortcut: Ctrl or Meta with "k" in either case, or "/" with
   * neither modifier held.
   */
  predicate IsSearchHotkey(key: string, ctrl: bool, meta: bool)
    ensures IsSearchHotkey(key, ctrl, meta) <==>
              ((ctrl || meta) && (key == "k" || key == "K")) || (!ctrl && !meta && key == "/")
  {
    LowerIsK(key);
    ((ctrl || meta) && ToLower(key) == "k") || (!ctrl && !meta && key == "/")
  }

  /** Lower-casing gives "k" exactly for "k" and "K". */
  lemma LowerIsK(key: string)
    ensures ToLower(key) == "k" <==> key == "k" || key == "K"
  {
    if ToLower(key) == "k" {
      assert |key| == 1 && LowerChar(key[0]) == 'k';
      assert key == [key[0]];
    }
  }

  class Dialog {
    /** The `open` prop. */
    var open: bool
    var query: string
    var active: int
    /** `document.body.style.overflow == "hidden"`. */
    var scrollLocked: bool
    /** The router's current path. */
    var location: string
    /** The window's vertical scroll offset. */
    var scrollY: int

    /** The open effect keeps the lock in step with `open`; `active` never drops below -1. */
    predicate Valid()
      reads this
    {
      scrollLocked == open && active >= -1
    }

    /** The rows on screen: the ranking of the current query. */
    function Shown(): seq<SearchItem>
      reads this
    {
      Search.Results(Catalog, query)
    }

    /** Mounted closed, on page `path` scrolled to `y`. */
    constructor(path: string, y: int)
      ensures Valid()
      ensures !open && query == "" && active == 0 && location == path && scrollY == y
    {
      open := false;
      query := "";
      active := 0;
      scrollLocked := false;
      location := path;
      scrollY := y;
    }

    /**
     * The parent sets the `open` prop; the effect runs only when it changes.
     * Opening clears the query, highlights the first row and locks scrolling;
     * closing unlocks it and keeps the query and the highlight.
     */
    method SetOpen(o: bool)
      requires Valid()
      modifies this
      ensures Valid()
      ensures open == o && scrollLocked == o
      ensures o && !old(open) ==> query == "" && active == 0
      ensures !(o && !old(open)) ==> query == old(query) && active == old(active)
      ensures location == old(location) && scrollY == old(scrollY)
    {
      if o != open {
        open := o;
        if o {
          query := "";
          active := 0;
          scrollLocked := true;
        } else {
          scrollLocked := false;
        }
      }
    }

    /** Typing replaces the query; the highlight is not reset. */
    method EditQuery(q: string)
      requires open && Valid()
      modifies this
      ensures Valid()
      ensures query == q
      ensures open == old(open) && active == old(active) && scrollLocked == old(scrollLocked)
      ensures location == old(location) && scrollY == old(scrollY)
    {
      query := q;
    }

    /** `go`: close the dialog, navigate to the row's path and scroll the window to the top. */
    method Go(item: SearchItem)
      requires Valid()
      modifies this
      ensures Valid()
      ensures !open && !scrollLocked && location == item.path && scrollY == 0
      ensures query == old(query) && active == old(active)
    {
      SetOpen(false);
      location := item.path;
      scrollY := 0;
    }

    /** Hovering a row highlights it. */
    method Hover(i: int)
      requires open && Valid() && 0 <= i < |Shown()|
      modifies this
      ensures Valid()
      ensures active == i
      ensures open == old(open) && query == old(query) && scrollLocked == old(scrollLocked)
      ensures location == old(location) && scrollY == old(scrollY)
    {
      active := i;
    }

    /** Clicking a row goes to it. */
    method Click(i: int)
      requires open && Valid() && 0 <= i < |Shown()|
      modifies this
      ensures Valid()
      ensures !open && location == old(Shown())[i].path && scrollY == 0
      ensures query == old(query) && active == old(active)
    {
      Go(Shown()[i]);
    }

    /**
     * `onKeyDown`. Escape closes without navigating; the arrows move the
     * highlight; Enter goes to the highlighted row when it exists and otherwise
     * changes nothing; any other key changes nothing.
     */
    method KeyDown(k: Key)
      requires open && Valid()
      modifies this
      ensures Valid()
      ensures query == old(query)
      ensures k == Escape ==>
                !open && active == old(active) && location == old(location) && scrollY == old(scrollY)
      ensures k == ArrowDown ==>
                open && active == NextDown(old(active), |old(Shown())|) &&
                location == old(location) && scrollY == old(scrollY)
      ensures k == ArrowUp ==>
                open && active == NextUp(old(active)) &&
                location == old(location) && scrollY == old(scrollY)
      ensures k == Enter && Selected(old(Shown()), old(active)).Some? ==>
                !open && active == old(active) &&
                location == old(Shown())[old(active)].path && scrollY == 0
      ensures k == Enter && Selected(old(Shown()), old(active)).None? ==>
                open && active == old(active) && location == old(location) && scrollY == old(scrollY)
      ensures k == OtherKey ==>
                open && active == old(active) && location == old(location) && scrollY == old(scrollY)
    {
      match k
      case Escape =>
        SetOpen(false);
      case ArrowDown =>
        active := NextDown(active, |Shown()|);
      case ArrowUp =>
        active := NextUp(active);
      case Enter =>
        var row := Selected(Shown(), active);
        if row.Some? {
          Go(row.value);
        }
      case OtherKey =>
    }
  }
}
