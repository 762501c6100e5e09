/**
 * The application's route table (src/App.tsx): sixteen page routes, a
 * redirect from "/home" to "/", and a catch-all that redirects to "/".
 * Matching is exact string equality, first listed route first.
 */
module Routes {
  import opened Wrappers
  import SearchIndex

  /** The sixteen pages the router can render. */
  datatype Page =
    | Home | ProjectBackground | SystemDiagram | PartsList | ClampEnclosure | Firmware
    | MobileApp | CloudData | TestingResults | Sustainability | Timeline | FutureWork
    | ProfessionalComponents | LessonsLearned | Documentation | TeamContact

  /** What a route does: render a page, or navigate (replacing history) to another path. */
  datatype Element = Render(page: Page) | Redirect(to: string)

  datatype Route = Route(path: string, element: Element)

  /** The listed routes, in order; the catch-all `*` comes after them. */
  const Table: seq<Route> := [
    Route("/", Render(Home)),
    Route("/home", Redirect("/")),
    Route("/project-background", Render(ProjectBackground)),
    Route("/system-diagram", Render(SystemDiagram)),
    Route("/parts-list", Render(PartsList)),
    Route("/clamp-enclosure", Render(ClampEnclosure)),
    Route("/firmware", Render(Firmware)),
    Route("/mobile-app", Render(MobileApp)),
    Route("/cloud-data", Render(CloudData)),
    Route("/testing-results", Render(TestingResults)),
    Route("/sustainability", Render(Sustainability)),
    Route("/timeline", Render(Timeline)),
    Route("/future-work", Render(FutureWork)),
    Route("/professional-components", Render(ProfessionalComponents)),
    Route("/lessons-learned", Render(LessonsLearned)),
    Route("/documentation", Render(Documentation)),
    Route("/team-contact", Render(TeamContact))
  ]

  /** The element of `*`. */
  const CatchAll := Redirect("/")

  /** The paths of the sixteen page routes, in table order ("/home" left out). */
  function PagePaths(): (r: seq<string>)
    ensures |r| == 16
  {
    seq(16, k requires 0 <= k < 16 => Table[TableIndex(k)].path)
  }

  /** Where the `k`-th page route sits in the table. */
  function TableIndex(k: nat): (i: nat)
    ensures i != 1
  {
    if k == 0 then 0 else k + 1
  }

  /** Every route but "/home" renders a page, and "/home" redirects to "/". */
  lemma TableShape()
    ensures |Table| == 17
    ensures Table[1] == Route("/home", Redirect("/"))
    ensures forall i :: 0 <= i < |Table| && i != 1 ==> Table[i].element.Render?
  {
  }

  /** The first route in `routes` whose path is `path`. */
  function Lookup(routes: seq<Route>, path: string): (r: Option<Element>)
    ensures r.None? <==> forall i :: 0 <= i < |routes| ==> routes[i].path != path
    ensures r.Some? ==> Route(path, r.value) in routes
    ensures forall i :: (0 <= i < |routes| && routes[i].path == path &&
                         forall j :: 0 <= j < i ==> routes[j].path != path) ==> r == Some(routes[i].element)
  {
    if routes == [] then None
    else if routes[0].path == path then Some(routes[0].element)
    else Lookup(routes[1..], path)
  }

  /** What the router does with `path`: the first listed match, else the catch-all. */
  function Resolve(path: string): (e: Element)
    ensures (forall i :: 0 <= i < |Table| ==> Table[i].path != path) ==> e == CatchAll
    ensures e == CatchAll || Route(path, e) in Table
  {
    Lookup(Table, path).GetOr(CatchAll)
  }

  /** Where a visit to `path` ends after following redirects, and how many it followed. */
  function Land(path: string): (r: (Option<Page>, nat))
    ensures r.1 == 0 <==> Resolve(path).Render?
    ensures r.0.None? <==> r.1 == 2
  {
    match Resolve(path)
    case Render(p) => (Some(p), 0)
    case Redirect(t) =>
      match Resolve(t)
      case Render(p) => (Some(p), 1)
      case Redirect(_) => (None, 2)
  }

  // ---------------------------------------------------------------- properties

  /** "/" renders the home page and "/home" redirects to "/". */
  lemma HomeRoutes()
    ensures Resolve("/") == Render(Home)
    ensures Resolve("/home") == Redirect("/")
  {
    ResolveListed(0);
    ResolveListed(1);
  }

  /** The keys of the table's paths, in table order. */
  const TableKeys: seq<int> := [1, 5104111, 19112114, 15115121, 11112097, 16099108, 9102105, 11109111, 11099108,
                                16116101, 15115117, 9116105, 12102117, 24112114, 16108101, 14100111, 13116101]

  lemma TableKeysFront()
    ensures |TableKeys| == |Table|
    ensures forall i :: 0 <= i < 9 ==> SearchIndex.PathKey(Table[i].path) == TableKeys[i]
  {
  }

  lemma TableKeysBack()
    ensures |TableKeys| == |Table|
    ensures forall i :: 9 <= i < |Table| ==> SearchIndex.PathKey(Table[i].path) == TableKeys[i]
  {
  }

  lemma TableKeysDistinct()
    ensures forall i, j :: 0 <= i < j < |TableKeys| ==> TableKeys[i] != TableKeys[j]
  {
  }

  /** Every table path is distinct, so the first-match rule never shadows a route. */
  lemma TablePathsDistinct()
    ensures forall i, j :: 0 <= i < j < |Table| ==> Table[i].path != Table[j].path
  {
    TableKeysFront();
    TableKeysBack();
    TableKeysDistinct();
    forall i, j | 0 <= i < j < |Table| ensures Table[i].path != Table[j].path {
      assert TableKeys[i] != TableKeys[j];
    }
  }

  /** The sixteen page routes have pairwise distinct paths. */
  lemma PagePathsDistinct()
    ensures forall i, j :: 0 <= i < j < 16 ==> PagePaths()[i] != PagePaths()[j]
  {
    TablePathsDistinct();
    forall i, j | 0 <= i < j < 16 ensures PagePaths()[i] != PagePaths()[j] {
      var a := if i == 0 then 0 else i + 1;
      var b := j + 1;
      assert PagePaths()[i] == Table[a].path && PagePaths()[j] == Table[b].path;
    }
  }

  /** A listed path gets its own route's element: no earlier route shadows it. */
  lemma ResolveListed(i: nat)
    requires i < |Table|
    ensures Resolve(Table[i].path) == Table[i].element
  {
    TablePathsDistinct();
    assert Lookup(Table, Table[i].path) == Some(Table[i].element);
  }

  /** A listed page path renders its page. */
  lemma PagePathRenders(k: nat)
    requires k < 16
    ensures Resolve(PagePaths()[k]).Render?
  {
    TableShape();
    ResolveListed(TableIndex(k));
  }

  /** A path that is neither a page route nor "/home" redirects to "/". */
  lemma UnlistedRedirectsHome(path: string)
    requires path !in PagePaths() && path != "/home"
    ensures Resolve(path) == Redirect("/")
  {
    TableShape();
    forall i | 0 <= i < |Table| ensures Table[i].path != path {
      if i != 1 {
        var k := if i == 0 then 0 else i - 1;
        assert TableIndex(k) == i;
        assert Table[i].path == PagePaths()[k];
      }
    }
  }

  /** Whatever redirect the router meets, it goes to "/". */
  lemma RedirectsGoHome(path: string)
    ensures Resolve(path).Redirect? ==> Resolve(path) == Redirect("/")
  {
    TableShape();
  }

  /** Every visit reaches a page after at most one redirect; every redirect lands on the home page. */
  lemma AtMostOneRedirect(path: string)
    ensures Land(path).0.Some? && Land(path).1 <= 1
    ensures Land(path).1 == 1 ==> Land(path).0 == Some(Home)
  {
    HomeRoutes();
    RedirectsGoHome(path);
  }

  /** Every path in the search catalog is a page route, so a search result never hits the catch-all. */
  lemma CatalogPathsArePageRoutes()
    ensures forall i :: 0 <= i < |SearchIndex.Catalog| ==> SearchIndex.Catalog[i].path == PagePaths()[i]
    ensures forall i :: 0 <= i < |SearchIndex.Catalog| ==> Resolve(SearchIndex.Catalog[i].path).Render?
  {
    SearchIndex.CatalogPathsRooted();
    var c := SearchIndex.Catalog;
    assert [c[0].path, c[1].path, c[2].path, c[3].path, c[4].path, c[5].path, c[6].path, c[7].path,
            c[8].path, c[9].path, c[10].path, c[11].path, c[12].path, c[13].path, c[14].path, c[15].path]
        == [Table[0].path, Table[2].path, Table[3].path, Table[4].path, Table[5].path, Table[6].path,
            Table[7].path, Table[8].path, Table[9].path, Table[10].path, Table[11].path, Table[12].path,
            Table[13].path, Table[14].path, Table[15].path, Table[16].path];
    forall i | 0 <= i < |c|
      ensures c[i].path == PagePaths()[i]
      ensures Resolve(c[i].path).Render?
    {
      assert c[i].path == Table[TableIndex(i)].path;
      PagePathRenders(i);
    }
  }
}
