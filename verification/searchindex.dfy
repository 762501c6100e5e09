/** The page catalog the search dialog ranks: sixteen fixed entries in navigation order. */
module SearchIndex {
  import opened Wrappers

  /** One navigable page: display title, router path and optional extra match terms. */
  datatype SearchItem = SearchItem(title: string, path: string, keywords: Option<seq<string>>)

  const Catalog: seq<SearchItem> := [
    SearchItem("Home", "/", None),
    SearchItem("Project Background", "/project-background", Some(["problem", "solution", "stats"])),
    SearchItem("System Diagram", "/system-diagram", Some(["architecture", "block diagram"])),
    SearchItem("Parts List", "/parts-list", Some(["BOM", "components"])),
    SearchItem("Clamp & Enclosure", "/clamp-enclosure", Some(["3D print", "mechanical"])),
    SearchItem("Firmware", "/firmware", Some(["ESP32", "RMS", "accelerometer"])),
    SearchItem("Mobile App", "/mobile-app", Some(["Flutter", "Android", "iOS"])),
    SearchItem("Cloud & Data", "/cloud-data", Some(["Supabase", "database", "schema"])),
    SearchItem("Testing & Results", "/testing-results", Some(["confusion matrix", "metrics"])),
    SearchItem("Sustainability", "/sustainability", Some(["battery", "energy", "CO2"])),
    SearchItem("Timeline", "/timeline", None),
    SearchItem("Future Work", "/future-work", None),
    SearchItem("Professional Components", "/professional-components", Some(["ethics", "IP", "safety"])),
    SearchItem("Lessons Learned", "/lessons-learned", None),
    SearchItem("Documentation", "/documentation", Some(["report", "slides", "zip"])),
    SearchItem("Team & Contact", "/team-contact", Some(["email", "advisor"]))
  ]

  /** The strings a query is matched against: title, path, then each keyword. */
  function Fields(item: SearchItem): (r: seq<string>)
    ensures |r| >= 2 && r[0] == item.title && r[1] == item.path
    ensures item.keywords.Some? ==> r[2..] == item.keywords.value
  {
    [item.title, item.path] + item.keywords.GetOr([])
  }

  /** Length and first two characters after the slash: enough to tell the site's paths apart. */
  function PathKey(p: string): int {
    if |p| < 3 then |p| else |p| * 1000000 + (p[1] as int) * 1000 + p[2] as int
  }

  /** The catalog has sixteen entries, each path rooted at "/". */
  lemma CatalogPathsRooted()
    ensures |Catalog| == 16
    ensures forall i :: 0 <= i < |Catalog| ==> |Catalog[i].path| > 0 && Catalog[i].path[0] == '/'
  {
  }

  /** The keys of the catalog's paths, in catalog order. */
  const CatalogKeys: seq<int> := [1, 19112114, 15115121, 11112097, 16099108, 9102105, 11109111, 11099108,
                                  16116101, 15115117, 9116105, 12102117, 24112114, 16108101, 14100111, 13116101]

  lemma CatalogKeysMatch()
    ensures |CatalogKeys| == |Catalog|
    ensures forall i :: 0 <= i < |Catalog| ==> PathKey(Catalog[i].path) == CatalogKeys[i]
  {
  }

  lemma CatalogKeysDistinct()
    ensures forall i, j :: 0 <= i < j < |CatalogKeys| ==> CatalogKeys[i] != CatalogKeys[j]
  {
  }

  /** No two catalog entries share a path. */
  lemma CatalogPathsDistinct()
    ensures forall i, j :: 0 <= i < j < |Catalog| ==> Catalog[i].path != Catalog[j].path
  {
    CatalogKeysMatch();
    CatalogKeysDistinct();
    forall i, j | 0 <= i < j < |Catalog| ensures Catalog[i].path != Catalog[j].path {
      assert CatalogKeys[i] != CatalogKeys[j];
    }
  }

  /** The entries shown for a blank query, by title. */
  lemma FirstEightTitles()
    ensures |Catalog| >= 8
    ensures [Catalog[0].title, Catalog[1].title, Catalog[2].title, Catalog[3].title,
             Catalog[4].title, Catalog[5].title, Catalog[6].title, Catalog[7].title]
         == ["Home", "Project Background", "System Diagram", "Parts List",
             "Clamp & Enclosure", "Firmware", "Mobile App", "Cloud & Data"]
  {
  }

  /** Home, Timeline, Future Work and Lessons Learned carry no keywords. */
  lemma KeywordlessEntries()
    ensures forall i :: 0 <= i < |Catalog| ==> (Catalog[i].keywords.None? <==> i in {0, 10, 11, 13})
  {
  }
}
