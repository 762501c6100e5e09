/**
 * The navigation links and the route table agree: every item's
 * `createPageUrl` path is the path of the page route in the same position,
 * so the links never fall into the catch-all, and at most one item is
 * active on any path.
 */
module NavRoutes {
  import opened Text
  import opened PageUrl
  import opened Layout
  import Routes
  import NavNames

  // The per-item lemmas below keep each literal word, path and item in a
  // proof of its own: a string literal handed to the recursive string
  // functions is unfolded eagerly, and several in one proof are costly.

  /** The one-word name `a` is "Home", in a spelling that lower-cases to "home". */
  predicate SpelledHome(a: string) {
    Word(a) && ToLower(a) == "home"
  }

  /** The one-word name `a` spells `path`: "/" and the word lower-cased. */
  predicate SpelledOne(a: string, path: string) {
    Word(a) && ToLower(a) != "home" && path == "/" + ToLower(a)
  }

  /** The two-word name `a` `b` spells `path`: "/" and the lower-cased words joined by a hyphen. */
  predicate SpelledTwo(a: string, b: string, path: string) {
    Word(a) && Word(b) && path == "/" + ToLower(a) + "-" + ToLower(b)
  }

  lemma HomeItemUrl(item: NavItem, a: string)
    requires item.words == [a] && SpelledHome(a)
    ensures Url(item) == "/"
  {
    NavNames.HomeName(a);
  }

  lemma OneWordItemUrl(item: NavItem, a: string, path: string)
    requires item.words == [a] && SpelledOne(a, path)
    ensures Url(item) == path
  {
    NavNames.OneWordName(a, ToLower(a));
  }

  lemma TwoWordItemUrl(item: NavItem, a: string, b: string, path: string)
    requires item.words == [a, b] && SpelledTwo(a, b, path)
    ensures Url(item) == path
  {
    NavNames.TwoWordName(a, b, ToLower(a), ToLower(b));
  }

  lemma Row0()
    ensures NavigationItems[0].words == ["Home"]
    ensures Routes.PagePaths()[0] == "/"
  {
  }

  lemma Spell0(a: string)
    requires a == "Home"
    ensures SpelledHome(a)
  {
    NavNames.HomeWord(a, "home");
  }

  lemma NavUrl0()
    ensures Url(NavigationItems[0]) == Routes.PagePaths()[0]
  {
    Row0();
    Spell0("Home");
    HomeItemUrl(NavigationItems[0], "Home");
  }

  lemma Row1()
    ensures NavigationItems[1].words == ["Project", "Background"]
    ensures Routes.PagePaths()[1] == "/project-background"
  {
  }

  lemma Join1(path: string, la: string, lb: string)
    requires path == "/project-background" && la == "project" && lb == "background"
    ensures path == "/" + la + "-" + lb
  {
  }

  lemma Spell1(a: string, b: string, path: string)
    requires a == "Project" && b == "Background" && path == "/project-background"
    ensures SpelledTwo(a, b, path)
  {
    NavNames.ProjectWord(a, "project");
    NavNames.BackgroundWord(b, "background");
    Join1(path, "project", "background");
  }

  lemma NavUrl1()
    ensures Url(NavigationItems[1]) == Routes.PagePaths()[1]
  {
    Row1();
    Spell1("Project", "Background", "/project-background");
    TwoWordItemUrl(NavigationItems[1], "Project", "Background", Routes.PagePaths()[1]);
  }

  lemma Row2()
    ensures NavigationItems[2].words == ["System", "Diagram"]
    ensures Routes.PagePaths()[2] == "/system-diagram"
  {
  }

  lemma Join2(path: string, la: string, lb: string)
    requires path == "/system-diagram" && la == "system" && lb == "diagram"
    ensures path == "/" + la + "-" + lb
  {
  }

  lemma Spell2(a: string, b: string, path: string)
    requires a == "System" && b == "Diagram" && path == "/system-diagram"
    ensures SpelledTwo(a, b, path)
  {
    NavNames.SystemWord(a, "system");
    NavNames.DiagramWord(b, "diagram");
    Join2(path, "system", "diagram");
  }

  lemma NavUrl2()
    ensures Url(NavigationItems[2]) == Routes.PagePaths()[2]
  {
    Row2();
    Spell2("System", "Diagram", "/system-diagram");
    TwoWordItemUrl(NavigationItems[2], "System", "Diagram", Routes.PagePaths()[2]);
  }

  lemma Row3()
    ensures NavigationItems[3].words == ["Parts", "List"]
    ensures Routes.PagePaths()[3] == "/parts-list"
  {
  }

  lemma Join3(path: string, la: string, lb: string)
    requires path == "/parts-list" && la == "parts" && lb == "list"
    ensures path == "/" + la + "-" + lb
  {
  }

  lemma Spell3(a: string, b: string, path: string)
    requires a == "Parts" && b == "List" && path == "/parts-list"
    ensures SpelledTwo(a, b, path)
  {
    NavNames.PartsWord(a, "parts");
    NavNames.ListWord(b, "list");
    Join3(path, "parts", "list");
  }

  lemma NavUrl3()
    ensures Url(NavigationItems[3]) == Routes.PagePaths()[3]
  {
    Row3();
    Spell3("Parts", "List", "/parts-list");
    TwoWordItemUrl(NavigationItems[3], "Parts", "List", Routes.PagePaths()[3]);
  }

  lemma Row4()
    ensures NavigationItems[4].words == ["Clamp", "Enclosure"]
    ensures Routes.PagePaths()[4] == "/clamp-enclosure"
  {
  }

  lemma Join4(path: string, la: string, lb: string)
    requires path == "/clamp-enclosure" && la == "clamp" && lb == "enclosure"
    ensures path == "/" + la + "-" + lb
  {
  }

  lemma Spell4(a: string, b: string, path: string)
    requires a == "Clamp" && b == "Enclosure" && path == "/clamp-enclosure"
    ensures SpelledTwo(a, b, path)
  {
    NavNames.ClampWord(a, "clamp");
    NavNames.EnclosureWord(b, "enclosure");
    Join4(path, "clamp", "enclosure");
  }

  lemma NavUrl4()
    ensures Url(NavigationItems[4]) == Routes.PagePaths()[4]
  {
    Row4();
    Spell4("Clamp", "Enclosure", "/clamp-enclosure");
    TwoWordItemUrl(NavigationItems[4], "Clamp", "Enclosure", Routes.PagePaths()[4]);
  }

  lemma Row5()
    ensures NavigationItems[5].words == ["Firmware"]
    ensures Routes.PagePaths()[5] == "/firmware"
  {
  }

  lemma JoinOne5(path: string, la: string)
    requires path == "/firmware" && la == "firmware"
    ensures path == "/" + la
  {
  }

  lemma Spell5(a: string, path: string)
    requires a == "Firmware" && path == "/firmware"
    ensures SpelledOne(a, path)
  {
    NavNames.FirmwareWord(a, "firmware");
    JoinOne5(path, "firmware");
  }

  lemma NavUrl5()
    ensures Url(NavigationItems[5]) == Routes.PagePaths()[5]
  {
    Row5();
    Spell5("Firmware", "/firmware");
    OneWordItemUrl(NavigationItems[5], "Firmware", Routes.PagePaths()[5]);
  }

  lemma Row6()
    ensures NavigationItems[6].words == ["Mobile", "App"]
    ensures Routes.PagePaths()[6] == "/mobile-app"
  {
  }

  lemma Join6(path: string, la: string, lb: string)
    requires path == "/mobile-app" && la == "mobile" && lb == "app"
    ensures path == "/" + la + "-" + lb
  {
  }

  lemma Spell6(a: string, b: string, path: string)
    requires a == "Mobile" && b == "App" && path == "/mobile-app"
    ensures SpelledTwo(a, b, path)
  {
    NavNames.MobileWord(a, "mobile");
    NavNames.AppWord(b, "app");
    Join6(path, "mobile", "app");
  }

  lemma NavUrl6()
    ensures Url(NavigationItems[6]) == Routes.PagePaths()[6]
  {
    Row6();
    Spell6("Mobile", "App", "/mobile-app");
    TwoWordItemUrl(NavigationItems[6], "Mobile", "App", Routes.PagePaths()[6]);
  }

  lemma Row7()
    ensures NavigationItems[7].words == ["Cloud", "Data"]
    ensures Routes.PagePaths()[7] == "/cloud-data"
  {
  }

  lemma Join7(path: string, la: string, lb: string)
    requires path == "/cloud-data" && la == "cloud" && lb == "data"
    ensures path == "/" + la + "-" + lb
  {
  }

  lemma Spell7(a: string, b: string, path: string)
    requires a == "Cloud" && b == "Data" && path == "/cloud-data"
    ensures SpelledTwo(a, b, path)
  {
    NavNames.CloudWord(a, "cloud");
    NavNames.DataWord(b, "data");
    Join7(path, "cloud", "data");
  }

  lemma NavUrl7()
    ensures Url(NavigationItems[7]) == Routes.PagePaths()[7]
  {
    Row7();
    Spell7("Cloud", "Data", "/cloud-data");
    TwoWordItemUrl(NavigationItems[7], "Cloud", "Data", Routes.PagePaths()[7]);
  }

  lemma Row8()
    ensures NavigationItems[8].words == ["Testing", "Results"]
    ensures Routes.PagePaths()[8] == "/testing-results"
  {
  }

  lemma Join8(path: string, la: string, lb: string)
    requires path == "/testing-results" && la == "testing" && lb == "results"
    ensures path == "/" + la + "-" + lb
  {
  }

  lemma Spell8(a: string, b: string, path: string)
    requires a == "Testing" && b == "Results" && path == "/testing-results"
    ensures SpelledTwo(a, b, path)
  {
    NavNames.TestingWord(a, "testing");
    NavNames.ResultsWord(b, "results");
    Join8(path, "testing", "results");
  }

  lemma NavUrl8()
    ensures Url(NavigationItems[8]) == Routes.PagePaths()[8]
  {
    Row8();
    Spell8("Testing", "Results", "/testing-results");
    TwoWordItemUrl(NavigationItems[8], "Testing", "Results", Routes.PagePaths()[8]);
  }

  lemma Row9()
    ensures NavigationItems[9].words == ["Sustainability"]
    ensures Routes.PagePaths()[9] == "/sustainability"
  {
  }

  lemma JoinOne9(path: string, la: string)
    requires path == "/sustainability" && la == "sustainability"
    ensures path == "/" + la
  {
  }

  lemma Spell9(a: string, path: string)
    requires a == "Sustainability" && path == "/sustainability"
    ensures SpelledOne(a, path)
  {
    NavNames.SustainabilityWord(a, "sustainability");
    JoinOne9(path, "sustainability");
  }

  lemma NavUrl9()
    ensures Url(NavigationItems[9]) == Routes.PagePaths()[9]
  {
    Row9();
    Spell9("Sustainability", "/sustainability");
    OneWordItemUrl(NavigationItems[9], "Sustainability", Routes.PagePaths()[9]);
  }

  lemma Row10()
    ensures NavigationItems[10].words == ["Timeline"]
    ensures Routes.PagePaths()[10] == "/timeline"
  {
  }

  lemma JoinOne10(path: string, la: string)
    requires path == "/timeline" && la == "timeline"
    ensures path == "/" + la
  {
  }

  lemma Spell10(a: string, path: string)
    requires a == "Timeline" && path == "/timeline"
    ensures SpelledOne(a, path)
  {
    NavNames.TimelineWord(a, "timeline");
    JoinOne10(path, "timeline");
  }

  lemma NavUrl10()
    ensures Url(NavigationItems[10]) == Routes.PagePaths()[10]
  {
    Row10();
    Spell10("Timeline", "/timeline");
    OneWordItemUrl(NavigationItems[10], "Timeline", Routes.PagePaths()[10]);
  }

  lemma Row11()
    ensures NavigationItems[11].words == ["Future", "Work"]
    ensures Routes.PagePaths()[11] == "/future-work"
  {
  }

  lemma Join11(path: string, la: string, lb: string)
    requires path == "/future-work" && la == "future" && lb == "work"
    ensures path == "/" + la + "-" + lb
  {
  }

  lemma Spell11(a: string, b: string, path: string)
    requires a == "Future" && b == "Work" && path == "/future-work"
    ensures SpelledTwo(a, b, path)
  {
    NavNames.FutureWord(a, "future");
    NavNames.WorkWord(b, "work");
    Join11(path, "future", "work");
  }

  lemma NavUrl11()
    ensures Url(NavigationItems[11]) == Routes.PagePaths()[11]
  {
    Row11();
    Spell11("Future", "Work", "/future-work");
    TwoWordItemUrl(NavigationItems[11], "Future", "Work", Routes.PagePaths()[11]);
  }

  lemma Row12()
    ensures NavigationItems[12].words == ["Professional", "Components"]
    ensures Routes.PagePaths()[12] == "/professional-components"
  {
  }

  lemma Join12(path: string, la: string, lb: string)
    requires path == "/professional-components" && la == "professional" && lb == "components"
    ensures path == "/" + la + "-" + lb
  {
  }

  lemma Spell12(a: string, b: string, path: string)
    requires a == "Professional" && b == "Components" && path == "/professional-components"
    ensures SpelledTwo(a, b, path)
  {
    NavNames.ProfessionalWord(a, "professional");
    NavNames.ComponentsWord(b, "components");
    Join12(path, "professional", "components");
  }

  lemma NavUrl12()
    ensures Url(NavigationItems[12]) == Routes.PagePaths()[12]
  {
    Row12();
    Spell12("Professional", "Components", "/professional-components");
    TwoWordItemUrl(NavigationItems[12], "Professional", "Components", Routes.PagePaths()[12]);
  }

  lemma Row13()
    ensures NavigationItems[13].words == ["Lessons", "Learned"]
    ensures Routes.PagePaths()[13] == "/lessons-learned"
  {
  }

  lemma Join13(path: string, la: string, lb: string)
    requires path == "/lessons-learned" && la == "lessons" && lb == "learned"
    ensures path == "/" + la + "-" + lb
  {
  }

  lemma Spell13(a: string, b: string, path: string)
    requires a == "Lessons" && b == "Learned" && path == "/lessons-learned"
    ensures SpelledTwo(a, b, path)
  {
    NavNames.LessonsWord(a, "lessons");
    NavNames.LearnedWord(b, "learned");
    Join13(path, "lessons", "learned");
  }

  lemma NavUrl13()
    ensures Url(NavigationItems[13]) == Routes.PagePaths()[13]
  {
    Row13();
    Spell13("Lessons", "Learned", "/lessons-learned");
    TwoWordItemUrl(NavigationItems[13], "Lessons", "Learned", Routes.PagePaths()[13]);
  }

  lemma Row14()
    ensures NavigationItems[14].words == ["Documentation"]
    ensures Routes.PagePaths()[14] == "/documentation"
  {
  }

  lemma JoinOne14(path: string, la: string)
    requires path == "/documentation" && la == "documentation"
    ensures path == "/" + la
  {
  }

  lemma Spell14(a: string, path: string)
    requires a == "Documentation" && path == "/documentation"
    ensures SpelledOne(a, path)
  {
    NavNames.DocumentationWord(a, "documentation");
    JoinOne14(path, "documentation");
  }

  lemma NavUrl14()
    ensures Url(NavigationItems[14]) == Routes.PagePaths()[14]
  {
    Row14();
    Spell14("Documentation", "/documentation");
    OneWordItemUrl(NavigationItems[14], "Documentation", Routes.PagePaths()[14]);
  }

  lemma Row15()
    ensures NavigationItems[15].words == ["Team", "Contact"]
    ensures Routes.PagePaths()[15] == "/team-contact"
  {
  }

  lemma Join15(path: string, la: string, lb: string)
    requires path == "/team-contact" && la == "team" && lb == "contact"
    ensures path == "/" + la + "-" + lb
  {
  }

  lemma Spell15(a: string, b: string, path: string)
    requires a == "Team" && b == "Contact" && path == "/team-contact"
    ensures SpelledTwo(a, b, path)
  {
    NavNames.TeamWord(a, "team");
    NavNames.ContactWord(b, "contact");
    Join15(path, "team", "contact");
  }

  lemma NavUrl15()
    ensures Url(NavigationItems[15]) == Routes.PagePaths()[15]
  {
    Row15();
    Spell15("Team", "Contact", "/team-contact");
    TwoWordItemUrl(NavigationItems[15], "Team", "Contact", Routes.PagePaths()[15]);
  }

  /** Camel-case names become hyphenated paths: "ProjectBackground" and "TeamContact". */
  lemma CamelExamples(a: string, b: string, c: string, d: string)
    requires a == "Project" && b == "Background" && c == "Team" && d == "Contact"
    ensures CreatePageUrl(a + b) == "/project-background"
    ensures CreatePageUrl(c + d) == "/team-contact"
  {
    Spell1(a, b, "/project-background");
    TwoWordUrl(a, b, ToLower(a), ToLower(b));
    Spell15(c, d, "/team-contact");
    TwoWordUrl(c, d, ToLower(c), ToLower(d));
  }

  /** The item at position `k` links to the page route at position `k`. */
  lemma NavUrlAt(k: nat)
    requires k < 16
    ensures Url(NavigationItems[k]) == Routes.PagePaths()[k]
  {
    if k == 0 { NavUrl0(); }
    else if k == 1 { NavUrl1(); }
    else if k == 2 { NavUrl2(); }
    else if k == 3 { NavUrl3(); }
    else if k == 4 { NavUrl4(); }
    else if k == 5 { NavUrl5(); }
    else if k == 6 { NavUrl6(); }
    else if k == 7 { NavUrl7(); }
    else if k == 8 { NavUrl8(); }
    else if k == 9 { NavUrl9(); }
    else if k == 10 { NavUrl10(); }
    else if k == 11 { NavUrl11(); }
    else if k == 12 { NavUrl12(); }
    else if k == 13 { NavUrl13(); }
    else if k == 14 { NavUrl14(); }
    else if k == 15 { NavUrl15(); }
  }

  /** Each navigation item links to the page route in the same position. */
  lemma NavUrlsArePageRoutes()
    ensures forall k :: 0 <= k < |NavigationItems| ==> Url(NavigationItems[k]) == Routes.PagePaths()[k]
  {
    forall k | 0 <= k < |NavigationItems|
      ensures Url(NavigationItems[k]) == Routes.PagePaths()[k]
    {
      NavUrlAt(k);
    }
  }

  /** No navigation link is redirected: each renders a page. */
  lemma NavLinksRender(k: nat)
    requires k < |NavigationItems|
    ensures Routes.Resolve(Url(NavigationItems[k])).Render?
  {
    NavUrlsArePageRoutes();
    Routes.PagePathRenders(k);
  }

  /** On any path at most one item is highlighted. */
  lemma AtMostOneActive(pathname: string, i: nat, j: nat)
    requires i < |NavigationItems| && j < |NavigationItems|
    requires IsActive(pathname, NavigationItems[i]) && IsActive(pathname, NavigationItems[j])
    ensures i == j
  {
    NavUrlsArePageRoutes();
    Routes.PagePathsDistinct();
  }

  /** On a page route's path exactly the item in the same position is highlighted. */
  lemma ActiveOnPagePath(k: nat)
    requires k < 16
    ensures forall i :: 0 <= i < |NavigationItems| ==>
              (IsActive(Routes.PagePaths()[k], NavigationItems[i]) <==> i == k)
  {
    NavUrlsArePageRoutes();
    Routes.PagePathsDistinct();
    forall i | 0 <= i < |NavigationItems|
      ensures IsActive(Routes.PagePaths()[k], NavigationItems[i]) <==> i == k
    {
      if i < k {
        assert Routes.PagePaths()[i] != Routes.PagePaths()[k];
      } else if k < i {
        assert Routes.PagePaths()[k] != Routes.PagePaths()[i];
      }
    }
  }
}
