/**
 * Character-level facts about the catalog's strings, stated on the literal
 * text: which letters of the sample queries each field lacks, and which fields
 * holding all of a query's letters still do not hold the query.
 */
module CatalogLetters {
  import opened Text

  /** "Firmware" holds "firmware", case aside, at 0. */
  lemma FirmwareTitleMatch(s: string, n: string)
    requires s == "Firmware" && n == "firmware"
    ensures MatchLowerFrom(s, n, 0, 0)
  {
    assert MatchLowerFrom("Firmware", "firmware", 0, 0);
  }

  /** "/firmware" holds "firmware" at 1. */
  lemma FirmwarePathMatch(s: string, n: string)
    requires s == "/firmware" && n == "firmware"
    ensures MatchLowerFrom(s, n, 1, 0)
  {
    assert MatchLowerFrom("/firmware", "firmware", 1, 0);
  }

  /** The Firmware page's keywords have no "f". */
  lemma FirmwareKeywordLetters()
    ensures Lacks("ESP32", 'f') && Lacks("RMS", 'f') && Lacks("accelerometer", 'f')
  {
  }

  /** "Cloud & Data" holds "data", case aside, at 8. */
  lemma DataTitleMatch(s: string, n: string)
    requires s == "Cloud & Data" && n == "data"
    ensures MatchLowerFrom(s, n, 8, 0)
  {
    assert MatchLowerFrom("Cloud & Data", "data", 8, 0);
  }

  /** "/cloud-data" holds "data" at 7. */
  lemma DataPathMatch(s: string, n: string)
    requires s == "/cloud-data" && n == "data"
    ensures MatchLowerFrom(s, n, 7, 0)
  {
    assert MatchLowerFrom("/cloud-data", "data", 7, 0);
  }

  /** "database" holds "data" at 0. */
  lemma DataKeywordMatch(s: string, n: string)
    requires s == "database" && n == "data"
    ensures MatchLowerFrom(s, n, 0, 0)
  {
    assert MatchLowerFrom("database", "data", 0, 0);
  }

  /** The keyword "BOM" holds "bom", case aside, at 0. */
  lemma BomMatch(k: string, n: string)
    requires k == "BOM" && n == "bom"
    ensures MatchLowerFrom(k, n, 0, 0)
  {
    assert MatchLowerFrom("BOM", "bom", 0, 0);
  }

  /** Neither the title nor the path of the Parts List page has a "b". */
  lemma BomTitlePathLetters()
    ensures Lacks("Parts List", 'b') && Lacks("/parts-list", 'b')
  {
  }

  lemma FirmwareLettersTitlePath0()
    ensures Lacks("Home", 'f')
    ensures Lacks("/", 'f')
  {
  }

  lemma FirmwareLettersTitlePath1()
    ensures Lacks("Project Background", 'f')
    ensures Lacks("/project-background", 'f')
  {
  }

  lemma FirmwareLettersKeywords1()
    ensures Lacks("problem", 'f')
    ensures Lacks("solution", 'f')
    ensures Lacks("stats", 'f')
  {
  }

  lemma FirmwareLettersTitlePath2()
    ensures Lacks("System Diagram", 'f')
    ensures Lacks("/system-diagram", 'f')
  {
  }

  lemma FirmwareLettersKeywords2()
    ensures Lacks("architecture", 'f')
    ensures Lacks("block diagram", 'f')
  {
  }

  lemma FirmwareLettersTitlePath3()
    ensures Lacks("Parts List", 'f')
    ensures Lacks("/parts-list", 'f')
  {
  }

  lemma FirmwareLettersKeywords3()
    ensures Lacks("BOM", 'f')
    ensures Lacks("components", 'f')
  {
  }

  lemma FirmwareLettersTitlePath4()
    ensures Lacks("Clamp & Enclosure", 'f')
    ensures Lacks("/clamp-enclosure", 'f')
  {
  }

  lemma FirmwareLettersKeywords4()
    ensures Lacks("3D print", 'f')
    ensures Lacks("mechanical", 'f')
  {
  }

  lemma FirmwareLettersTitlePath6()
    ensures Lacks("Mobile App", 'f')
    ensures Lacks("/mobile-app", 'f')
  {
  }

  lemma FirmwareLettersKeywords6()
    ensures Lacks("Flutter", 'i')
    ensures Lacks("Android", 'f')
    ensures Lacks("iOS", 'f')
  {
  }

  lemma FirmwareLettersTitlePath7()
    ensures Lacks("Cloud & Data", 'f')
    ensures Lacks("/cloud-data", 'f')
  {
  }

  lemma FirmwareLettersKeywords7()
    ensures Lacks("Supabase", 'f')
    ensures Lacks("database", 'f')
    ensures Lacks("schema", 'f')
  {
  }

  lemma FirmwareLettersTitlePath8()
    ensures Lacks("Testing & Results", 'f')
    ensures Lacks("/testing-results", 'f')
  {
  }

  lemma FirmwareLettersKeywords8()
    ensures Lacks("confusion matrix", 'w')
    ensures Lacks("metrics", 'f')
  {
  }

  lemma FirmwareLettersTitlePath9()
    ensures Lacks("Sustainability", 'f')
    ensures Lacks("/sustainability", 'f')
  {
  }

  lemma FirmwareLettersKeywords9()
    ensures Lacks("battery", 'f')
    ensures Lacks("energy", 'f')
    ensures Lacks("CO2", 'f')
  {
  }

  lemma FirmwareLettersTitlePath10()
    ensures Lacks("Timeline", 'f')
    ensures Lacks("/timeline", 'f')
  {
  }

  lemma FirmwareLettersTitlePath11()
    ensures Lacks("Future Work", 'i')
    ensures Lacks("/future-work", 'i')
  {
  }

  lemma FirmwareLettersTitlePath12()
    ensures Lacks("Professional Components", 'w')
    ensures Lacks("/professional-components", 'w')
  {
  }

  lemma FirmwareLettersKeywords12()
    ensures Lacks("ethics", 'f')
    ensures Lacks("IP", 'f')
    ensures Lacks("safety", 'i')
  {
  }

  lemma FirmwareLettersTitlePath13()
    ensures Lacks("Lessons Learned", 'f')
    ensures Lacks("/lessons-learned", 'f')
  {
  }

  lemma FirmwareLettersTitlePath14()
    ensures Lacks("Documentation", 'f')
    ensures Lacks("/documentation", 'f')
  {
  }

  lemma FirmwareLettersKeywords14()
    ensures Lacks("report", 'f')
    ensures Lacks("slides", 'f')
    ensures Lacks("zip", 'f')
  {
  }

  lemma FirmwareLettersTitlePath15()
    ensures Lacks("Team & Contact", 'f')
    ensures Lacks("/team-contact", 'f')
  {
  }

  lemma FirmwareLettersKeywords15()
    ensures Lacks("email", 'f')
    ensures Lacks("advisor", 'f')
  {
  }

  lemma DataLettersTitlePath0()
    ensures Lacks("Home", 'd')
    ensures Lacks("/", 'd')
  {
  }

  lemma DataMissTitleProjectBackground(s: string, n: string)
    requires s == "Project Background" && n == "data"
    ensures !ContainsLowerFrom(s, n, 0)
  {
    assert !ContainsLowerFrom("Project Background", "data", 8);
    assert !ContainsLowerFrom("Project Background", "data", 2);
    assert !ContainsLowerFrom("Project Background", "data", 0);
  }

  lemma DataMissPathProjectBackground(s: string, n: string)
    requires s == "/project-background" && n == "data"
    ensures !ContainsLowerFrom(s, n, 0)
  {
    assert !ContainsLowerFrom("/project-background", "data", 9);
    assert !ContainsLowerFrom("/project-background", "data", 3);
    assert !ContainsLowerFrom("/project-background", "data", 0);
  }

  lemma DataLettersKeywords1()
    ensures Lacks("problem", 'd')
    ensures Lacks("solution", 'd')
    ensures Lacks("stats", 'd')
  {
  }

  lemma DataMissTitleSystemDiagram(s: string, n: string)
    requires s == "System Diagram" && n == "data"
    ensures !ContainsLowerFrom(s, n, 0)
  {
    assert !ContainsLowerFrom("System Diagram", "data", 4);
    assert !ContainsLowerFrom("System Diagram", "data", 0);
  }

  lemma DataMissPathSystemDiagram(s: string, n: string)
    requires s == "/system-diagram" && n == "data"
    ensures !ContainsLowerFrom(s, n, 0)
  {
    assert !ContainsLowerFrom("/system-diagram", "data", 5);
    assert !ContainsLowerFrom("/system-diagram", "data", 0);
  }

  lemma DataLettersKeywords2()
    ensures Lacks("architecture", 'd')
    ensures Lacks("block diagram", 't')
  {
  }

  lemma DataLettersTitlePath3()
    ensures Lacks("Parts List", 'd')
    ensures Lacks("/parts-list", 'd')
  {
  }

  lemma DataLettersKeywords3()
    ensures Lacks("BOM", 'd')
    ensures Lacks("components", 'd')
  {
  }

  lemma DataLettersTitlePath4()
    ensures Lacks("Clamp & Enclosure", 'd')
    ensures Lacks("/clamp-enclosure", 'd')
  {
  }

  lemma DataLettersKeywords4()
    ensures Lacks("3D print", 'a')
    ensures Lacks("mechanical", 'd')
  {
  }

  lemma DataLettersTitlePath5()
    ensures Lacks("Firmware", 'd')
    ensures Lacks("/firmware", 'd')
  {
  }

  lemma DataLettersKeywords5()
    ensures Lacks("ESP32", 'd')
    ensures Lacks("RMS", 'd')
    ensures Lacks("accelerometer", 'd')
  {
  }

  lemma DataLettersTitlePath6()
    ensures Lacks("Mobile App", 'd')
    ensures Lacks("/mobile-app", 'd')
  {
  }

  lemma DataLettersKeywords6()
    ensures Lacks("Flutter", 'd')
    ensures Lacks("Android", 't')
    ensures Lacks("iOS", 'd')
  {
  }

  lemma DataLettersTitlePath8()
    ensures Lacks("Testing & Results", 'd')
    ensures Lacks("/testing-results", 'd')
  {
  }

  lemma DataLettersKeywords8()
    ensures Lacks("confusion matrix", 'd')
    ensures Lacks("metrics", 'd')
  {
  }

  lemma DataLettersTitlePath9()
    ensures Lacks("Sustainability", 'd')
    ensures Lacks("/sustainability", 'd')
  {
  }

  lemma DataLettersKeywords9()
    ensures Lacks("battery", 'd')
    ensures Lacks("energy", 'd')
    ensures Lacks("CO2", 'd')
  {
  }

  lemma DataLettersTitlePath10()
    ensures Lacks("Timeline", 'd')
    ensures Lacks("/timeline", 'd')
  {
  }

  lemma DataLettersTitlePath11()
    ensures Lacks("Future Work", 'd')
    ensures Lacks("/future-work", 'd')
  {
  }

  lemma DataLettersTitlePath12()
    ensures Lacks("Professional Components", 'd')
    ensures Lacks("/professional-components", 'd')
  {
  }

  lemma DataLettersKeywords12()
    ensures Lacks("ethics", 'd')
    ensures Lacks("IP", 'd')
    ensures Lacks("safety", 'd')
  {
  }

  lemma DataLettersTitlePath13()
    ensures Lacks("Lessons Learned", 't')
    ensures Lacks("/lessons-learned", 't')
  {
  }

  lemma DataMissTitleDocumentation(s: string, n: string)
    requires s == "Documentation" && n == "data"
    ensures !ContainsLowerFrom(s, n, 0)
  {
    assert !ContainsLowerFrom("Documentation", "data", 3);
    assert !ContainsLowerFrom("Documentation", "data", 0);
  }

  lemma DataMissPathDocumentation(s: string, n: string)
    requires s == "/documentation" && n == "data"
    ensures !ContainsLowerFrom(s, n, 0)
  {
    assert !ContainsLowerFrom("/documentation", "data", 4);
    assert !ContainsLowerFrom("/documentation", "data", 0);
  }

  lemma DataLettersKeywords14()
    ensures Lacks("report", 'd')
    ensures Lacks("slides", 'a')
    ensures Lacks("zip", 'd')
  {
  }

  lemma DataLettersTitlePath15()
    ensures Lacks("Team & Contact", 'd')
    ensures Lacks("/team-contact", 'd')
  {
  }

  lemma DataLettersKeywords15()
    ensures Lacks("email", 'd')
    ensures Lacks("advisor", 't')
  {
  }

  lemma BomLettersTitlePath0()
    ensures Lacks("Home", 'b')
    ensures Lacks("/", 'b')
  {
  }

  lemma BomLettersTitlePath1()
    ensures Lacks("Project Background", 'm')
    ensures Lacks("/project-background", 'm')
  {
  }

  lemma BomMissKeywordProblem(s: string, n: string)
    requires s == "problem" && n == "bom"
    ensures !ContainsLowerFrom(s, n, 0)
  {
    assert !ContainsLowerFrom("problem", "bom", 0);
  }

  lemma BomLettersKeywords1()
    ensures Lacks("solution", 'b')
    ensures Lacks("stats", 'b')
  {
  }

  lemma BomLettersTitlePath2()
    ensures Lacks("System Diagram", 'b')
    ensures Lacks("/system-diagram", 'b')
  {
  }

  lemma BomMissKeywordBlockDiagram(s: string, n: string)
    requires s == "block diagram" && n == "bom"
    ensures !ContainsLowerFrom(s, n, 0)
  {
    assert !ContainsLowerFrom("block diagram", "bom", 4);
    assert !ContainsLowerFrom("block diagram", "bom", 0);
  }

  lemma BomLettersKeywords2()
    ensures Lacks("architecture", 'b')
  {
  }

  lemma BomLettersTitlePath4()
    ensures Lacks("Clamp & Enclosure", 'b')
    ensures Lacks("/clamp-enclosure", 'b')
  {
  }

  lemma BomLettersKeywords4()
    ensures Lacks("3D print", 'b')
    ensures Lacks("mechanical", 'b')
  {
  }

  lemma BomLettersTitlePath5()
    ensures Lacks("Firmware", 'b')
    ensures Lacks("/firmware", 'b')
  {
  }

  lemma BomLettersKeywords5()
    ensures Lacks("ESP32", 'b')
    ensures Lacks("RMS", 'b')
    ensures Lacks("accelerometer", 'b')
  {
  }

  lemma BomMissTitleMobileApp(s: string, n: string)
    requires s == "Mobile App" && n == "bom"
    ensures !ContainsLowerFrom(s, n, 0)
  {
    assert !ContainsLowerFrom("Mobile App", "bom", 1);
    assert !ContainsLowerFrom("Mobile App", "bom", 0);
  }

  lemma BomMissPathMobileApp(s: string, n: string)
    requires s == "/mobile-app" && n == "bom"
    ensures !ContainsLowerFrom(s, n, 0)
  {
    assert !ContainsLowerFrom("/mobile-app", "bom", 2);
    assert !ContainsLowerFrom("/mobile-app", "bom", 0);
  }

  lemma BomLettersKeywords6()
    ensures Lacks("Flutter", 'b')
    ensures Lacks("Android", 'b')
    ensures Lacks("iOS", 'b')
  {
  }

  lemma BomLettersTitlePath7()
    ensures Lacks("Cloud & Data", 'b')
    ensures Lacks("/cloud-data", 'b')
  {
  }

  lemma BomLettersKeywords7()
    ensures Lacks("Supabase", 'o')
    ensures Lacks("database", 'o')
    ensures Lacks("schema", 'b')
  {
  }

  lemma BomLettersTitlePath8()
    ensures Lacks("Testing & Results", 'b')
    ensures Lacks("/testing-results", 'b')
  {
  }

  lemma BomLettersKeywords8()
    ensures Lacks("confusion matrix", 'b')
    ensures Lacks("metrics", 'b')
  {
  }

  lemma BomLettersTitlePath9()
    ensures Lacks("Sustainability", 'o')
    ensures Lacks("/sustainability", 'o')
  {
  }

  lemma BomLettersKeywords9()
    ensures Lacks("battery", 'o')
    ensures Lacks("energy", 'b')
    ensures Lacks("CO2", 'b')
  {
  }

  lemma BomLettersTitlePath10()
    ensures Lacks("Timeline", 'b')
    ensures Lacks("/timeline", 'b')
  {
  }

  lemma BomLettersTitlePath11()
    ensures Lacks("Future Work", 'b')
    ensures Lacks("/future-work", 'b')
  {
  }

  lemma BomLettersTitlePath12()
    ensures Lacks("Professional Components", 'b')
    ensures Lacks("/professional-components", 'b')
  {
  }

  lemma BomLettersKeywords12()
    ensures Lacks("ethics", 'b')
    ensures Lacks("IP", 'b')
    ensures Lacks("safety", 'b')
  {
  }

  lemma BomLettersTitlePath13()
    ensures Lacks("Lessons Learned", 'b')
    ensures Lacks("/lessons-learned", 'b')
  {
  }

  lemma BomLettersTitlePath14()
    ensures Lacks("Documentation", 'b')
    ensures Lacks("/documentation", 'b')
  {
  }

  lemma BomLettersKeywords14()
    ensures Lacks("report", 'b')
    ensures Lacks("slides", 'b')
    ensures Lacks("zip", 'b')
  {
  }

  lemma BomLettersTitlePath15()
    ensures Lacks("Team & Contact", 'b')
    ensures Lacks("/team-contact", 'b')
  {
  }

  lemma BomLettersKeywords15()
    ensures Lacks("email", 'b')
    ensures Lacks("advisor", 'b')
  {
  }
}
