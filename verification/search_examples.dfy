/**
 * The ranking worked out on the site's own catalog for the queries
 * "firmware", "data" and "BOM"/"bom": each lists one page.
 */
module SearchExamples {
  import opened Wrappers
  import opened Text
  import opened SearchIndex
  import opened Search
  import opened CatalogLetters

  /** A field that, lower-cased, does not hold `n` does not match `n` once normalized. */
  lemma LowerMiss(s: string, n: string)
    requires !ContainsLowerFrom(s, n, 0)
    ensures !Contains(Normalize(s), n)
  {
    NormalizedMatch(s, n);
  }

  /** A field whose lower-cased text holds `n` at `i` matches `n` once normalized. */
  lemma LowerHit(s: string, n: string, i: nat)
    requires s != [] && !IsSpace(s[0]) && !IsSpace(s[|s| - 1])
    requires i + |n| <= |s| && MatchLowerFrom(s, n, i, 0)
    ensures Contains(Normalize(s), n)
  {
    ContainsLowerAt(s, n, i, 0);
    NormalizedMatch(s, n);
  }

  /** A field lacking one of the query's letters, in either case, cannot hold the query. */
  lemma AbsentMiss(s: string, n: string, c: char)
    requires c in n && Lacks(s, c)
    ensures !ContainsLowerFrom(s, n, 0)
  {
    ToLowerAbsent(s, c);
    ContainsLowerSpec(s, n, 0);
    if ContainsFrom(ToLower(s), n, 0) {
      ContainsChar(ToLower(s), n, c);
    }
  }

  lemma {:induction false} KeywordsMiss(kws: seq<string>, n: string)
    requires forall k :: k in kws ==> !ContainsLowerFrom(k, n, 0)
    ensures !SomeKeywordContains(kws, n)
  {
    if kws != [] {
      LowerMiss(kws[0], n);
      KeywordsMiss(kws[1..], n);
    }
  }

  /** An entry none of whose fields holds the normalized query scores zero. */
  lemma EntryMiss(item: SearchItem, q: string)
    requires !ContainsLowerFrom(item.title, Normalize(q), 0)
    requires !ContainsLowerFrom(item.path, Normalize(q), 0)
    requires item.keywords.Some? ==>
               forall k :: k in item.keywords.value ==> !ContainsLowerFrom(k, Normalize(q), 0)
    ensures Score(item, q) == 0
  {
    LowerMiss(item.title, Normalize(q));
    LowerMiss(item.path, Normalize(q));
    if item.keywords.Some? {
      KeywordsMiss(item.keywords.value, Normalize(q));
    }
  }

  /** An entry none of whose fields holds the normalized query scores zero. */
  lemma FieldsMiss(item: SearchItem, q: string)
    requires forall j :: 0 <= j < |Fields(item)| ==> !ContainsLowerFrom(Fields(item)[j], Normalize(q), 0)
    ensures Score(item, q) == 0
  {
    var f := Fields(item);
    if item.keywords.Some? {
      forall k | k in item.keywords.value ensures !ContainsLowerFrom(k, Normalize(q), 0) {
        var m :| 0 <= m < |item.keywords.value| && item.keywords.value[m] == k;
        assert f[m + 2] == k;
      }
    }
    EntryMiss(item, q);
  }

  /** The query "firmware" is already normalized. */
  lemma FirmwareNormalized(q: string)
    requires q == "firmware"
    ensures Normalize(q) == "firmware"
  {
    ToLowerOfLower(q);
    TrimKeeps(q);
  }

  /** The query "data" is already normalized. */
  lemma DataNormalized(q: string)
    requires q == "data"
    ensures Normalize(q) == "data"
  {
    ToLowerOfLower(q);
    TrimKeeps(q);
  }

  /** "BOM" and "bom" both normalize to "bom". */
  lemma BomNormalized(q: string)
    requires q == "BOM" || q == "bom"
    ensures Normalize(q) == "bom"
  {
    ToLowerOfLower("bom");
    TrimKeeps("bom");
    if q == "BOM" {
      assert ToLower(q) == "bom";
    }
  }

  /** The Firmware page's title holds "firmware". */
  lemma FirmwareTargetTitle(n: string)
    requires n == "firmware"
    ensures Contains(Normalize(Catalog[5].title), n)
  {
    var t := Catalog[5].title;
    assert t == "Firmware";
    FirmwareTitleMatch(t, n);
    LowerHit(t, n, 0);
  }

  /** The Firmware page's path holds "firmware". */
  lemma FirmwareTargetPath(n: string)
    requires n == "firmware"
    ensures Contains(Normalize(Catalog[5].path), n)
  {
    var p := Catalog[5].path;
    assert p == "/firmware";
    FirmwarePathMatch(p, n);
    LowerHit(p, n, 1);
  }

  /** No keyword of the Firmware page holds "firmware". */
  lemma FirmwareTargetKeywords(n: string)
    requires n == "firmware"
    ensures Catalog[5].keywords.Some? && !SomeKeywordContains(Catalog[5].keywords.value, n)
  {
    var k := Catalog[5].keywords.value;
    FirmwareKeywordLetters();
    assert k == ["ESP32", "RMS", "accelerometer"];
    AbsentMiss(k[0], n, 'f');
    AbsentMiss(k[1], n, 'f');
    AbsentMiss(k[2], n, 'f');
    KeywordsMiss(k, n);
  }

  /** The Firmware page scores 4 for "firmware": title and path, no keyword. */
  lemma FirmwareHit(q: string)
    requires q == "firmware"
    ensures Score(Catalog[5], q) == 4
  {
    FirmwareNormalized(q);
    FirmwareTargetTitle(Normalize(q));
    FirmwareTargetPath(Normalize(q));
    FirmwareTargetKeywords(Normalize(q));
  }

  /** The Cloud & Data page's title holds "data". */
  lemma DataTargetTitle(n: string)
    requires n == "data"
    ensures Contains(Normalize(Catalog[7].title), n)
  {
    var t := Catalog[7].title;
    assert t == "Cloud & Data";
    DataTitleMatch(t, n);
    LowerHit(t, n, 8);
  }

  /** The Cloud & Data page's path holds "data". */
  lemma DataTargetPath(n: string)
    requires n == "data"
    ensures Contains(Normalize(Catalog[7].path), n)
  {
    var p := Catalog[7].path;
    assert p == "/cloud-data";
    DataPathMatch(p, n);
    LowerHit(p, n, 7);
  }

  /** The Cloud & Data page's keyword "database" holds "data". */
  lemma DataTargetKeywords(n: string)
    requires n == "data"
    ensures Catalog[7].keywords.Some? && SomeKeywordContains(Catalog[7].keywords.value, n)
  {
    var k := Catalog[7].keywords.value;
    assert k == ["Supabase", "database", "schema"];
    DataKeywordMatch(k[1], n);
    LowerHit(k[1], n, 0);
    SomeKeywordSpec(k, n);
  }

  /** The Cloud & Data page scores the maximal 6 for "data". */
  lemma DataHit(q: string)
    requires q == "data"
    ensures Score(Catalog[7], q) == 6
  {
    DataNormalized(q);
    DataTargetTitle(Normalize(q));
    DataTargetPath(Normalize(q));
    DataTargetKeywords(Normalize(q));
  }

  /** Neither the title nor the path of the Parts List page holds "bom". */
  lemma BomTargetTitlePath(n: string)
    requires n == "bom"
    ensures !Contains(Normalize(Catalog[3].title), n)
    ensures !Contains(Normalize(Catalog[3].path), n)
  {
    var t, p := Catalog[3].title, Catalog[3].path;
    BomTitlePathLetters();
    assert t == "Parts List" && p == "/parts-list";
    AbsentMiss(t, n, 'b');
    AbsentMiss(p, n, 'b');
    LowerMiss(t, n);
    LowerMiss(p, n);
  }

  /** The Parts List page's keyword "BOM" holds "bom". */
  lemma BomTargetKeywords(n: string)
    requires n == "bom"
    ensures Catalog[3].keywords.Some? && SomeKeywordContains(Catalog[3].keywords.value, n)
  {
    var k := Catalog[3].keywords.value;
    assert k == ["BOM", "components"];
    BomMatch(k[0], n);
    LowerHit(k[0], n, 0);
  }

  /** The Parts List page scores 2 for "BOM" or "bom", from the keyword alone. */
  lemma BomHit(q: string)
    requires q == "BOM" || q == "bom"
    ensures Score(Catalog[3], q) == 2
  {
    BomNormalized(q);
    BomTargetTitlePath(Normalize(q));
    BomTargetKeywords(Normalize(q));
  }

  lemma FirmwareTitlePath0(n: string)
    requires n == "firmware"
    ensures forall j :: 0 <= j < 2 ==> !ContainsLowerFrom(Fields(Catalog[0])[j], n, 0)
  {
    var f := Fields(Catalog[0]);
    FirmwareLettersTitlePath0();
    assert f == ["Home", "/"];
    AbsentMiss(f[0], n, 'f');
    AbsentMiss(f[1], n, 'f');
  }

  lemma FirmwareMiss0(q: string)
    requires q == "firmware"
    ensures Score(Catalog[0], q) == 0
  {
    FirmwareNormalized(q);
    FirmwareTitlePath0(Normalize(q));
    FieldsMiss(Catalog[0], q);
  }

  lemma FirmwareTitlePath1(n: string)
    requires n == "firmware"
    ensures forall j :: 0 <= j < 2 ==> !ContainsLowerFrom(Fields(Catalog[1])[j], n, 0)
  {
    var f := Fields(Catalog[1]);
    FirmwareLettersTitlePath1();
    assert f == ["Project Background", "/project-background", "problem", "solution", "stats"];
    AbsentMiss(f[0], n, 'f');
    AbsentMiss(f[1], n, 'f');
  }

  lemma FirmwareKeywords1(n: string)
    requires n == "firmware"
    ensures forall j :: 2 <= j < |Fields(Catalog[1])| ==> !ContainsLowerFrom(Fields(Catalog[1])[j], n, 0)
  {
    var f := Fields(Catalog[1]);
    FirmwareLettersKeywords1();
    assert f == ["Project Background", "/project-background", "problem", "solution", "stats"];
    AbsentMiss(f[2], n, 'f');
    AbsentMiss(f[3], n, 'f');
    AbsentMiss(f[4], n, 'f');
  }

  lemma FirmwareMiss1(q: string)
    requires q == "firmware"
    ensures Score(Catalog[1], q) == 0
  {
    FirmwareNormalized(q);
    FirmwareTitlePath1(Normalize(q));
    FirmwareKeywords1(Normalize(q));
    FieldsMiss(Catalog[1], q);
  }

  lemma FirmwareTitlePath2(n: string)
    requires n == "firmware"
    ensures forall j :: 0 <= j < 2 ==> !ContainsLowerFrom(Fields(Catalog[2])[j], n, 0)
  {
    var f := Fields(Catalog[2]);
    FirmwareLettersTitlePath2();
    assert f == ["System Diagram", "/system-diagram", "architecture", "block diagram"];
    AbsentMiss(f[0], n, 'f');
    AbsentMiss(f[1], n, 'f');
  }

  lemma FirmwareKeywords2(n: string)
    requires n == "firmware"
    ensures forall j :: 2 <= j < |Fields(Catalog[2])| ==> !ContainsLowerFrom(Fields(Catalog[2])[j], n, 0)
  {
    var f := Fields(Catalog[2]);
    FirmwareLettersKeywords2();
    assert f == ["System Diagram", "/system-diagram", "architecture", "block diagram"];
    AbsentMiss(f[2], n, 'f');
    AbsentMiss(f[3], n, 'f');
  }

  lemma FirmwareMiss2(q: string)
    requires q == "firmware"
    ensures Score(Catalog[2], q) == 0
  {
    FirmwareNormalized(q);
    FirmwareTitlePath2(Normalize(q));
    FirmwareKeywords2(Normalize(q));
    FieldsMiss(Catalog[2], q);
  }

  lemma FirmwareTitlePath3(n: string)
    requires n == "firmware"
    ensures forall j :: 0 <= j < 2 ==> !ContainsLowerFrom(Fields(Catalog[3])[j], n, 0)
  {
    var f := Fields(Catalog[3]);
    FirmwareLettersTitlePath3();
    assert f == ["Parts List", "/parts-list", "BOM", "components"];
    AbsentMiss(f[0], n, 'f');
    AbsentMiss(f[1], n, 'f');
  }

  lemma FirmwareKeywords3(n: string)
    requires n == "firmware"
    ensures forall j :: 2 <= j < |Fields(Catalog[3])| ==> !ContainsLowerFrom(Fields(Catalog[3])[j], n, 0)
  {
    var f := Fields(Catalog[3]);
    FirmwareLettersKeywords3();
    assert f == ["Parts List", "/parts-list", "BOM", "components"];
    AbsentMiss(f[2], n, 'f');
    AbsentMiss(f[3], n, 'f');
  }

  lemma FirmwareMiss3(q: string)
    requires q == "firmware"
    ensures Score(Catalog[3], q) == 0
  {
    FirmwareNormalized(q);
    FirmwareTitlePath3(Normalize(q));
    FirmwareKeywords3(Normalize(q));
    FieldsMiss(Catalog[3], q);
  }

  lemma FirmwareTitlePath4(n: string)
    requires n == "firmware"
    ensures forall j :: 0 <= j < 2 ==> !ContainsLowerFrom(Fields(Catalog[4])[j], n, 0)
  {
    var f := Fields(Catalog[4]);
    FirmwareLettersTitlePath4();
    assert f == ["Clamp & Enclosure", "/clamp-enclosure", "3D print", "mechanical"];
    AbsentMiss(f[0], n, 'f');
    AbsentMiss(f[1], n, 'f');
  }

  lemma FirmwareKeywords4(n: string)
    requires n == "firmware"
    ensures forall j :: 2 <= j < |Fields(Catalog[4])| ==> !ContainsLowerFrom(Fields(Catalog[4])[j], n, 0)
  {
    var f := Fields(Catalog[4]);
    FirmwareLettersKeywords4();
    assert f == ["Clamp & Enclosure", "/clamp-enclosure", "3D print", "mechanical"];
    AbsentMiss(f[2], n, 'f');
    AbsentMiss(f[3], n, 'f');
  }

  lemma FirmwareMiss4(q: string)
    requires q == "firmware"
    ensures Score(Catalog[4], q) == 0
  {
    FirmwareNormalized(q);
    FirmwareTitlePath4(Normalize(q));
    FirmwareKeywords4(Normalize(q));
    FieldsMiss(Catalog[4], q);
  }

  lemma FirmwareTitlePath6(n: string)
    requires n == "firmware"
    ensures forall j :: 0 <= j < 2 ==> !ContainsLowerFrom(Fields(Catalog[6])[j], n, 0)
  {
    var f := Fields(Catalog[6]);
    FirmwareLettersTitlePath6();
    assert f == ["Mobile App", "/mobile-app", "Flutter", "Android", "iOS"];
    AbsentMiss(f[0], n, 'f');
    AbsentMiss(f[1], n, 'f');
  }

  lemma FirmwareKeywords6(n: string)
    requires n == "firmware"
    ensures forall j :: 2 <= j < |Fields(Catalog[6])| ==> !ContainsLowerFrom(Fields(Catalog[6])[j], n, 0)
  {
    var f := Fields(Catalog[6]);
    FirmwareLettersKeywords6();
    assert f == ["Mobile App", "/mobile-app", "Flutter", "Android", "iOS"];
    AbsentMiss(f[2], n, 'i');
    AbsentMiss(f[3], n, 'f');
    AbsentMiss(f[4], n, 'f');
  }

  lemma FirmwareMiss6(q: string)
    requires q == "firmware"
    ensures Score(Catalog[6], q) == 0
  {
    FirmwareNormalized(q);
    FirmwareTitlePath6(Normalize(q));
    FirmwareKeywords6(Normalize(q));
    FieldsMiss(Catalog[6], q);
  }

  lemma FirmwareTitlePath7(n: string)
    requires n == "firmware"
    ensures forall j :: 0 <= j < 2 ==> !ContainsLowerFrom(Fields(Catalog[7])[j], n, 0)
  {
    var f := Fields(Catalog[7]);
    FirmwareLettersTitlePath7();
    assert f == ["Cloud & Data", "/cloud-data", "Supabase", "database", "schema"];
    AbsentMiss(f[0], n, 'f');
    AbsentMiss(f[1], n, 'f');
  }

  lemma FirmwareKeywords7(n: string)
    requires n == "firmware"
    ensures forall j :: 2 <= j < |Fields(Catalog[7])| ==> !ContainsLowerFrom(Fields(Catalog[7])[j], n, 0)
  {
    var f := Fields(Catalog[7]);
    FirmwareLettersKeywords7();
    assert f == ["Cloud & Data", "/cloud-data", "Supabase", "database", "schema"];
    AbsentMiss(f[2], n, 'f');
    AbsentMiss(f[3], n, 'f');
    AbsentMiss(f[4], n, 'f');
  }

  lemma FirmwareMiss7(q: string)
    requires q == "firmware"
    ensures Score(Catalog[7], q) == 0
  {
    FirmwareNormalized(q);
    FirmwareTitlePath7(Normalize(q));
    FirmwareKeywords7(Normalize(q));
    FieldsMiss(Catalog[7], q);
  }

  lemma FirmwareTitlePath8(n: string)
    requires n == "firmware"
    ensures forall j :: 0 <= j < 2 ==> !ContainsLowerFrom(Fields(Catalog[8])[j], n, 0)
  {
    var f := Fields(Catalog[8]);
    FirmwareLettersTitlePath8();
    assert f == ["Testing & Results", "/testing-results", "confusion matrix", "metrics"];
    AbsentMiss(f[0], n, 'f');
    AbsentMiss(f[1], n, 'f');
  }

  lemma FirmwareKeywords8(n: string)
    requires n == "firmware"
    ensures forall j :: 2 <= j < |Fields(Catalog[8])| ==> !ContainsLowerFrom(Fields(Catalog[8])[j], n, 0)
  {
    var f := Fields(Catalog[8]);
    FirmwareLettersKeywords8();
    assert f == ["Testing & Results", "/testing-results", "confusion matrix", "metrics"];
    AbsentMiss(f[2], n, 'w');
    AbsentMiss(f[3], n, 'f');
  }

  lemma FirmwareMiss8(q: string)
    requires q == "firmware"
    ensures Score(Catalog[8], q) == 0
  {
    FirmwareNormalized(q);
    FirmwareTitlePath8(Normalize(q));
    FirmwareKeywords8(Normalize(q));
    FieldsMiss(Catalog[8], q);
  }

  lemma FirmwareTitlePath9(n: string)
    requires n == "firmware"
    ensures forall j :: 0 <= j < 2 ==> !ContainsLowerFrom(Fields(Catalog[9])[j], n, 0)
  {
    var f := Fields(Catalog[9]);
    FirmwareLettersTitlePath9();
    assert f == ["Sustainability", "/sustainability", "battery", "energy", "CO2"];
    AbsentMiss(f[0], n, 'f');
    AbsentMiss(f[1], n, 'f');
  }

  lemma FirmwareKeywords9(n: string)
    requires n == "firmware"
    ensures forall j :: 2 <= j < |Fields(Catalog[9])| ==> !ContainsLowerFrom(Fields(Catalog[9])[j], n, 0)
  {
    var f := Fields(Catalog[9]);
    FirmwareLettersKeywords9();
    assert f == ["Sustainability", "/sustainability", "battery", "energy", "CO2"];
    AbsentMiss(f[2], n, 'f');
    AbsentMiss(f[3], n, 'f');
    AbsentMiss(f[4], n, 'f');
  }

  lemma FirmwareMiss9(q: string)
    requires q == "firmware"
    ensures Score(Catalog[9], q) == 0
  {
    FirmwareNormalized(q);
    FirmwareTitlePath9(Normalize(q));
    FirmwareKeywords9(Normalize(q));
    FieldsMiss(Catalog[9], q);
  }

  lemma FirmwareTitlePath10(n: string)
    requires n == "firmware"
    ensures forall j :: 0 <= j < 2 ==> !ContainsLowerFrom(Fields(Catalog[10])[j], n, 0)
  {
    var f := Fields(Catalog[10]);
    FirmwareLettersTitlePath10();
    assert f == ["Timeline", "/timeline"];
    AbsentMiss(f[0], n, 'f');
    AbsentMiss(f[1], n, 'f');
  }

  lemma FirmwareMiss10(q: string)
    requires q == "firmware"
    ensures Score(Catalog[10], q) == 0
  {
    FirmwareNormalized(q);
    FirmwareTitlePath10(Normalize(q));
    FieldsMiss(Catalog[10], q);
  }

  lemma FirmwareTitlePath11(n: string)
    requires n == "firmware"
    ensures forall j :: 0 <= j < 2 ==> !ContainsLowerFrom(Fields(Catalog[11])[j], n, 0)
  {
    var f := Fields(Catalog[11]);
    FirmwareLettersTitlePath11();
    assert f == ["Future Work", "/future-work"];
    AbsentMiss(f[0], n, 'i');
    AbsentMiss(f[1], n, 'i');
  }

  lemma FirmwareMiss11(q: string)
    requires q == "firmware"
    ensures Score(Catalog[11], q) == 0
  {
    FirmwareNormalized(q);
    FirmwareTitlePath11(Normalize(q));
    FieldsMiss(Catalog[11], q);
  }

  lemma FirmwareTitlePath12(n: string)
    requires n == "firmware"
    ensures forall j :: 0 <= j < 2 ==> !ContainsLowerFrom(Fields(Catalog[12])[j], n, 0)
  {
    var f := Fields(Catalog[12]);
    FirmwareLettersTitlePath12();
    assert f == ["Professional Components", "/professional-components", "ethics", "IP", "safety"];
    AbsentMiss(f[0], n, 'w');
    AbsentMiss(f[1], n, 'w');
  }

  lemma FirmwareKeywords12(n: string)
    requires n == "firmware"
    ensures forall j :: 2 <= j < |Fields(Catalog[12])| ==> !ContainsLowerFrom(Fields(Catalog[12])[j], n, 0)
  {
    var f := Fields(Catalog[12]);
    FirmwareLettersKeywords12();
    assert f == ["Professional Components", "/professional-components", "ethics", "IP", "safety"];
    AbsentMiss(f[2], n, 'f');
    AbsentMiss(f[3], n, 'f');
    AbsentMiss(f[4], n, 'i');
  }

  lemma FirmwareMiss12(q: string)
    requires q == "firmware"
    ensures Score(Catalog[12], q) == 0
  {
    FirmwareNormalized(q);
    FirmwareTitlePath12(Normalize(q));
    FirmwareKeywords12(Normalize(q));
    FieldsMiss(Catalog[12], q);
  }

  lemma FirmwareTitlePath13(n: string)
    requires n == "firmware"
    ensures forall j :: 0 <= j < 2 ==> !ContainsLowerFrom(Fields(Catalog[13])[j], n, 0)
  {
    var f := Fields(Catalog[13]);
    FirmwareLettersTitlePath13();
    assert f == ["Lessons Learned", "/lessons-learned"];
    AbsentMiss(f[0], n, 'f');
    AbsentMiss(f[1], n, 'f');
  }

  lemma FirmwareMiss13(q: string)
    requires q == "firmware"
    ensures Score(Catalog[13], q) == 0
  {
    FirmwareNormalized(q);
    FirmwareTitlePath13(Normalize(q));
    FieldsMiss(Catalog[13], q);
  }

  lemma FirmwareTitlePath14(n: string)
    requires n == "firmware"
    ensures forall j :: 0 <= j < 2 ==> !ContainsLowerFrom(Fields(Catalog[14])[j], n, 0)
  {
    var f := Fields(Catalog[14]);
    FirmwareLettersTitlePath14();
    assert f == ["Documentation", "/documentation", "report", "slides", "zip"];
    AbsentMiss(f[0], n, 'f');
    AbsentMiss(f[1], n, 'f');
  }

  lemma FirmwareKeywords14(n: string)
    requires n == "firmware"
    ensures forall j :: 2 <= j < |Fields(Catalog[14])| ==> !ContainsLowerFrom(Fields(Catalog[14])[j], n, 0)
  {
    var f := Fields(Catalog[14]);
    FirmwareLettersKeywords14();
    assert f == ["Documentation", "/documentation", "report", "slides", "zip"];
    AbsentMiss(f[2], n, 'f');
    AbsentMiss(f[3], n, 'f');
    AbsentMiss(f[4], n, 'f');
  }

  lemma FirmwareMiss14(q: string)
    requires q == "firmware"
    ensures Score(Catalog[14], q) == 0
  {
    FirmwareNormalized(q);
    FirmwareTitlePath14(Normalize(q));
    FirmwareKeywords14(Normalize(q));
    FieldsMiss(Catalog[14], q);
  }

  lemma FirmwareTitlePath15(n: string)
    requires n == "firmware"
    ensures forall j :: 0 <= j < 2 ==> !ContainsLowerFrom(Fields(Catalog[15])[j], n, 0)
  {
    var f := Fields(Catalog[15]);
    FirmwareLettersTitlePath15();
    assert f == ["Team & Contact", "/team-contact", "email", "advisor"];
    AbsentMiss(f[0], n, 'f');
    AbsentMiss(f[1], n, 'f');
  }

  lemma FirmwareKeywords15(n: string)
    requires n == "firmware"
    ensures forall j :: 2 <= j < |Fields(Catalog[15])| ==> !ContainsLowerFrom(Fields(Catalog[15])[j], n, 0)
  {
    var f := Fields(Catalog[15]);
    FirmwareLettersKeywords15();
    assert f == ["Team & Contact", "/team-contact", "email", "advisor"];
    AbsentMiss(f[2], n, 'f');
    AbsentMiss(f[3], n, 'f');
  }

  lemma FirmwareMiss15(q: string)
    requires q == "firmware"
    ensures Score(Catalog[15], q) == 0
  {
    FirmwareNormalized(q);
    FirmwareTitlePath15(Normalize(q));
    FirmwareKeywords15(Normalize(q));
    FieldsMiss(Catalog[15], q);
  }

  /** Every entry but Firmware scores 0 for the query "firmware". */
  lemma FirmwareMisses(q: string)
    requires q == "firmware"
    ensures forall i :: 0 <= i < |Catalog| && i != 5 ==> Score(Catalog[i], q) == 0
  {
    forall i | 0 <= i < |Catalog| && i != 5 ensures Score(Catalog[i], q) == 0 {
      if i == 0 {
        FirmwareMiss0(q);
      } else if i == 1 {
        FirmwareMiss1(q);
      } else if i == 2 {
        FirmwareMiss2(q);
      } else if i == 3 {
        FirmwareMiss3(q);
      } else if i == 4 {
        FirmwareMiss4(q);
      } else if i == 6 {
        FirmwareMiss6(q);
      } else if i == 7 {
        FirmwareMiss7(q);
      } else if i == 8 {
        FirmwareMiss8(q);
      } else if i == 9 {
        FirmwareMiss9(q);
      } else if i == 10 {
        FirmwareMiss10(q);
      } else if i == 11 {
        FirmwareMiss11(q);
      } else if i == 12 {
        FirmwareMiss12(q);
      } else if i == 13 {
        FirmwareMiss13(q);
      } else if i == 14 {
        FirmwareMiss14(q);
      } else {
        assert i == 15;
        FirmwareMiss15(q);
      }
    }
  }

  lemma DataTitlePath0(n: string)
    requires n == "data"
    ensures forall j :: 0 <= j < 2 ==> !ContainsLowerFrom(Fields(Catalog[0])[j], n, 0)
  {
    var f := Fields(Catalog[0]);
    DataLettersTitlePath0();
    assert f == ["Home", "/"];
    AbsentMiss(f[0], n, 'd');
    AbsentMiss(f[1], n, 'd');
  }

  lemma DataMiss0(q: string)
    requires q == "data"
    ensures Score(Catalog[0], q) == 0
  {
    DataNormalized(q);
    DataTitlePath0(Normalize(q));
    FieldsMiss(Catalog[0], q);
  }

  lemma DataTitlePath1(n: string)
    requires n == "data"
    ensures forall j :: 0 <= j < 2 ==> !ContainsLowerFrom(Fields(Catalog[1])[j], n, 0)
  {
    var f := Fields(Catalog[1]);
    assert f == ["Project Background", "/project-background", "problem", "solution", "stats"];
    DataMissTitleProjectBackground(f[0], n);
    DataMissPathProjectBackground(f[1], n);
  }

  lemma DataKeywords1(n: string)
    requires n == "data"
    ensures forall j :: 2 <= j < |Fields(Catalog[1])| ==> !ContainsLowerFrom(Fields(Catalog[1])[j], n, 0)
  {
    var f := Fields(Catalog[1]);
    DataLettersKeywords1();
    assert f == ["Project Background", "/project-background", "problem", "solution", "stats"];
    AbsentMiss(f[2], n, 'd');
    AbsentMiss(f[3], n, 'd');
    AbsentMiss(f[4], n, 'd');
  }

  lemma DataMiss1(q: string)
    requires q == "data"
    ensures Score(Catalog[1], q) == 0
  {
    DataNormalized(q);
    DataTitlePath1(Normalize(q));
    DataKeywords1(Normalize(q));
    FieldsMiss(Catalog[1], q);
  }

  lemma DataTitlePath2(n: string)
    requires n == "data"
    ensures forall j :: 0 <= j < 2 ==> !ContainsLowerFrom(Fields(Catalog[2])[j], n, 0)
  {
    var f := Fields(Catalog[2]);
    assert f == ["System Diagram", "/system-diagram", "architecture", "block diagram"];
    DataMissTitleSystemDiagram(f[0], n);
    DataMissPathSystemDiagram(f[1], n);
  }

  lemma DataKeywords2(n: string)
    requires n == "data"
    ensures forall j :: 2 <= j < |Fields(Catalog[2])| ==> !ContainsLowerFrom(Fields(Catalog[2])[j], n, 0)
  {
    var f := Fields(Catalog[2]);
    DataLettersKeywords2();
    assert f == ["System Diagram", "/system-diagram", "architecture", "block diagram"];
    AbsentMiss(f[2], n, 'd');
    AbsentMiss(f[3], n, 't');
  }

  lemma DataMiss2(q: string)
    requires q == "data"
    ensures Score(Catalog[2], q) == 0
  {
    DataNormalized(q);
    DataTitlePath2(Normalize(q));
    DataKeywords2(Normalize(q));
    FieldsMiss(Catalog[2], q);
  }

  lemma DataTitlePath3(n: string)
    requires n == "data"
    ensures forall j :: 0 <= j < 2 ==> !ContainsLowerFrom(Fields(Catalog[3])[j], n, 0)
  {
    var f := Fields(Catalog[3]);
    DataLettersTitlePath3();
    assert f == ["Parts List", "/parts-list", "BOM", "components"];
    AbsentMiss(f[0], n, 'd');
    AbsentMiss(f[1], n, 'd');
  }

  lemma DataKeywords3(n: string)
    requires n == "data"
    ensures forall j :: 2 <= j < |Fields(Catalog[3])| ==> !ContainsLowerFrom(Fields(Catalog[3])[j], n, 0)
  {
    var f := Fields(Catalog[3]);
    DataLettersKeywords3();
    assert f == ["Parts List", "/parts-list", "BOM", "components"];
    AbsentMiss(f[2], n, 'd');
    AbsentMiss(f[3], n, 'd');
  }

  lemma DataMiss3(q: string)
    requires q == "data"
    ensures Score(Catalog[3], q) == 0
  {
    DataNormalized(q);
    DataTitlePath3(Normalize(q));
    DataKeywords3(Normalize(q));
    FieldsMiss(Catalog[3], q);
  }

  lemma DataTitlePath4(n: string)
    requires n == "data"
    ensures forall j :: 0 <= j < 2 ==> !ContainsLowerFrom(Fields(Catalog[4])[j], n, 0)
  {
    var f := Fields(Catalog[4]);
    DataLettersTitlePath4();
    assert f == ["Clamp & Enclosure", "/clamp-enclosure", "3D print", "mechanical"];
    AbsentMiss(f[0], n, 'd');
    AbsentMiss(f[1], n, 'd');
  }

  lemma DataKeywords4(n: string)
    requires n == "data"
    ensures forall j :: 2 <= j < |Fields(Catalog[4])| ==> !ContainsLowerFrom(Fields(Catalog[4])[j], n, 0)
  {
    var f := Fields(Catalog[4]);
    DataLettersKeywords4();
    assert f == ["Clamp & Enclosure", "/clamp-enclosure", "3D print", "mechanical"];
    AbsentMiss(f[2], n, 'a');
    AbsentMiss(f[3], n, 'd');
  }

  lemma DataMiss4(q: string)
    requires q == "data"
    ensures Score(Catalog[4], q) == 0
  {
    DataNormalized(q);
    DataTitlePath4(Normalize(q));
    DataKeywords4(Normalize(q));
    FieldsMiss(Catalog[4], q);
  }

  lemma DataTitlePath5(n: string)
    requires n == "data"
    ensures forall j :: 0 <= j < 2 ==> !ContainsLowerFrom(Fields(Catalog[5])[j], n, 0)
  {
    var f := Fields(Catalog[5]);
    DataLettersTitlePath5();
    assert f == ["Firmware", "/firmware", "ESP32", "RMS", "accelerometer"];
    AbsentMiss(f[0], n, 'd');
    AbsentMiss(f[1], n, 'd');
  }

  lemma DataKeywords5(n: string)
    requires n == "data"
    ensures forall j :: 2 <= j < |Fields(Catalog[5])| ==> !ContainsLowerFrom(Fields(Catalog[5])[j], n, 0)
  {
    var f := Fields(Catalog[5]);
    DataLettersKeywords5();
    assert f == ["Firmware", "/firmware", "ESP32", "RMS", "accelerometer"];
    AbsentMiss(f[2], n, 'd');
    AbsentMiss(f[3], n, 'd');
    AbsentMiss(f[4], n, 'd');
  }

  lemma DataMiss5(q: string)
    requires q == "data"
    ensures Score(Catalog[5], q) == 0
  {
    DataNormalized(q);
    DataTitlePath5(Normalize(q));
    DataKeywords5(Normalize(q));
    FieldsMiss(Catalog[5], q);
  }

  lemma DataTitlePath6(n: string)
    requires n == "data"
    ensures forall j :: 0 <= j < 2 ==> !ContainsLowerFrom(Fields(Catalog[6])[j], n, 0)
  {
    var f := Fields(Catalog[6]);
    DataLettersTitlePath6();
    assert f == ["Mobile App", "/mobile-app", "Flutter", "Android", "iOS"];
    AbsentMiss(f[0], n, 'd');
    AbsentMiss(f[1], n, 'd');
  }

  lemma DataKeywords6(n: string)
    requires n == "data"
    ensures forall j :: 2 <= j < |Fields(Catalog[6])| ==> !ContainsLowerFrom(Fields(Catalog[6])[j], n, 0)
  {
    var f := Fields(Catalog[6]);
    DataLettersKeywords6();
    assert f == ["Mobile App", "/mobile-app", "Flutter", "Android", "iOS"];
    AbsentMiss(f[2], n, 'd');
    AbsentMiss(f[3], n, 't');
    AbsentMiss(f[4], n, 'd');
  }

  lemma DataMiss6(q: string)
    requires q == "data"
    ensures Score(Catalog[6], q) == 0
  {
    DataNormalized(q);
    DataTitlePath6(Normalize(q));
    DataKeywords6(Normalize(q));
    FieldsMiss(Catalog[6], q);
  }

  lemma DataTitlePath8(n: string)
    requires n == "data"
    ensures forall j :: 0 <= j < 2 ==> !ContainsLowerFrom(Fields(Catalog[8])[j], n, 0)
  {
    var f := Fields(Catalog[8]);
    DataLettersTitlePath8();
    assert f == ["Testing & Results", "/testing-results", "confusion matrix", "metrics"];
    AbsentMiss(f[0], n, 'd');
    AbsentMiss(f[1], n, 'd');
  }

  lemma DataKeywords8(n: string)
    requires n == "data"
    ensures forall j :: 2 <= j < |Fields(Catalog[8])| ==> !ContainsLowerFrom(Fields(Catalog[8])[j], n, 0)
  {
    var f := Fields(Catalog[8]);
    DataLettersKeywords8();
    assert f == ["Testing & Results", "/testing-results", "confusion matrix", "metrics"];
    AbsentMiss(f[2], n, 'd');
    AbsentMiss(f[3], n, 'd');
  }

  lemma DataMiss8(q: string)
    requires q == "data"
    ensures Score(Catalog[8], q) == 0
  {
    DataNormalized(q);
    DataTitlePath8(Normalize(q));
    DataKeywords8(Normalize(q));
    FieldsMiss(Catalog[8], q);
  }

  lemma DataTitlePath9(n: string)
    requires n == "data"
    ensures forall j :: 0 <= j < 2 ==> !ContainsLowerFrom(Fields(Catalog[9])[j], n, 0)
  {
    var f := Fields(Catalog[9]);
    DataLettersTitlePath9();
    assert f == ["Sustainability", "/sustainability", "battery", "energy", "CO2"];
    AbsentMiss(f[0], n, 'd');
    AbsentMiss(f[1], n, 'd');
  }

  lemma DataKeywords9(n: string)
    requires n == "data"
    ensures forall j :: 2 <= j < |Fields(Catalog[9])| ==> !ContainsLowerFrom(Fields(Catalog[9])[j], n, 0)
  {
    var f := Fields(Catalog[9]);
    DataLettersKeywords9();
    assert f == ["Sustainability", "/sustainability", "battery", "energy", "CO2"];
    AbsentMiss(f[2], n, 'd');
    AbsentMiss(f[3], n, 'd');
    AbsentMiss(f[4], n, 'd');
  }

  lemma DataMiss9(q: string)
    requires q == "data"
    ensures Score(Catalog[9], q) == 0
  {
    DataNormalized(q);
    DataTitlePath9(Normalize(q));
    DataKeywords9(Normalize(q));
    FieldsMiss(Catalog[9], q);
  }

  lemma DataTitlePath10(n: string)
    requires n == "data"
    ensures forall j :: 0 <= j < 2 ==> !ContainsLowerFrom(Fields(Catalog[10])[j], n, 0)
  {
    var f := Fields(Catalog[10]);
    DataLettersTitlePath10();
    assert f == ["Timeline", "/timeline"];
    AbsentMiss(f[0], n, 'd');
    AbsentMiss(f[1], n, 'd');
  }

  lemma DataMiss10(q: string)
    requires q == "data"
    ensures Score(Catalog[10], q) == 0
  {
    DataNormalized(q);
    DataTitlePath10(Normalize(q));
    FieldsMiss(Catalog[10], q);
  }

  lemma DataTitlePath11(n: string)
    requires n == "data"
    ensures forall j :: 0 <= j < 2 ==> !ContainsLowerFrom(Fields(Catalog[11])[j], n, 0)
  {
    var f := Fields(Catalog[11]);
    DataLettersTitlePath11();
    assert f == ["Future Work", "/future-work"];
    AbsentMiss(f[0], n, 'd');
    AbsentMiss(f[1], n, 'd');
  }

  lemma DataMiss11(q: string)
    requires q == "data"
    ensures Score(Catalog[11], q) == 0
  {
    DataNormalized(q);
    DataTitlePath11(Normalize(q));
    FieldsMiss(Catalog[11], q);
  }

  lemma DataTitlePath12(n: string)
    requires n == "data"
    ensures forall j :: 0 <= j < 2 ==> !ContainsLowerFrom(Fields(Catalog[12])[j], n, 0)
  {
    var f := Fields(Catalog[12]);
    DataLettersTitlePath12();
    assert f == ["Professional Components", "/professional-components", "ethics", "IP", "safety"];
    AbsentMiss(f[0], n, 'd');
    AbsentMiss(f[1], n, 'd');
  }

  lemma DataKeywords12(n: string)
    requires n == "data"
    ensures forall j :: 2 <= j < |Fields(Catalog[12])| ==> !ContainsLowerFrom(Fields(Catalog[12])[j], n, 0)
  {
    var f := Fields(Catalog[12]);
    DataLettersKeywords12();
    assert f == ["Professional Components", "/professional-components", "ethics", "IP", "safety"];
    AbsentMiss(f[2], n, 'd');
    AbsentMiss(f[3], n, 'd');
    AbsentMiss(f[4], n, 'd');
  }

  lemma DataMiss12(q: string)
    requires q == "data"
    ensures Score(Catalog[12], q) == 0
  {
    DataNormalized(q);
    DataTitlePath12(Normalize(q));
    DataKeywords12(Normalize(q));
    FieldsMiss(Catalog[12], q);
  }

  lemma DataTitlePath13(n: string)
    requires n == "data"
    ensures forall j :: 0 <= j < 2 ==> !ContainsLowerFrom(Fields(Catalog[13])[j], n, 0)
  {
    var f := Fields(Catalog[13]);
    DataLettersTitlePath13();
    assert f == ["Lessons Learned", "/lessons-learned"];
    AbsentMiss(f[0], n, 't');
    AbsentMiss(f[1], n, 't');
  }

  lemma DataMiss13(q: string)
    requires q == "data"
    ensures Score(Catalog[13], q) == 0
  {
    DataNormalized(q);
    DataTitlePath13(Normalize(q));
    FieldsMiss(Catalog[13], q);
  }

  lemma DataTitlePath14(n: string)
    requires n == "data"
    ensures forall j :: 0 <= j < 2 ==> !ContainsLowerFrom(Fields(Catalog[14])[j], n, 0)
  {
    var f := Fields(Catalog[14]);
    assert f == ["Documentation", "/documentation", "report", "slides", "zip"];
    DataMissTitleDocumentation(f[0], n);
    DataMissPathDocumentation(f[1], n);
  }

  lemma DataKeywords14(n: string)
    requires n == "data"
    ensures forall j :: 2 <= j < |Fields(Catalog[14])| ==> !ContainsLowerFrom(Fields(Catalog[14])[j], n, 0)
  {
    var f := Fields(Catalog[14]);
    DataLettersKeywords14();
    assert f == ["Documentation", "/documentation", "report", "slides", "zip"];
    AbsentMiss(f[2], n, 'd');
    AbsentMiss(f[3], n, 'a');
    AbsentMiss(f[4], n, 'd');
  }

  lemma DataMiss14(q: string)
    requires q == "data"
    ensures Score(Catalog[14], q) == 0
  {
    DataNormalized(q);
    DataTitlePath14(Normalize(q));
    DataKeywords14(Normalize(q));
    FieldsMiss(Catalog[14], q);
  }

  lemma DataTitlePath15(n: string)
    requires n == "data"
    ensures forall j :: 0 <= j < 2 ==> !ContainsLowerFrom(Fields(Catalog[15])[j], n, 0)
  {
    var f := Fields(Catalog[15]);
    DataLettersTitlePath15();
    assert f == ["Team & Contact", "/team-contact", "email", "advisor"];
    AbsentMiss(f[0], n, 'd');
    AbsentMiss(f[1], n, 'd');
  }

  lemma DataKeywords15(n: string)
    requires n == "data"
    ensures forall j :: 2 <= j < |Fields(Catalog[15])| ==> !ContainsLowerFrom(Fields(Catalog[15])[j], n, 0)
  {
    var f := Fields(Catalog[15]);
    DataLettersKeywords15();
    assert f == ["Team & Contact", "/team-contact", "email", "advisor"];
    AbsentMiss(f[2], n, 'd');
    AbsentMiss(f[3], n, 't');
  }

  lemma DataMiss15(q: string)
    requires q == "data"
    ensures Score(Catalog[15], q) == 0
  {
    DataNormalized(q);
    DataTitlePath15(Normalize(q));
    DataKeywords15(Normalize(q));
    FieldsMiss(Catalog[15], q);
  }

  /** Every entry but Cloud & Data scores 0 for the query "data". */
  lemma DataMisses(q: string)
    requires q == "data"
    ensures forall i :: 0 <= i < |Catalog| && i != 7 ==> Score(Catalog[i], q) == 0
  {
    forall i | 0 <= i < |Catalog| && i != 7 ensures Score(Catalog[i], q) == 0 {
      if i == 0 {
        DataMiss0(q);
      } else if i == 1 {
        DataMiss1(q);
      } else if i == 2 {
        DataMiss2(q);
      } else if i == 3 {
        DataMiss3(q);
      } else if i == 4 {
        DataMiss4(q);
      } else if i == 5 {
        DataMiss5(q);
      } else if i == 6 {
        DataMiss6(q);
      } else if i == 8 {
        DataMiss8(q);
      } else if i == 9 {
        DataMiss9(q);
      } else if i == 10 {
        DataMiss10(q);
      } else if i == 11 {
        DataMiss11(q);
      } else if i == 12 {
        DataMiss12(q);
      } else if i == 13 {
        DataMiss13(q);
      } else if i == 14 {
        DataMiss14(q);
      } else {
        assert i == 15;
        DataMiss15(q);
      }
    }
  }

  lemma BomTitlePath0(n: string)
    requires n == "bom"
    ensures forall j :: 0 <= j < 2 ==> !ContainsLowerFrom(Fields(Catalog[0])[j], n, 0)
  {
    var f := Fields(Catalog[0]);
    BomLettersTitlePath0();
    assert f == ["Home", "/"];
    AbsentMiss(f[0], n, 'b');
    AbsentMiss(f[1], n, 'b');
  }

  lemma BomMiss0(q: string)
    requires q == "BOM" || q == "bom"
    ensures Score(Catalog[0], q) == 0
  {
    BomNormalized(q);
    BomTitlePath0(Normalize(q));
    FieldsMiss(Catalog[0], q);
  }

  lemma BomTitlePath1(n: string)
    requires n == "bom"
    ensures forall j :: 0 <= j < 2 ==> !ContainsLowerFrom(Fields(Catalog[1])[j], n, 0)
  {
    var f := Fields(Catalog[1]);
    BomLettersTitlePath1();
    assert f == ["Project Background", "/project-background", "problem", "solution", "stats"];
    AbsentMiss(f[0], n, 'm');
    AbsentMiss(f[1], n, 'm');
  }

  lemma BomKeywords1(n: string)
    requires n == "bom"
    ensures forall j :: 2 <= j < |Fields(Catalog[1])| ==> !ContainsLowerFrom(Fields(Catalog[1])[j], n, 0)
  {
    var f := Fields(Catalog[1]);
    BomLettersKeywords1();
    assert f == ["Project Background", "/project-background", "problem", "solution", "stats"];
    BomMissKeywordProblem(f[2], n);
    AbsentMiss(f[3], n, 'b');
    AbsentMiss(f[4], n, 'b');
  }

  lemma BomMiss1(q: string)
    requires q == "BOM" || q == "bom"
    ensures Score(Catalog[1], q) == 0
  {
    BomNormalized(q);
    BomTitlePath1(Normalize(q));
    BomKeywords1(Normalize(q));
    FieldsMiss(Catalog[1], q);
  }

  lemma BomTitlePath2(n: string)
    requires n == "bom"
    ensures forall j :: 0 <= j < 2 ==> !ContainsLowerFrom(Fields(Catalog[2])[j], n, 0)
  {
    var f := Fields(Catalog[2]);
    BomLettersTitlePath2();
    assert f == ["System Diagram", "/system-diagram", "architecture", "block diagram"];
    AbsentMiss(f[0], n, 'b');
    AbsentMiss(f[1], n, 'b');
  }

  lemma BomKeywords2(n: string)
    requires n == "bom"
    ensures forall j :: 2 <= j < |Fields(Catalog[2])| ==> !ContainsLowerFrom(Fields(Catalog[2])[j], n, 0)
  {
    var f := Fields(Catalog[2]);
    BomLettersKeywords2();
    assert f == ["System Diagram", "/system-diagram", "architecture", "block diagram"];
    AbsentMiss(f[2], n, 'b');
    BomMissKeywordBlockDiagram(f[3], n);
  }

  lemma BomMiss2(q: string)
    requires q == "BOM" || q == "bom"
    ensures Score(Catalog[2], q) == 0
  {
    BomNormalized(q);
    BomTitlePath2(Normalize(q));
    BomKeywords2(Normalize(q));
    FieldsMiss(Catalog[2], q);
  }

  lemma BomTitlePath4(n: string)
    requires n == "bom"
    ensures forall j :: 0 <= j < 2 ==> !ContainsLowerFrom(Fields(Catalog[4])[j], n, 0)
  {
    var f := Fields(Catalog[4]);
    BomLettersTitlePath4();
    assert f == ["Clamp & Enclosure", "/clamp-enclosure", "3D print", "mechanical"];
    AbsentMiss(f[0], n, 'b');
    AbsentMiss(f[1], n, 'b');
  }

  lemma BomKeywords4(n: string)
    requires n == "bom"
    ensures forall j :: 2 <= j < |Fields(Catalog[4])| ==> !ContainsLowerFrom(Fields(Catalog[4])[j], n, 0)
  {
    var f := Fields(Catalog[4]);
    BomLettersKeywords4();
    assert f == ["Clamp & Enclosure", "/clamp-enclosure", "3D print", "mechanical"];
    AbsentMiss(f[2], n, 'b');
    AbsentMiss(f[3], n, 'b');
  }

  lemma BomMiss4(q: string)
    requires q == "BOM" || q == "bom"
    ensures Score(Catalog[4], q) == 0
  {
    BomNormalized(q);
    BomTitlePath4(Normalize(q));
    BomKeywords4(Normalize(q));
    FieldsMiss(Catalog[4], q);
  }

  lemma BomTitlePath5(n: string)
    requires n == "bom"
    ensures forall j :: 0 <= j < 2 ==> !ContainsLowerFrom(Fields(Catalog[5])[j], n, 0)
  {
    var f := Fields(Catalog[5]);
    BomLettersTitlePath5();
    assert f == ["Firmware", "/firmware", "ESP32", "RMS", "accelerometer"];
    AbsentMiss(f[0], n, 'b');
    AbsentMiss(f[1], n, 'b');
  }

  lemma BomKeywords5(n: string)
    requires n == "bom"
    ensures forall j :: 2 <= j < |Fields(Catalog[5])| ==> !ContainsLowerFrom(Fields(Catalog[5])[j], n, 0)
  {
    var f := Fields(Catalog[5]);
    BomLettersKeywords5();
    assert f == ["Firmware", "/firmware", "ESP32", "RMS", "accelerometer"];
    AbsentMiss(f[2], n, 'b');
    AbsentMiss(f[3], n, 'b');
    AbsentMiss(f[4], n, 'b');
  }

  lemma BomMiss5(q: string)
    requires q == "BOM" || q == "bom"
    ensures Score(Catalog[5], q) == 0
  {
    BomNormalized(q);
    BomTitlePath5(Normalize(q));
    BomKeywords5(Normalize(q));
    FieldsMiss(Catalog[5], q);
  }

  lemma BomTitlePath6(n: string)
    requires n == "bom"
    ensures forall j :: 0 <= j < 2 ==> !ContainsLowerFrom(Fields(Catalog[6])[j], n, 0)
  {
    var f := Fields(Catalog[6]);
    assert f == ["Mobile App", "/mobile-app", "Flutter", "Android", "iOS"];
    BomMissTitleMobileApp(f[0], n);
    BomMissPathMobileApp(f[1], n);
  }

  lemma BomKeywords6(n: string)
    requires n == "bom"
    ensures forall j :: 2 <= j < |Fields(Catalog[6])| ==> !ContainsLowerFrom(Fields(Catalog[6])[j], n, 0)
  {
    var f := Fields(Catalog[6]);
    BomLettersKeywords6();
    assert f == ["Mobile App", "/mobile-app", "Flutter", "Android", "iOS"];
    AbsentMiss(f[2], n, 'b');
    AbsentMiss(f[3], n, 'b');
    AbsentMiss(f[4], n, 'b');
  }

  lemma BomMiss6(q: string)
    requires q == "BOM" || q == "bom"
    ensures Score(Catalog[6], q) == 0
  {
    BomNormalized(q);
    BomTitlePath6(Normalize(q));
    BomKeywords6(Normalize(q));
    FieldsMiss(Catalog[6], q);
  }

  lemma BomTitlePath7(n: string)
    requires n == "bom"
    ensures forall j :: 0 <= j < 2 ==> !ContainsLowerFrom(Fields(Catalog[7])[j], n, 0)
  {
    var f := Fields(Catalog[7]);
    BomLettersTitlePath7();
    assert f == ["Cloud & Data", "/cloud-data", "Supabase", "database", "schema"];
    AbsentMiss(f[0], n, 'b');
    AbsentMiss(f[1], n, 'b');
  }

  lemma BomKeywords7(n: string)
    requires n == "bom"
    ensures forall j :: 2 <= j < |Fields(Catalog[7])| ==> !ContainsLowerFrom(Fields(Catalog[7])[j], n, 0)
  {
    var f := Fields(Catalog[7]);
    BomLettersKeywords7();
    assert f == ["Cloud & Data", "/cloud-data", "Supabase", "database", "schema"];
    AbsentMiss(f[2], n, 'o');
    AbsentMiss(f[3], n, 'o');
    AbsentMiss(f[4], n, 'b');
  }

  lemma BomMiss7(q: string)
    requires q == "BOM" || q == "bom"
    ensures Score(Catalog[7], q) == 0
  {
    BomNormalized(q);
    BomTitlePath7(Normalize(q));
    BomKeywords7(Normalize(q));
    FieldsMiss(Catalog[7], q);
  }

  lemma BomTitlePath8(n: string)
    requires n == "bom"
    ensures forall j :: 0 <= j < 2 ==> !ContainsLowerFrom(Fields(Catalog[8])[j], n, 0)
  {
    var f := Fields(Catalog[8]);
    BomLettersTitlePath8();
    assert f == ["Testing & Results", "/testing-results", "confusion matrix", "metrics"];
    AbsentMiss(f[0], n, 'b');
    AbsentMiss(f[1], n, 'b');
  }

  lemma BomKeywords8(n: string)
    requires n == "bom"
    ensures forall j :: 2 <= j < |Fields(Catalog[8])| ==> !ContainsLowerFrom(Fields(Catalog[8])[j], n, 0)
  {
    var f := Fields(Catalog[8]);
    BomLettersKeywords8();
    assert f == ["Testing & Results", "/testing-results", "confusion matrix", "metrics"];
    AbsentMiss(f[2], n, 'b');
    AbsentMiss(f[3], n, 'b');
  }

  lemma BomMiss8(q: string)
    requires q == "BOM" || q == "bom"
    ensures Score(Catalog[8], q) == 0
  {
    BomNormalized(q);
    BomTitlePath8(Normalize(q));
    BomKeywords8(Normalize(q));
    FieldsMiss(Catalog[8], q);
  }

  lemma BomTitlePath9(n: string)
    requires n == "bom"
    ensures forall j :: 0 <= j < 2 ==> !ContainsLowerFrom(Fields(Catalog[9])[j], n, 0)
  {
    var f := Fields(Catalog[9]);
    BomLettersTitlePath9();
    assert f == ["Sustainability", "/sustainability", "battery", "energy", "CO2"];
    AbsentMiss(f[0], n, 'o');
    AbsentMiss(f[1], n, 'o');
  }

  lemma BomKeywords9(n: string)
    requires n == "bom"
    ensures forall j :: 2 <= j < |Fields(Catalog[9])| ==> !ContainsLowerFrom(Fields(Catalog[9])[j], n, 0)
  {
    var f := Fields(Catalog[9]);
    BomLettersKeywords9();
    assert f == ["Sustainability", "/sustainability", "battery", "energy", "CO2"];
    AbsentMiss(f[2], n, 'o');
    AbsentMiss(f[3], n, 'b');
    AbsentMiss(f[4], n, 'b');
  }

  lemma BomMiss9(q: string)
    requires q == "BOM" || q == "bom"
    ensures Score(Catalog[9], q) == 0
  {
    BomNormalized(q);
    BomTitlePath9(Normalize(q));
    BomKeywords9(Normalize(q));
    FieldsMiss(Catalog[9], q);
  }

  lemma BomTitlePath10(n: string)
    requires n == "bom"
    ensures forall j :: 0 <= j < 2 ==> !ContainsLowerFrom(Fields(Catalog[10])[j], n, 0)
  {
    var f := Fields(Catalog[10]);
    BomLettersTitlePath10();
    assert f == ["Timeline", "/timeline"];
    AbsentMiss(f[0], n, 'b');
    AbsentMiss(f[1], n, 'b');
  }

  lemma BomMiss10(q: string)
    requires q == "BOM" || q == "bom"
    ensures Score(Catalog[10], q) == 0
  {
    BomNormalized(q);
    BomTitlePath10(Normalize(q));
    FieldsMiss(Catalog[10], q);
  }

  lemma BomTitlePath11(n: string)
    requires n == "bom"
    ensures forall j :: 0 <= j < 2 ==> !ContainsLowerFrom(Fields(Catalog[11])[j], n, 0)
  {
    var f := Fields(Catalog[11]);
    BomLettersTitlePath11();
    assert f == ["Future Work", "/future-work"];
    AbsentMiss(f[0], n, 'b');
    AbsentMiss(f[1], n, 'b');
  }

  lemma BomMiss11(q: string)
    requires q == "BOM" || q == "bom"
    ensures Score(Catalog[11], q) == 0
  {
    BomNormalized(q);
    BomTitlePath11(Normalize(q));
    FieldsMiss(Catalog[11], q);
  }

  lemma BomTitlePath12(n: string)
    requires n == "bom"
    ensures forall j :: 0 <= j < 2 ==> !ContainsLowerFrom(Fields(Catalog[12])[j], n, 0)
  {
    var f := Fields(Catalog[12]);
    BomLettersTitlePath12();
    assert f == ["Professional Components", "/professional-components", "ethics", "IP", "safety"];
    AbsentMiss(f[0], n, 'b');
    AbsentMiss(f[1], n, 'b');
  }

  lemma BomKeywords12(n: string)
    requires n == "bom"
    ensures forall j :: 2 <= j < |Fields(Catalog[12])| ==> !ContainsLowerFrom(Fields(Catalog[12])[j], n, 0)
  {
    var f := Fields(Catalog[12]);
    BomLettersKeywords12();
    assert f == ["Professional Components", "/professional-components", "ethics", "IP", "safety"];
    AbsentMiss(f[2], n, 'b');
    AbsentMiss(f[3], n, 'b');
    AbsentMiss(f[4], n, 'b');
  }

  lemma BomMiss12(q: string)
    requires q == "BOM" || q == "bom"
    ensures Score(Catalog[12], q) == 0
  {
    BomNormalized(q);
    BomTitlePath12(Normalize(q));
    BomKeywords12(Normalize(q));
    FieldsMiss(Catalog[12], q);
  }

  lemma BomTitlePath13(n: string)
    requires n == "bom"
    ensures forall j :: 0 <= j < 2 ==> !ContainsLowerFrom(Fields(Catalog[13])[j], n, 0)
  {
    var f := Fields(Catalog[13]);
    BomLettersTitlePath13();
    assert f == ["Lessons Learned", "/lessons-learned"];
    AbsentMiss(f[0], n, 'b');
    AbsentMiss(f[1], n, 'b');
  }

  lemma BomMiss13(q: string)
    requires q == "BOM" || q == "bom"
    ensures Score(Catalog[13], q) == 0
  {
    BomNormalized(q);
    BomTitlePath13(Normalize(q));
    FieldsMiss(Catalog[13], q);
  }

  lemma BomTitlePath14(n: string)
    requires n == "bom"
    ensures forall j :: 0 <= j < 2 ==> !ContainsLowerFrom(Fields(Catalog[14])[j], n, 0)
  {
    var f := Fields(Catalog[14]);
    BomLettersTitlePath14();
    assert f == ["Documentation", "/documentation", "report", "slides", "zip"];
    AbsentMiss(f[0], n, 'b');
    AbsentMiss(f[1], n, 'b');
  }

  lemma BomKeywords14(n: string)
    requires n == "bom"
    ensures forall j :: 2 <= j < |Fields(Catalog[14])| ==> !ContainsLowerFrom(Fields(Catalog[14])[j], n, 0)
  {
    var f := Fields(Catalog[14]);
    BomLettersKeywords14();
    assert f == ["Documentation", "/documentation", "report", "slides", "zip"];
    AbsentMiss(f[2], n, 'b');
    AbsentMiss(f[3], n, 'b');
    AbsentMiss(f[4], n, 'b');
  }

  lemma BomMiss14(q: string)
    requires q == "BOM" || q == "bom"
    ensures Score(Catalog[14], q) == 0
  {
    BomNormalized(q);
    BomTitlePath14(Normalize(q));
    BomKeywords14(Normalize(q));
    FieldsMiss(Catalog[14], q);
  }

  lemma BomTitlePath15(n: string)
    requires n == "bom"
    ensures forall j :: 0 <= j < 2 ==> !ContainsLowerFrom(Fields(Catalog[15])[j], n, 0)
  {
    var f := Fields(Catalog[15]);
    BomLettersTitlePath15();
    assert f == ["Team & Contact", "/team-contact", "email", "advisor"];
    AbsentMiss(f[0], n, 'b');
    AbsentMiss(f[1], n, 'b');
  }

  lemma BomKeywords15(n: string)
    requires n == "bom"
    ensures forall j :: 2 <= j < |Fields(Catalog[15])| ==> !ContainsLowerFrom(Fields(Catalog[15])[j], n, 0)
  {
    var f := Fields(Catalog[15]);
    BomLettersKeywords15();
    assert f == ["Team & Contact", "/team-contact", "email", "advisor"];
    AbsentMiss(f[2], n, 'b');
    AbsentMiss(f[3], n, 'b');
  }

  lemma BomMiss15(q: string)
    requires q == "BOM" || q == "bom"
    ensures Score(Catalog[15], q) == 0
  {
    BomNormalized(q);
    BomTitlePath15(Normalize(q));
    BomKeywords15(Normalize(q));
    FieldsMiss(Catalog[15], q);
  }

  /** Every entry but Parts List scores 0 for the query "BOM". */
  lemma BomMisses(q: string)
    requires q == "BOM" || q == "bom"
    ensures forall i :: 0 <= i < |Catalog| && i != 3 ==> Score(Catalog[i], q) == 0
  {
    forall i | 0 <= i < |Catalog| && i != 3 ensures Score(Catalog[i], q) == 0 {
      if i == 0 {
        BomMiss0(q);
      } else if i == 1 {
        BomMiss1(q);
      } else if i == 2 {
        BomMiss2(q);
      } else if i == 4 {
        BomMiss4(q);
      } else if i == 5 {
        BomMiss5(q);
      } else if i == 6 {
        BomMiss6(q);
      } else if i == 7 {
        BomMiss7(q);
      } else if i == 8 {
        BomMiss8(q);
      } else if i == 9 {
        BomMiss9(q);
      } else if i == 10 {
        BomMiss10(q);
      } else if i == 11 {
        BomMiss11(q);
      } else if i == 12 {
        BomMiss12(q);
      } else if i == 13 {
        BomMiss13(q);
      } else if i == 14 {
        BomMiss14(q);
      } else {
        assert i == 15;
        BomMiss15(q);
      }
    }
  }
  /** The query "firmware" lists exactly the Firmware page, which scores 4. */
  lemma FirmwareQuery()
    ensures Results(Catalog, "firmware") == [Catalog[5]]
    ensures Score(Catalog[5], "firmware") == 4
  {
    var q := "firmware";
    FirmwareHit(q);
    FirmwareMisses(q);
    assert !IsSpace(q[0]);
    SingleResult(Catalog, q, 5);
  }

  /** The query "data" lists exactly the Cloud & Data page, with the maximal score 6. */
  lemma DataQuery()
    ensures Results(Catalog, "data") == [Catalog[7]]
    ensures Score(Catalog[7], "data") == 6
  {
    var q := "data";
    DataHit(q);
    DataMisses(q);
    assert !IsSpace(q[0]);
    SingleResult(Catalog, q, 7);
  }

  /** The query "BOM", in either case, lists exactly the Parts List page, which scores 2. */
  lemma BomQuery(q: string)
    requires q == "BOM" || q == "bom"
    ensures Results(Catalog, q) == [Catalog[3]]
    ensures Score(Catalog[3], q) == 2
  {
    BomHit(q);
    BomMisses(q);
    assert !IsSpace(q[0]);
    SingleResult(Catalog, q, 3);
  }
}
