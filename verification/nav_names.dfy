/**
 * The navigation names through `createPageUrl`: how one- and two-word
 * component names map to paths, and the letter facts about each word the
 * site's names are made of.
 */
module NavNames {
  import opened Text
  import opened PageUrl
  import opened Layout

  /** "Home", in either case pattern that lower-cases to "home", goes to the root. */
  lemma HomeName(a: string)
    requires Word(a) && ToLower(a) == "home"
    ensures CreatePageUrl(Concat([a])) == "/"
  {
    OneWordSlug(a);
  }

  /** A one-word name other than "home" goes to "/" and the word lower-cased. */
  lemma OneWordName(a: string, la: string)
    requires Word(a) && ToLower(a) == la && la != "home"
    ensures CreatePageUrl(Concat([a])) == "/" + la
  {
    OneWordUrl(a, la);
  }

  /** A two-word name goes to "/" and the lower-cased words joined by a hyphen. */
  lemma TwoWordName(a: string, b: string, la: string, lb: string)
    requires Word(a) && Word(b) && ToLower(a) == la && ToLower(b) == lb
    ensures CreatePageUrl(Concat([a, b])) == "/" + la + "-" + lb
  {
    assert Concat([a, b]) == a + b by {
      assert [a, b][1..] == [b];
    }
    TwoWordUrl(a, b, la, lb);
  }

  lemma HomeWord(w: string, lw: string)
    requires w == "Home" && lw == "home"
    ensures Word(w) && ToLower(w) == lw
  {
  }

  lemma ProjectWord(w: string, lw: string)
    requires w == "Project" && lw == "project"
    ensures Word(w) && ToLower(w) == lw
  {
  }

  lemma BackgroundWord(w: string, lw: string)
    requires w == "Background" && lw == "background"
    ensures Word(w) && ToLower(w) == lw
  {
  }

  lemma SystemWord(w: string, lw: string)
    requires w == "System" && lw == "system"
    ensures Word(w) && ToLower(w) == lw
  {
  }

  lemma DiagramWord(w: string, lw: string)
    requires w == "Diagram" && lw == "diagram"
    ensures Word(w) && ToLower(w) == lw
  {
  }

  lemma PartsWord(w: string, lw: string)
    requires w == "Parts" && lw == "parts"
    ensures Word(w) && ToLower(w) == lw
  {
  }

  lemma ListWord(w: string, lw: string)
    requires w == "List" && lw == "list"
    ensures Word(w) && ToLower(w) == lw
  {
  }

  lemma ClampWord(w: string, lw: string)
    requires w == "Clamp" && lw == "clamp"
    ensures Word(w) && ToLower(w) == lw
  {
  }

  lemma EnclosureWord(w: string, lw: string)
    requires w == "Enclosure" && lw == "enclosure"
    ensures Word(w) && ToLower(w) == lw
  {
  }

  lemma FirmwareWord(w: string, lw: string)
    requires w == "Firmware" && lw == "firmware"
    ensures Word(w) && ToLower(w) == lw
  {
  }

  lemma MobileWord(w: string, lw: string)
    requires w == "Mobile" && lw == "mobile"
    ensures Word(w) && ToLower(w) == lw
  {
  }

  lemma AppWord(w: string, lw: string)
    requires w == "App" && lw == "app"
    ensures Word(w) && ToLower(w) == lw
  {
  }

  lemma CloudWord(w: string, lw: string)
    requires w == "Cloud" && lw == "cloud"
    ensures Word(w) && ToLower(w) == lw
  {
  }

  lemma DataWord(w: string, lw: string)
    requires w == "Data" && lw == "data"
    ensures Word(w) && ToLower(w) == lw
  {
  }

  lemma TestingWord(w: string, lw: string)
    requires w == "Testing" && lw == "testing"
    ensures Word(w) && ToLower(w) == lw
  {
  }

  lemma ResultsWord(w: string, lw: string)
    requires w == "Results" && lw == "results"
    ensures Word(w) && ToLower(w) == lw
  {
  }

  lemma SustainabilityWord(w: string, lw: string)
    requires w == "Sustainability" && lw == "sustainability"
    ensures Word(w) && ToLower(w) == lw
  {
  }

  lemma TimelineWord(w: string, lw: string)
    requires w == "Timeline" && lw == "timeline"
    ensures Word(w) && ToLower(w) == lw
  {
  }

  lemma FutureWord(w: string, lw: string)
    requires w == "Future" && lw == "future"
    ensures Word(w) && ToLower(w) == lw
  {
  }

  lemma WorkWord(w: string, lw: string)
    requires w == "Work" && lw == "work"
    ensures Word(w) && ToLower(w) == lw
  {
  }

  lemma ProfessionalWord(w: string, lw: string)
    requires w == "Professional" && lw == "professional"
    ensures Word(w) && ToLower(w) == lw
  {
  }

  lemma ComponentsWord(w: string, lw: string)
    requires w == "Components" && lw == "components"
    ensures Word(w) && ToLower(w) == lw
  {
  }

  lemma LessonsWord(w: string, lw: string)
    requires w == "Lessons" && lw == "lessons"
    ensures Word(w) && ToLower(w) == lw
  {
  }

  lemma LearnedWord(w: string, lw: string)
    requires w == "Learned" && lw == "learned"
    ensures Word(w) && ToLower(w) == lw
  {
  }

  lemma DocumentationWord(w: string, lw: string)
    requires w == "Documentation" && lw == "documentation"
    ensures Word(w) && ToLower(w) == lw
  {
  }

  lemma TeamWord(w: string, lw: string)
    requires w == "Team" && lw == "team"
    ensures Word(w) && ToLower(w) == lw
  {
  }

  lemma ContactWord(w: string, lw: string)
    requires w == "Contact" && lw == "contact"
    ensures Word(w) && ToLower(w) == lw
  {
  }
}
