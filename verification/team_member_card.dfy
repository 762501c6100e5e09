/**
 * A team member's card: the initials shown in place of a missing or broken
 * headshot, and the flag that records whether the headshot loaded.
 */
module TeamMemberCard {
  import opened Wrappers
  import opened Text

  // ---------------------------------------------------------------- name.split(/\s+/)

  /** The index of the first whitespace character of `s`, or `|s|`. */
  function FirstSpace(s: string): (r: nat)
    ensures r <= |s| && (r < |s| ==> IsSpace(s[r]))
  {
    if s == [] || IsSpace(s[0]) then 0 else 1 + FirstSpace(s[1..])
  }

  lemma {:induction false} FirstSpaceSpec(s: string)
    ensures NoSpace(s[..FirstSpace(s)])
  {
    if s != [] && !IsSpace(s[0]) {
      FirstSpaceSpec(s[1..]);
      assert s[..FirstSpace(s)] == [s[0]] + s[1..][..FirstSpace(s[1..])];
    }
  }

  /** The index of the first non-whitespace character of `s`, or `|s|`. */
  function SpaceRun(s: string): (r: nat)
    ensures r <= |s| && (r < |s| ==> !IsSpace(s[r]))
  {
    if s != [] && IsSpace(s[0]) then 1 + SpaceRun(s[1..]) else 0
  }

  lemma {:induction false} SpaceRunSpec(s: string)
    ensures AllSpace(s[..SpaceRun(s)])
  {
    if s != [] && IsSpace(s[0]) {
      SpaceRunSpec(s[1..]);
      assert s[..SpaceRun(s)] == [s[0]] + s[1..][..SpaceRun(s[1..])];
    }
  }

  /**
   * `s.split(/\s+/)`: the pieces between maximal runs of whitespace. A run at
   * either end leaves an empty piece there, and the empty string gives one
   * empty piece.
   */
  function SplitRuns(s: string): (r: seq<string>)
    ensures |r| >= 1
    decreases |s|
  {
    var i := FirstSpace(s);
    if i == |s| then [s]
    else
      var j := i + SpaceRun(s[i..]);
      [s[..i]] + SplitRuns(s[j..])
  }

  /** `.filter(Boolean)`: the non-empty pieces, in order. */
  function NonEmpty(ps: seq<string>): (r: seq<string>)
    ensures |r| <= |ps|
    ensures forall k :: 0 <= k < |r| ==> r[k] != []
  {
    if ps == [] then []
    else (if ps[0] == [] then [] else [ps[0]]) + NonEmpty(ps[1..])
  }

  /** `.slice(0, 2)`. */
  function FirstTwo(ps: seq<string>): (r: seq<string>)
    ensures |r| == if |ps| < 2 then |ps| else 2
  {
    if |ps| < 2 then ps else ps[..2]
  }

  /** `n[0]?.toUpperCase() ?? ""`: the upper-cased first character, if any. */
  function Initial(n: string): (r: string)
    ensures |r| == if n == [] then 0 else 1
  {
    if n == [] then "" else [UpperChar(n[0])]
  }

  /** `.map(...)`. */
  function InitialsOf(ps: seq<string>): (r: seq<string>)
    ensures |r| == |ps|
    ensures forall k :: 0 <= k < |ps| ==> r[k] == Initial(ps[k])
  {
    if ps == [] then [] else [Initial(ps[0])] + InitialsOf(ps[1..])
  }

  /** `getInitials(name)`. */
  function GetInitials(name: string): (r: string)
    ensures |r| <= 2
  {
    var ps := FirstTwo(NonEmpty(SplitRuns(name)));
    assert forall k :: 0 <= k < |ps| ==> ps[k] != [];
    JoinSingles(InitialsOf(ps));
    Join(InitialsOf(ps), "")
  }

  // ---------------------------------------------------------------- the words of a name

  /** The maximal runs of non-whitespace characters of `s`, in order. */
  function Words(s: string): (r: seq<string>)
    ensures forall k :: 0 <= k < |r| ==> r[k] != [] && NoSpace(r[k])
    decreases |s|
  {
    if s == [] then []
    else if IsSpace(s[0]) then Words(s[1..])
    else
      var i := FirstSpace(s);
      FirstSpaceSpec(s);
      [s[..i]] + Words(s[i..])
  }

  /** Whitespace in front of a name adds no word. */
  lemma {:induction false} WordsSkip(p: string, s: string)
    requires AllSpace(p)
    ensures Words(p + s) == Words(s)
  {
    if p != [] {
      assert (p + s)[0] == p[0];
      assert (p + s)[1..] == p[1..] + s;
      WordsSkip(p[1..], s);
    } else {
      assert p + s == s;
    }
  }

  /** A word followed by whitespace is the first word. */
  lemma WordThen(w: string, rest: string)
    requires w != [] && NoSpace(w)
    requires rest == [] || IsSpace(rest[0])
    ensures Words(w + rest) == [w] + Words(rest)
  {
    var s := w + rest;
    assert FirstSpace(s) == |w| by { WordEnd(w, rest); }
    assert s[..|w|] == w && s[|w|..] == rest;
  }

  lemma {:induction false} WordEnd(w: string, rest: string)
    requires NoSpace(w)
    requires rest == [] || IsSpace(rest[0])
    ensures FirstSpace(w + rest) == |w|
  {
    if w != [] {
      assert (w + rest)[1..] == w[1..] + rest;
      WordEnd(w[1..], rest);
    }
  }

  /** The first piece of the split, then the split of what follows the first run of whitespace. */
  lemma SplitRunsFront(s: string, i: nat, j: nat)
    requires i == FirstSpace(s) < |s| && j == i + SpaceRun(s[i..])
    ensures SplitRuns(s) == [s[..i]] + SplitRuns(s[j..])
  {
  }

  /** Keeping the non-empty pieces of a piece and more pieces. */
  lemma NonEmptyCons(p: string, ps: seq<string>)
    ensures NonEmpty([p] + ps) == (if p == [] then [] else [p]) + NonEmpty(ps)
  {
    ConsParts(p, ps);
  }

  /** A run of whitespace adds no word. */
  lemma WordsAfterRun(s: string, i: nat, j: nat)
    requires i < |s| && j == i + SpaceRun(s[i..])
    ensures Words(s[i..]) == Words(s[j..])
  {
    var t := s[i..];
    var n := SpaceRun(t);
    SpaceRunSpec(t);
    assert t == t[..n] + t[n..];
    assert t[n..] == s[j..];
    WordsSkip(t[..n], t[n..]);
  }

  /**
   * The words of a name: its first word when it does not start with
   * whitespace, then the words after the first run of whitespace.
   */
  lemma WordsFront(s: string, i: nat, j: nat)
    requires i == FirstSpace(s) < |s| && j == i + SpaceRun(s[i..])
    ensures Words(s) == (if i > 0 then [s[..i]] else []) + Words(s[j..])
  {
    WordsAfterRun(s, i, j);
    if i > 0 {
      FirstSpaceSpec(s);
      assert s == s[..i] + s[i..];
      WordThen(s[..i], s[i..]);
    } else {
      assert s == s[i..];
    }
  }

  /**
   * Keeping the non-empty pieces of `split(/\s+/)` gives exactly the words of
   * the name.
   */
  lemma {:induction false} SplitWords(s: string)
    ensures NonEmpty(SplitRuns(s)) == Words(s)
    decreases |s|
  {
    var i := FirstSpace(s);
    if i == |s| {
      if s != [] {
        FirstSpaceSpec(s);
        assert s[..i] == s;
        WordThen(s, []);
        assert s + [] == s;
      }
    } else {
      var j := i + SpaceRun(s[i..]);
      SplitWords(s[j..]);
      SplitRunsFront(s, i, j);
      NonEmptyCons(s[..i], SplitRuns(s[j..]));
      WordsFront(s, i, j);
    }
  }

  /**
   * The words of two parts of a name joined by whitespace are the words of
   * the first part followed by the words of the second.
   */
  lemma {:induction false} WordsJoin(a: string, p: string, b: string)
    requires p != [] && AllSpace(p)
    ensures Words(a + p + b) == Words(a) + Words(b)
    decreases |a|, 1
  {
    if a == [] {
      assert a + p + b == p + b;
      WordsSkip(p, b);
    } else if IsSpace(a[0]) {
      assert (a + p + b)[1..] == a[1..] + p + b;
      WordsJoin(a[1..], p, b);
    } else {
      WordsJoinWord(a, p, b);
    }
  }

  /** `WordsJoin` when the first part starts with a word. */
  lemma {:induction false} WordsJoinWord(a: string, p: string, b: string)
    requires p != [] && AllSpace(p)
    requires a != [] && !IsSpace(a[0])
    ensures Words(a + p + b) == Words(a) + Words(b)
    decreases |a|, 0
  {
    var i := FirstSpace(a);
    FirstSpaceSpec(a);
    var w := a[..i];
    var t := a[i..];
    assert a + p + b == w + (t + p + b);
    if i < |a| {
      WordThen(w, t + p + b);
      WordsJoin(t, p, b);
    } else {
      assert t + p + b == p + b;
      WordThen(w, p + b);
      WordsSkip(p, b);
    }
  }

  /** A name has no words exactly when it is all whitespace. */
  lemma {:induction false} WordsNone(s: string)
    ensures Words(s) == [] <==> AllSpace(s)
    decreases |s|
  {
    if s != [] && IsSpace(s[0]) {
      WordsNone(s[1..]);
      assert AllSpace(s) <==> AllSpace(s[1..]);
    }
  }

  /** A name without whitespace is one word. */
  lemma WordsOne(w: string)
    requires w != [] && NoSpace(w)
    ensures Words(w) == [w]
  {
    WordThen(w, []);
    assert w + [] == w;
  }

  // ---------------------------------------------------------------- what getInitials gives

  /** Joining one-character strings gives those characters. */
  lemma {:induction false} JoinSingles(xs: seq<string>)
    requires forall k :: 0 <= k < |xs| ==> |xs[k]| == 1
    ensures |Join(xs, "")| == |xs|
    ensures forall k :: 0 <= k < |xs| ==> Join(xs, "")[k] == xs[k][0]
  {
    if |xs| > 1 {
      JoinSingles(xs[1..]);
      assert Join(xs, "") == xs[0] + Join(xs[1..], "");
    }
  }

  /**
   * The initials are the upper-cased first letters of the first two words of
   * the name: one per word, at most two.
   */
  lemma Initials(name: string)
    ensures var ws := Words(name);
            var n := if |ws| < 2 then |ws| else 2;
            |GetInitials(name)| == n && n <= 2 &&
            forall k :: 0 <= k < n ==> GetInitials(name)[k] == UpperChar(ws[k][0])
  {
    SplitWords(name);
    var ws := Words(name);
    var xs := InitialsOf(FirstTwo(ws));
    JoinSingles(xs);
  }

  /** A name made only of whitespace, or empty, has no initials; any other has some. */
  lemma InitialsBlank(name: string)
    ensures GetInitials(name) == "" <==> AllSpace(name)
  {
    Initials(name);
    WordsNone(name);
  }

  /** Whitespace in front of a name changes nothing. */
  lemma InitialsLeadingSpace(p: string, a: string)
    requires AllSpace(p)
    ensures GetInitials(p + a) == GetInitials(a)
  {
    SplitWords(p + a);
    SplitWords(a);
    WordsSkip(p, a);
  }

  /** Whitespace after a name changes nothing. */
  lemma InitialsTrailingSpace(a: string, p: string)
    requires AllSpace(p)
    ensures GetInitials(a + p) == GetInitials(a)
  {
    SplitWords(a + p);
    SplitWords(a);
    if p != [] {
      WordsJoin(a, p, []);
      assert a + p + [] == a + p;
      assert Words(a) + [] == Words(a);
    } else {
      assert a + p == a;
    }
  }

  /** How much whitespace separates two parts of a name changes nothing. */
  lemma InitialsGap(a: string, p: string, q: string, b: string)
    requires p != [] && q != [] && AllSpace(p) && AllSpace(q)
    ensures GetInitials(a + p + b) == GetInitials(a + q + b)
  {
    SplitWords(a + p + b);
    SplitWords(a + q + b);
    WordsJoin(a, p, b);
    WordsJoin(a, q, b);
  }

  /** The initials of a first and a last name separated by whitespace. */
  lemma TwoWordInitials(first: string, p: string, last: string)
    requires first != [] && NoSpace(first) && last != [] && NoSpace(last)
    requires p != [] && AllSpace(p)
    ensures GetInitials(first + p + last) == [UpperChar(first[0]), UpperChar(last[0])]
  {
    WordsJoin(first, p, last);
    WordsOne(first);
    WordsOne(last);
    Initials(first + p + last);
  }

  /** Words after the second do not change the initials. */
  lemma FirstTwoOnly(first: string, p: string, second: string, rest: string)
    requires first != [] && NoSpace(first) && second != [] && NoSpace(second)
    requires p != [] && AllSpace(p)
    requires rest == [] || IsSpace(rest[0])
    ensures GetInitials(first + p + second + rest) == GetInitials(first + p + second)
  {
    var s := first + p + second;
    assert first + p + second + rest == first + p + (second + rest);
    WordsJoin(first, p, second + rest);
    WordsJoin(first, p, second);
    WordThen(second, rest);
    WordsOne(second);
    Initials(s + rest);
    Initials(s);
  }

  lemma DustinConger(name: string)
    requires name == "Dustin Conger"
    ensures GetInitials(name) == "DC"
  {
    assert name == "Dustin" + " " + "Conger";
    TwoWordInitials("Dustin", " ", "Conger");
  }

  lemma OwenWarrington(name: string)
    requires name == "owen warrington"
    ensures GetInitials(name) == "OW"
  {
    assert name == "owen" + " " + "warrington";
    TwoWordInitials("owen", " ", "warrington");
  }

  /** Only the first two words count. */
  lemma ThreeWords(name: string)
    requires name == "A B C"
    ensures GetInitials(name) == "AB"
  {
    assert name == "A" + " " + "B" + " C";
    FirstTwoOnly("A", " ", "B", " C");
    TwoWordInitials("A", " ", "B");
  }

  // ---------------------------------------------------------------- the headshot

  /** A truthy `photoSrc`: present and not empty. */
  predicate HasPhoto(photo: Option<string>) {
    photo.Some? && photo.value != ""
  }

  /** What the round frame shows. */
  datatype Face = Photo(src: string) | Letters(initials: string)

  /**
   * The card's image state: `imgOk` is `None` while unknown, `Some(true)`
   * once the headshot loaded and `Some(false)` once it failed or when there
   * is none.
   */
  class Avatar {
    const name: string
    const photo: Option<string>
    var imgOk: Option<bool>

    /** `useState(photoSrc ? null : false)`. */
    constructor(name: string, photo: Option<string>)
      ensures this.name == name && this.photo == photo
      ensures imgOk == if HasPhoto(photo) then None else Some(false)
      ensures ShowsImage() <==> HasPhoto(photo)
    {
      this.name := name;
      this.photo := photo;
      imgOk := if HasPhoto(photo) then None else Some(false);
    }

    /** `photoSrc && imgOk !== false`. */
    predicate ShowsImage()
      reads this
    {
      HasPhoto(photo) && imgOk != Some(false)
    }

    /** The headshot, or the initials in its place. */
    function Shown(): (r: Face)
      reads this
      ensures r.Photo? <==> ShowsImage()
      ensures r.Letters? ==> r.initials == GetInitials(name)
    {
      if ShowsImage() then Photo(photo.value) else Letters(GetInitials(name))
    }

    /** `onLoad`: only the rendered image fires it; the image stays. */
    method OnLoad()
      requires ShowsImage()
      modifies this
      ensures imgOk == Some(true) && ShowsImage()
    {
      imgOk := Some(true);
    }

    /**
     * `onError`: only the rendered image fires it. The image is replaced by
     * the initials, and as no image is rendered any more, neither handler can
     * fire again: the initials stay.
     */
    method OnError()
      requires ShowsImage()
      modifies this
      ensures imgOk == Some(false) && !ShowsImage()
      ensures Shown() == Letters(GetInitials(name))
    {
      imgOk := Some(false);
    }
  }
}
