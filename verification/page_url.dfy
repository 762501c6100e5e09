/**
 * `createPageUrl` (src/utils/index.tsx): a component name becomes a route path
 * by splitting camel-case words, trimming, lower-casing, turning whitespace
 * runs into hyphens, and sending the slug "home" to the root.
 */
module PageUrl {
  import opened Text

  /** A lower-case letter followed by a capital: where `/([a-z])([A-Z])/` matches. */
  predicate Boundary(s: string, i: int) {
    0 < i < |s| && IsLower(s[i - 1]) && IsUpper(s[i])
  }

  /**
   * `s.replace(/([a-z])([A-Z])/g, "$1 $2")` as the regular-expression engine
   * runs it: scan left to right, and after a match resume behind the capital.
   */
  function SplitCamel(s: string): (r: string)
    ensures |r| >= |s|
  {
    if |s| >= 2 && IsLower(s[0]) && IsUpper(s[1]) then [s[0], ' ', s[1]] + SplitCamel(s[2..])
    else if s == [] then []
    else [s[0]] + SplitCamel(s[1..])
  }

  /** The intended reading: each character of `s` from `i` on, with a space put before every boundary. */
  function SpacedFrom(s: string, i: nat): string
    requires i <= |s|
    decreases |s| - i
  {
    if i == |s| then []
    else (if Boundary(s, i) then " " else "") + [s[i]] + SpacedFrom(s, i + 1)
  }

  /** A match at `i`: the lower-case letter, a space, the capital, then the scan resumes at `i + 2`. */
  lemma SplitCamelMatch(s: string, i: nat)
    requires i + 2 <= |s| && IsLower(s[i]) && IsUpper(s[i + 1])
    ensures SplitCamel(s[i..]) == [s[i]] + (" " + [s[i + 1]] + SplitCamel(s[i + 2..]))
  {
    var t := s[i..];
    assert t[0] == s[i] && t[1] == s[i + 1] && t[2..] == s[i + 2..];
    Three(s[i], ' ', s[i + 1], SplitCamel(s[i + 2..]));
  }

  /** No match at `i`: the character is kept and the scan goes on at `i + 1`. */
  lemma SplitCamelKeep(s: string, i: nat)
    requires i < |s| && !(i + 2 <= |s| && IsLower(s[i]) && IsUpper(s[i + 1]))
    ensures SplitCamel(s[i..]) == [s[i]] + SplitCamel(s[i + 1..])
  {
    var t := s[i..];
    assert t[0] == s[i] && t[1..] == s[i + 1..];
  }

  /** The reading at a boundary that follows a kept character. */
  lemma SpacedFromPair(s: string, i: nat)
    requires i + 2 <= |s| && !Boundary(s, i) && Boundary(s, i + 1)
    ensures SpacedFrom(s, i) == [s[i]] + (" " + [s[i + 1]] + SpacedFrom(s, i + 2))
  {
  }

  lemma {:induction false} SplitCamelFrom(s: string, i: nat)
    requires i <= |s|
    requires !Boundary(s, i)
    ensures SplitCamel(s[i..]) == SpacedFrom(s, i)
    decreases |s| - i
  {
    if i + 2 <= |s| && IsLower(s[i]) && IsUpper(s[i + 1]) {
      SplitCamelMatch(s, i);
      assert Boundary(s, i + 1) && !Boundary(s, i + 2);
      SplitCamelFrom(s, i + 2);
      SpacedFromPair(s, i);
    } else if i < |s| {
      SplitCamelKeep(s, i);
      SplitCamelFrom(s, i + 1);
      SpacedFromKeep(s, i);
    } else {
      assert s[i..] == [];
    }
  }

  /** Away from a boundary the character is kept as it is. */
  lemma SpacedFromKeep(s: string, i: nat)
    requires i < |s| && !Boundary(s, i)
    ensures SpacedFrom(s, i) == [s[i]] + SpacedFrom(s, i + 1)
  {
  }

  /**
   * The global replace never misses a boundary, even though its matches
   * consume two characters: it inserts exactly one space at every boundary
   * and nowhere else. Runs of capitals ("ABC") are therefore not split.
   */
  lemma SplitCamelInsertsAtBoundaries(s: string)
    ensures SplitCamel(s) == SpacedFrom(s, 0)
  {
    assert s[0..] == s;
    SplitCamelFrom(s, 0);
  }

  /** `s.replace(/\s+/g, "-")`: every maximal whitespace run becomes one hyphen. */
  function Hyphenate(s: string): (r: string)
    ensures NoSpace(r)
    ensures NoUpper(s) ==> NoUpper(r)
    ensures NoSpace(s) ==> r == s
    decreases |s|
  {
    if s == [] then []
    else if IsSpace(s[0]) then
      var t := TrimStart(s);
      assert |t| < |s| by { assert t == TrimStart(s[1..]); }
      TrimStartSpec(s);
      assert forall k :: 0 <= k < |t| ==> t[k] == s[|s| - |t| + k];
      "-" + Hyphenate(t)
    else
      assert forall k :: 0 <= k < |s| - 1 ==> s[1..][k] == s[k + 1];
      HeadTail(s);
      [s[0]] + Hyphenate(s[1..])
  }

  /** The slug: `name` split, trimmed, lower-cased and hyphenated. */
  function Slug(name: string): (r: string)
    ensures NoSpace(r) && NoUpper(r)
  {
    Hyphenate(ToLower(Trim(SplitCamel(name))))
  }

  /** `createPageUrl(name)`. */
  function CreatePageUrl(name: string): (r: string)
    ensures |r| >= 1 && r[0] == '/'
    ensures NoSpace(r) && NoUpper(r)
    ensures r == "/" <==> Slug(name) == "home" || Slug(name) == ""
  {
    var slug := Slug(name);
    if slug == "home" then "/" else "/" + slug
  }

  // ---------------------------------------------------------------- whitespace runs

  lemma {:induction false} TrimStartAppend(x: string, y: string)
    ensures AllSpace(x) ==> TrimStart(x + y) == TrimStart(y)
    ensures !AllSpace(x) ==> TrimStart(x + y) == TrimStart(x) + y
  {
    if x != [] {
      assert (x + y)[0] == x[0];
      assert (x + y)[1..] == x[1..] + y;
      if IsSpace(x[0]) {
        TrimStartAppend(x[1..], y);
        if !AllSpace(x) {
          assert !AllSpace(x[1..]) by {
            var k :| 0 <= k < |x| && !IsSpace(x[k]);
            assert x[1..][k - 1] == x[k];
          }
        }
      }
    } else {
      assert x + y == y;
    }
  }

  lemma TrimStartNotSpace(s: string)
    requires s == [] || !IsSpace(s[0])
    ensures TrimStart(s) == s
  {
  }

  /**
   * Hyphenating distributes over a concatenation that does not cut through a
   * whitespace run.
   */
  lemma {:induction false} HyphenateAppend(x: string, y: string)
    requires x == [] || y == [] || !IsSpace(x[|x| - 1]) || !IsSpace(y[0])
    ensures Hyphenate(x + y) == Hyphenate(x) + Hyphenate(y)
    decreases |x|
  {
    if x == [] {
      assert x + y == y;
    } else if !IsSpace(x[0]) {
      assert x[1..] == [] || x[1..][|x[1..]| - 1] == x[|x| - 1];
      HyphenateAppend(x[1..], y);
      HyphenateKeepStep(x, y);
    } else if AllSpace(x) {
      HyphenateRunStep(x, y);
    } else {
      var u := TrimStart(x);
      TrimStartSpec(x);
      assert |u| < |x| by { assert u == TrimStart(x[1..]); }
      assert u != [] && u[|u| - 1] == x[|x| - 1];
      HyphenateAppend(u, y);
      HyphenateTrimStep(x, y);
    }
  }

  /** A leading character that is not whitespace is kept, in front of the rest. */
  lemma HyphenateKeepStep(x: string, y: string)
    requires x != [] && !IsSpace(x[0])
    requires Hyphenate(x[1..] + y) == Hyphenate(x[1..]) + Hyphenate(y)
    ensures Hyphenate(x + y) == Hyphenate(x) + Hyphenate(y)
  {
    HyphenateFrontAppend(x, y);
    HyphenateFront(x);
    Associative([x[0]], Hyphenate(x[1..]), Hyphenate(y));
  }

  /** The first character of `x` stays in front of `x + y`. */
  lemma HyphenateFrontAppend(x: string, y: string)
    requires x != [] && !IsSpace(x[0])
    ensures Hyphenate(x + y) == [x[0]] + Hyphenate(x[1..] + y)
  {
    assert (x + y)[0] == x[0] && (x + y)[1..] == x[1..] + y;
    HyphenateFront(x + y);
  }

  /** Text that does not start with whitespace keeps its first character. */
  lemma HyphenateFront(z: string)
    requires z != [] && !IsSpace(z[0])
    ensures Hyphenate(z) == [z[0]] + Hyphenate(z[1..])
  {
  }

  /** Text made only of whitespace becomes one hyphen in front of what follows it. */
  lemma HyphenateRunStep(x: string, y: string)
    requires x != [] && AllSpace(x)
    requires y == [] || !IsSpace(y[0])
    ensures Hyphenate(x + y) == Hyphenate(x) + Hyphenate(y)
  {
    assert (x + y)[0] == x[0];
    TrimStartAppend(x, y);
    TrimStartSpec(x);
    assert TrimStart(x) == [];
    TrimStartNotSpace(y);
  }

  /** A leading whitespace run that ends inside `x` becomes one hyphen. */
  lemma HyphenateTrimStep(x: string, y: string)
    requires x != [] && IsSpace(x[0]) && !AllSpace(x)
    requires Hyphenate(TrimStart(x) + y) == Hyphenate(TrimStart(x)) + Hyphenate(y)
    ensures Hyphenate(x + y) == Hyphenate(x) + Hyphenate(y)
  {
    var u := TrimStart(x);
    assert (x + y)[0] == x[0];
    TrimStartAppend(x, y);
    assert Hyphenate(x + y) == "-" + Hyphenate(u + y);
    assert Hyphenate(x) == "-" + Hyphenate(u);
    Associative("-", Hyphenate(u), Hyphenate(y));
  }

  /** A non-empty whitespace run on its own becomes a single hyphen. */
  lemma HyphenateRun(sp: string)
    requires sp != [] && AllSpace(sp)
    ensures Hyphenate(sp) == "-"
  {
    TrimStartSpec(sp);
    assert TrimStart(sp) == [];
  }

  /**
   * Words separated by a whitespace run of any length are joined by exactly
   * one hyphen.
   */
  lemma HyphenateJoinsWords(a: string, sp: string, b: string)
    requires sp != [] && AllSpace(sp)
    requires a == [] || !IsSpace(a[|a| - 1])
    requires b == [] || !IsSpace(b[0])
    ensures Hyphenate(a + sp + b) == Hyphenate(a) + "-" + Hyphenate(b)
  {
    HyphenateAppend(a, sp);
    HyphenateAppend(a + sp, b);
    HyphenateRun(sp);
  }

  // ---------------------------------------------------------------- properties

  /** A name with no capital and no whitespace is its own slug, so its path is "/" + name unless it is "home". */
  lemma PlainNameIsItsOwnSlug(name: string)
    requires NoUpper(name) && NoSpace(name)
    ensures Slug(name) == name
    ensures name != "home" ==> CreatePageUrl(name) == "/" + name
  {
    SplitCamelInsertsAtBoundaries(name);
    SpacedFromPlain(name, 0);
    TrimNoSpace(name);
    ToLowerOfLower(name);
  }

  /** With no boundary from `i` on, nothing is inserted. */
  lemma {:induction false} SpacedFromPlain(s: string, i: nat)
    requires i <= |s|
    requires forall j :: i <= j < |s| ==> !Boundary(s, j)
    ensures SpacedFrom(s, i) == s[i..]
    decreases |s| - i
  {
    if i < |s| {
      SpacedFromPlain(s, i + 1);
      assert s[i..] == [s[i]] + s[i + 1..];
    }
  }

  /** With exactly one boundary at `k` from `i` on, one space is inserted there. */
  lemma {:induction false} SpacedFromOne(s: string, i: nat, k: nat)
    requires i <= k < |s| && Boundary(s, k)
    requires forall j :: i <= j < |s| && j != k ==> !Boundary(s, j)
    ensures SpacedFrom(s, i) == s[i..k] + (" " + s[k..])
    decreases k - i
  {
    if i < k {
      SpacedFromKeep(s, i);
      SpacedFromOne(s, i + 1, k);
      SliceFront(s, i, k);
      Associative([s[i]], s[i + 1..k], " " + s[k..]);
    } else {
      SpacedFromAtBoundary(s, k);
      assert s[k..k] == [];
    }
  }

  /** At the only boundary left, one space, then the rest unchanged. */
  lemma SpacedFromAtBoundary(s: string, k: nat)
    requires k < |s| && Boundary(s, k)
    requires forall j :: k < j < |s| ==> !Boundary(s, j)
    ensures SpacedFrom(s, k) == " " + s[k..]
  {
    SpacedFromPlain(s, k + 1);
    assert s[k..] == [s[k]] + s[k + 1..];
  }

  /** A capitalised word: a capital followed by lower-case letters. */
  predicate Word(w: string) {
    |w| >= 2 && IsUpper(w[0]) && forall i :: 1 <= i < |w| ==> IsLower(w[i])
  }

  /** A capitalised word has no whitespace and no boundary inside it. */
  lemma WordPlain(w: string)
    requires Word(w)
    ensures NoSpace(w) && forall j :: 0 <= j < |w| ==> !Boundary(w, j)
  {
  }

  lemma WordLower(w: string)
    requires Word(w)
    ensures NoSpace(ToLower(w)) && ToLower(w) != [] && Trim(w) == w
  {
    WordPlain(w);
    LowerNoSpace(w);
    TrimNoSpace(w);
  }

  /** Lower-casing adds no whitespace. */
  lemma LowerNoSpace(s: string)
    requires NoSpace(s)
    ensures NoSpace(ToLower(s))
  {
  }

  /** Camel-case splitting leaves a name without boundaries as it is. */
  lemma SplitCamelPlain(s: string)
    requires forall j :: 0 <= j < |s| ==> !Boundary(s, j)
    ensures SplitCamel(s) == s
  {
    SplitCamelInsertsAtBoundaries(s);
    SpacedFromPlain(s, 0);
    assert s[0..] == s;
  }

  /** A name without whitespace and without boundaries has its lower-case form as its slug. */
  lemma PlainSlug(s: string)
    requires NoSpace(s)
    requires forall j :: 0 <= j < |s| ==> !Boundary(s, j)
    ensures Slug(s) == ToLower(s)
  {
    SplitCamelPlain(s);
    TrimNoSpace(s);
    LowerNoSpace(s);
  }

  /** A one-word name's slug is the word lower-cased. */
  lemma OneWordSlug(w: string)
    requires Word(w)
    ensures Slug(w) == ToLower(w)
  {
    WordPlain(w);
    PlainSlug(w);
  }

  /** Two capitalised words are split by one space. */
  lemma TwoWordSplit(a: string, b: string)
    requires Word(a) && Word(b)
    ensures SplitCamel(a + b) == a + " " + b
  {
    var s := a + b;
    TwoWordBoundary(a, b);
    SplitCamelInsertsAtBoundaries(s);
    SpacedFromOne(s, 0, |a|);
    assert s[0..|a|] == a && s[|a|..] == b;
    Associative(a, " ", b);
  }

  /** Two capitalised words have one boundary, where the second begins. */
  lemma TwoWordBoundary(a: string, b: string)
    requires Word(a) && Word(b)
    ensures Boundary(a + b, |a|)
    ensures forall j :: 0 <= j < |a + b| && j != |a| ==> !Boundary(a + b, j)
  {
    var s := a + b;
    forall j | 0 <= j < |s| && j != |a| ensures !Boundary(s, j) {
      if 0 < j < |a| {
        assert s[j] == a[j];
      } else if j > |a| {
        assert s[j] == b[j - |a|];
      }
    }
    assert s[|a| - 1] == a[|a| - 1] && s[|a|] == b[0];
  }

  lemma LowerAroundSpace(a: string, b: string)
    ensures ToLower(a + " " + b) == ToLower(a) + " " + ToLower(b)
  {
    ToLowerAppend(a + " ", b);
    ToLowerAppend(a, " ");
    assert ToLower(" ") == " ";
  }

  lemma TrimTwoWords(a: string, b: string)
    requires Word(a) && Word(b)
    ensures Trim(a + " " + b) == a + " " + b
  {
    var t := a + " " + b;
    assert t[0] == a[0] && t[|t| - 1] == b[|b| - 1];
    TrimKeeps(t);
  }

  /** A two-word name's slug is the two words lower-cased, joined by a hyphen. */
  lemma TwoWordSlug(a: string, b: string)
    requires Word(a) && Word(b)
    ensures Slug(a + b) == ToLower(a) + "-" + ToLower(b)
  {
    TwoWordSplit(a, b);
    TrimTwoWords(a, b);
    LowerAroundSpace(a, b);
    WordLower(a);
    WordLower(b);
    var la, lb := ToLower(a), ToLower(b);
    HyphenateJoinsWords(la, " ", lb);
    assert Hyphenate(la) == la && Hyphenate(lb) == lb;
  }

  /** The home page's name maps to the root. */
  lemma HomeIsRoot(name: string)
    requires name == "Home"
    ensures CreatePageUrl(name) == "/"
  {
    assert Word(name);
    OneWordSlug(name);
    assert ToLower(name) == "home";
  }

  /** A one-word name's path is "/" and the word lower-cased, unless that is "home". */
  lemma OneWordUrl(w: string, lw: string)
    requires Word(w) && ToLower(w) == lw && lw != "home"
    ensures CreatePageUrl(w) == "/" + lw
  {
    OneWordSlug(w);
  }

  /** A two-word name's path is "/" and the lower-cased words joined by a hyphen. */
  lemma TwoWordUrl(a: string, b: string, la: string, lb: string)
    requires Word(a) && Word(b) && ToLower(a) == la && ToLower(b) == lb
    ensures CreatePageUrl(a + b) == "/" + la + "-" + lb
  {
    TwoWordSlug(a, b);
    HyphenatedNotHome(la, lb);
    Associative("/", la + "-", lb);
    Associative("/", la, "-");
  }

  /** Text holding a hyphen is not "home". */
  lemma HyphenatedNotHome(la: string, lb: string)
    ensures la + "-" + lb != "home"
  {
    var t := la + "-" + lb;
    assert t[|la|] == '-';
    assert '-' !in "home";
  }

  /** A run of capitals is not split. */
  lemma CapitalsExample(c: string)
    requires c == "ABC"
    ensures CreatePageUrl(c) == "/abc"
  {
    assert NoSpace(c) && forall j :: 0 <= j < |c| ==> !Boundary(c, j);
    PlainSlug(c);
    assert ToLower(c) == "abc";
  }
}
