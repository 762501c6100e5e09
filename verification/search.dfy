/**
 * Ranking for the search dialog: `normalize`, the weighted substring
 * `score`, and the `results` memo (blank query: the first eight catalog
 * entries; otherwise the positive scores, stably sorted by descending
 * score, first ten).
 */
module Search {
  import opened Wrappers
  import opened Text
  import opened SearchIndex
  import opened Ranking

  /** `normalize`: lower-case, then trim. */
  function Normalize(s: string): (r: string)
    ensures |r| <= |s|
  {
    Trim(ToLower(s))
  }

  /** A normalized string holds no capital and neither starts nor ends with whitespace. */
  lemma NormalizeSpec(s: string)
    ensures NoUpper(Normalize(s))
    ensures Normalize(s) != [] ==> !IsSpace(Normalize(s)[0]) && !IsSpace(Normalize(s)[|Normalize(s)| - 1])
  {
    TrimIsSlice(ToLower(s));
    TrimEnds(ToLower(s));
  }

  /** A query normalizes to the empty string exactly when it is blank. */
  lemma NormalizeBlank(s: string)
    ensures Normalize(s) == [] <==> AllSpace(s)
    ensures Trim(s) == [] <==> AllSpace(s)
  {
    TrimEmpty(ToLower(s));
    TrimEmpty(s);
    assert AllSpace(ToLower(s)) <==> AllSpace(s) by {
      forall i | 0 <= i < |s| ensures IsSpace(ToLower(s)[i]) <==> IsSpace(s[i]) {
        assert ToLower(s)[i] == LowerChar(s[i]);
      }
    }
  }

  /**
   * Matching a normalized field, decided on the field as written: a match
   * in the trimmed lower-case text is a case-blind match in the field, and
   * the converse holds for a field with no whitespace at its ends.
   */
  lemma NormalizedMatch(s: string, q: string)
    ensures Contains(Normalize(s), q) ==> ContainsLowerFrom(s, q, 0)
    ensures s != [] && !IsSpace(s[0]) && !IsSpace(s[|s| - 1]) ==>
              (Contains(Normalize(s), q) <==> ContainsLowerFrom(s, q, 0))
  {
    ContainsLowerSpec(s, q, 0);
    TrimIsSlice(ToLower(s));
    var i, j :| 0 <= i <= j <= |ToLower(s)| && Trim(ToLower(s)) == ToLower(s)[i..j];
    if Contains(Normalize(s), q) {
      ContainsSlice(ToLower(s), q, i, j);
    }
    if s != [] && !IsSpace(s[0]) && !IsSpace(s[|s| - 1]) {
      TrimKeeps(ToLower(s));
    }
  }

  /** `keywords.some(k => normalize(k).includes(n))`, scanning left to right. */
  predicate SomeKeywordContains(kws: seq<string>, n: string) {
    kws != [] && (Contains(Normalize(kws[0]), n) || SomeKeywordContains(kws[1..], n))
  }

  /** `item.keywords?.some(...)`: an entry without keywords never matches. */
  predicate KeywordMatch(item: SearchItem, n: string) {
    item.keywords.Some? && SomeKeywordContains(item.keywords.value, n)
  }

  lemma {:induction false} SomeKeywordSpec(kws: seq<string>, n: string)
    ensures SomeKeywordContains(kws, n) <==> exists i :: 0 <= i < |kws| && Contains(Normalize(kws[i]), n)
  {
    if kws != [] {
      SomeKeywordSpec(kws[1..], n);
      if exists i :: 0 <= i < |kws| && Contains(Normalize(kws[i]), n) {
        var i :| 0 <= i < |kws| && Contains(Normalize(kws[i]), n);
        if i > 0 {
          assert kws[1..][i - 1] == kws[i];
        }
      }
      if SomeKeywordContains(kws[1..], n) {
        var i :| 0 <= i < |kws[1..]| && Contains(Normalize(kws[1..][i]), n);
        assert kws[i + 1] == kws[1..][i];
      }
    }
  }

  /** `score`: +3 for the title, +2 for a keyword, +1 for the path; 0 for a blank query. */
  function Score(item: SearchItem, q: string): (r: int)
    ensures 0 <= r <= 6
    ensures Normalize(q) == [] ==> r == 0
  {
    var n := Normalize(q);
    if n == [] then 0
    else
      (if Contains(Normalize(item.title), n) then 3 else 0)
       + (if KeywordMatch(item, n) then 2 else 0)
       + (if Contains(Normalize(item.path), n) then 1 else 0)
  }

  /** An entry scores above zero exactly when the query is non-blank and matches one of its fields. */
  lemma ScorePositive(item: SearchItem, q: string)
    ensures Score(item, q) > 0 <==>
      !AllSpace(q) && (Contains(Normalize(item.title), Normalize(q))
                       || KeywordMatch(item, Normalize(q))
                       || Contains(Normalize(item.path), Normalize(q)))
  {
    NormalizeBlank(q);
  }

  /**
   * "title match > keyword match > path match": an entry whose title matches
   * never ranks below one whose title does not (a keyword plus path match ties it).
   */
  lemma TitleMatchNotOutranked(a: SearchItem, b: SearchItem, q: string)
    requires Normalize(q) != []
    requires Contains(Normalize(a.title), Normalize(q))
    requires !Contains(Normalize(b.title), Normalize(q))
    ensures Score(a, q) >= Score(b, q)
    ensures Score(a, q) >= 3 && Score(b, q) <= 3
  {
  }

  /** An entry without keywords can only score 0, 1, 3 or 4: it never earns the keyword bonus. */
  lemma NoKeywordBonus(item: SearchItem, q: string)
    requires item.keywords.None?
    ensures Score(item, q) in {0, 1, 3, 4}
  {
  }

  /** `.map(item => ({ item, s: score(item, query) })).filter(r => r.s > 0)`. */
  function Hits(c: seq<SearchItem>, q: string): (r: seq<Hit<SearchItem>>)
    ensures |r| <= |c|
    ensures forall h :: h in r ==> h.item in c && h.s == Score(h.item, q) && h.s > 0
  {
    if c == [] then []
    else (if Score(c[0], q) > 0 then [Hit(c[0], Score(c[0], q))] else []) + Hits(c[1..], q)
  }

  /** Every entry with a positive score is among the hits. */
  lemma {:induction false} HitsComplete(c: seq<SearchItem>, q: string, e: SearchItem)
    requires e in c && Score(e, q) > 0
    ensures Hit(e, Score(e, q)) in Hits(c, q)
  {
    if c[0] != e {
      assert e in c[1..];
      HitsComplete(c[1..], q, e);
    }
  }

  /** The `results` memo. */
  function Results(c: seq<SearchItem>, query: string): (r: seq<SearchItem>)
    ensures |r| <= 10
    ensures forall i :: 0 <= i < |r| ==> r[i] in c
  {
    if Trim(query) == [] then Take(c, 8)
    else
      SortedMembers(Hits(c, query));
      Items(Take(StableSortDesc(Hits(c, query)), 10))
  }

  /** The entries of `c` scoring exactly `k` for `q`, in their order in `c`. */
  function WithScore(c: seq<SearchItem>, q: string, k: int): (r: seq<SearchItem>)
    ensures forall e :: e in r ==> e in c && Score(e, q) == k
  {
    if c == [] then []
    else (if Score(c[0], q) == k then [c[0]] else []) + WithScore(c[1..], q, k)
  }

  /** Scored entries whose scores are the ones `q` gives their items. */
  predicate ScoredBy(hs: seq<Hit<SearchItem>>, q: string) {
    forall i :: 0 <= i < |hs| ==> hs[i].s == Score(hs[i].item, q)
  }

  lemma {:induction false} ItemsOfBucket(hs: seq<Hit<SearchItem>>, q: string, k: int)
    requires ScoredBy(hs, q)
    ensures Items(Bucket(hs, k)) == WithScore(Items(hs), q, k)
  {
    if hs != [] {
      var t := hs[1..];
      HeadTail(hs);
      assert ScoredBy(t, q) by {
        forall i | 0 <= i < |t| ensures t[i].s == Score(t[i].item, q) {
          assert t[i] == hs[i + 1];
        }
      }
      ItemsOfBucket(t, q, k);
      BucketCons(hs[0], t, k);
      ItemsAppend(if hs[0].s == k then [hs[0]] else [], Bucket(t, k));
      assert Items(hs)[1..] == Items(t);
    }
  }

  lemma {:induction false} ItemsOfHits(c: seq<SearchItem>, q: string)
    ensures ScoredBy(Hits(c, q), q)
    ensures forall k :: k <= 0 ==> Bucket(Hits(c, q), k) == []
    ensures forall k :: k >= 1 ==> WithScore(Items(Hits(c, q)), q, k) == WithScore(c, q, k)
  {
    var hs := Hits(c, q);
    forall i | 0 <= i < |hs| ensures hs[i].s == Score(hs[i].item, q) {
      assert hs[i] in hs;
    }
    forall k | k <= 0 ensures Bucket(hs, k) == [] {
      BucketNone(hs, k);
    }
    if c != [] {
      ItemsOfHits(c[1..], q);
      var head := if Score(c[0], q) > 0 then [Hit(c[0], Score(c[0], q))] else [];
      ItemsAppend(head, Hits(c[1..], q));
      forall k | k >= 1 ensures WithScore(Items(hs), q, k) == WithScore(c, q, k) {
        if head == [] {
          assert Items(hs) == Items(Hits(c[1..], q));
        } else {
          assert Items(hs) == [c[0]] + Items(Hits(c[1..], q));
          assert Items(hs)[0] == c[0] && Items(hs)[1..] == Items(Hits(c[1..], q));
        }
      }
    }
  }

  /** A blank or whitespace-only query lists the first eight catalog entries, unscored. */
  lemma BlankQueryResults(c: seq<SearchItem>, query: string)
    requires AllSpace(query)
    ensures Results(c, query) == Take(c, 8)
  {
    NormalizeBlank(query);
  }

  /**
   * Ties keep catalog order: for a non-blank query, the listed entries of
   * any one score are the first entries of that score in the catalog, in
   * catalog order.
   */
  lemma ResultsKeepCatalogOrder(c: seq<SearchItem>, query: string, k: int)
    requires !AllSpace(query)
    ensures WithScore(Results(c, query), query, k) <= WithScore(c, query, k)
  {
    NormalizeBlank(query);
    var hs := Hits(c, query);
    var sorted := StableSortDesc(hs);
    var top := Take(sorted, 10);
    ItemsOfHits(c, query);
    assert ScoredBy(top, query) by {
      forall i | 0 <= i < |top| ensures top[i].s == Score(top[i].item, query) {
        assert top[i] == sorted[i];
        assert sorted[i] in multiset(hs);
      }
    }
    assert ScoredBy(hs, query);
    ItemsOfBucket(top, query, k);
    BucketTake(sorted, 10, k);
    SortStable(hs, k);
    ItemsPrefix(Bucket(top, k), Bucket(hs, k));
    if k >= 1 {
      ItemsOfBucket(hs, query, k);
    }
  }

  /**
   * A non-blank query lists at most ten catalog entries, each scoring above
   * zero, in non-increasing score order.
   */
  lemma ResultsRanked(c: seq<SearchItem>, query: string)
    requires !AllSpace(query)
    ensures |Results(c, query)| <= 10
    ensures forall i :: 0 <= i < |Results(c, query)| ==>
              Results(c, query)[i] in c && Score(Results(c, query)[i], query) > 0
    ensures forall i, j :: 0 <= i < j < |Results(c, query)| ==>
              Score(Results(c, query)[i], query) >= Score(Results(c, query)[j], query)
  {
    NormalizeBlank(query);
    var hs := Hits(c, query);
    var sorted := StableSortDesc(hs);
    var r := Results(c, query);
    forall i | 0 <= i < |r| ensures r[i] == sorted[i].item && sorted[i] in hs {
      assert sorted[i] in multiset(sorted);
    }
  }

  /** Past the blank-query case, the results are the items of the ten best hits. */
  lemma ResultsOfQuery(c: seq<SearchItem>, query: string)
    requires !AllSpace(query)
    ensures Results(c, query) == Items(Take(StableSortDesc(Hits(c, query)), 10))
  {
    NormalizeBlank(query);
  }

  /** A sorted hit is one of the hits, scored as the query scores its entry. */
  lemma SortedHitScored(c: seq<SearchItem>, query: string, k: nat)
    requires k < |StableSortDesc(Hits(c, query))|
    ensures StableSortDesc(Hits(c, query))[k].s == Score(StableSortDesc(Hits(c, query))[k].item, query)
  {
    var sorted := StableSortDesc(Hits(c, query));
    assert sorted[k] in multiset(sorted);
  }

  /**
   * Nothing that matches is dropped unless ten results are already listed,
   * and a dropped entry scores no higher than the tenth one.
   */
  lemma ResultsComplete(c: seq<SearchItem>, query: string, e: SearchItem)
    requires !AllSpace(query)
    requires e in c && Score(e, query) > 0
    requires e !in Results(c, query)
    ensures |Hits(c, query)| > 10 && |Results(c, query)| == 10
    ensures Score(e, query) <= Score(Results(c, query)[9], query)
  {
    var hs := Hits(c, query);
    var sorted := StableSortDesc(hs);
    ResultsOfQuery(c, query);
    HitsComplete(c, query, e);
    var h := Hit(e, Score(e, query));
    assert h in multiset(sorted);
    DroppedRanksBelow(sorted, h, 10);
    assert |multiset(hs)| == |multiset(sorted)|;
    SortedHitScored(c, query, 9);
  }

  /** When at most ten entries match, every one of them is listed. */
  lemma FewMatchesAllListed(c: seq<SearchItem>, query: string, e: SearchItem)
    requires !AllSpace(query)
    requires |Hits(c, query)| <= 10
    requires e in c && Score(e, query) > 0
    ensures e in Results(c, query)
  {
    if e !in Results(c, query) {
      ResultsComplete(c, query, e);
    }
  }

  /** No hits when every entry scores zero. */
  lemma {:induction false} HitsNone(c: seq<SearchItem>, q: string)
    requires forall i :: 0 <= i < |c| ==> Score(c[i], q) == 0
    ensures Hits(c, q) == []
  {
    if c != [] {
      assert forall i :: 0 <= i < |c[1..]| ==> c[1..][i] == c[i + 1];
      HitsNone(c[1..], q);
    }
  }

  /** Exactly one hit when exactly one entry scores above zero. */
  lemma {:induction false} HitsSingle(c: seq<SearchItem>, q: string, k: nat)
    requires k < |c| && Score(c[k], q) > 0
    requires forall i :: 0 <= i < |c| && i != k ==> Score(c[i], q) == 0
    ensures Hits(c, q) == [Hit(c[k], Score(c[k], q))]
  {
    assert forall i :: 0 <= i < |c[1..]| ==> c[1..][i] == c[i + 1];
    if k == 0 {
      HitsNone(c[1..], q);
    } else {
      HitsSingle(c[1..], q, k - 1);
    }
  }

  /**
   * A non-blank query that only one entry matches lists that entry alone.
   */
  lemma SingleResult(c: seq<SearchItem>, query: string, k: nat)
    requires !AllSpace(query)
    requires k < |c| && Score(c[k], query) > 0
    requires forall i :: 0 <= i < |c| && i != k ==> Score(c[i], query) == 0
    ensures Results(c, query) == [c[k]]
  {
    NormalizeBlank(query);
    HitsSingle(c, query, k);
    var h := Hit(c[k], Score(c[k], query));
    assert StableSortDesc([h]) == Insert(h, []) == [h];
  }
}
