/**
 * Stable ordering of scored entries by descending score, as
 * `Array.prototype.sort((a, b) => b.s - a.s)` produces it, and the
 * per-score classes that describe its stability.
 */
module Ranking {

  /** A scored entry: `{ item, s }`. */
  datatype Hit<T> = Hit(item: T, s: int)

  /** No entry scores higher than one before it. */
  predicate SortedDesc<T>(hs: seq<Hit<T>>) {
    forall i, j :: 0 <= i < j < |hs| ==> hs[i].s >= hs[j].s
  }

  /** One insertion step: `h` goes after every strictly higher score and before the rest. */
  function Insert<T>(h: Hit<T>, hs: seq<Hit<T>>): (r: seq<Hit<T>>)
    ensures |r| == |hs| + 1
    ensures forall i :: 0 <= i < |r| ==> r[i] == h || r[i] in hs
  {
    if hs == [] || hs[0].s <= h.s then [h] + hs
    else [hs[0]] + Insert(h, hs[1..])
  }

  lemma {:induction false} InsertPerm<T>(h: Hit<T>, hs: seq<Hit<T>>)
    ensures multiset(Insert(h, hs)) == multiset(hs) + multiset{h}
  {
    if hs != [] && hs[0].s > h.s {
      InsertPerm(h, hs[1..]);
      assert hs == [hs[0]] + hs[1..];
    }
  }

  lemma {:induction false} InsertSorted<T>(h: Hit<T>, hs: seq<Hit<T>>)
    requires SortedDesc(hs)
    ensures SortedDesc(Insert(h, hs))
  {
    var r := Insert(h, hs);
    if hs == [] || hs[0].s <= h.s {
      assert r == [h] + hs;
      forall i, j | 0 <= i < j < |r| ensures r[i].s >= r[j].s {
        if i > 0 { assert r[i] == hs[i - 1] && r[j] == hs[j - 1]; }
        else { assert r[j] == hs[j - 1]; }
      }
    } else {
      var rest := Insert(h, hs[1..]);
      InsertSorted(h, hs[1..]);
      assert r == [hs[0]] + rest;
      forall i, j | 0 <= i < j < |r| ensures r[i].s >= r[j].s {
        if i > 0 { assert r[i] == rest[i - 1] && r[j] == rest[j - 1]; }
        else {
          assert r[j] == rest[j - 1];
          if rest[j - 1] != h {
            var k :| 0 <= k < |hs[1..]| && hs[1..][k] == rest[j - 1];
            assert hs[k + 1] == rest[j - 1];
          }
        }
      }
    }
  }

  /**
   * `.sort((a, b) => b.s - a.s)`. ECMAScript requires `Array.prototype.sort`
   * to be stable, so the order is fully determined; it is written here as an
   * insertion sort, whose output is that stable order.
   */
  function StableSortDesc<T>(hs: seq<Hit<T>>): (r: seq<Hit<T>>)
    ensures SortedDesc(r)
    ensures multiset(r) == multiset(hs)
  {
    if hs == [] then []
    else
      var t := StableSortDesc(hs[1..]);
      InsertSorted(hs[0], t);
      InsertPerm(hs[0], t);
      assert hs == [hs[0]] + hs[1..];
      Insert(hs[0], t)
  }

  /** Every element of the sorted list is one of the input's. */
  lemma SortedMembers<T>(hs: seq<Hit<T>>)
    ensures forall i :: 0 <= i < |StableSortDesc(hs)| ==> StableSortDesc(hs)[i] in hs
  {
    var r := StableSortDesc(hs);
    forall i | 0 <= i < |r|
      ensures r[i] in hs
    {
      assert r[i] in multiset(r);
    }
  }

  /** The entries that scored exactly `k`, in their original order. */
  function Bucket<T>(hs: seq<Hit<T>>, k: int): (r: seq<Hit<T>>)
    ensures forall x :: x in r ==> x in hs && x.s == k
  {
    if hs == [] then []
    else (if hs[0].s == k then [hs[0]] else []) + Bucket(hs[1..], k)
  }

  /** A score no element has makes an empty class. */
  lemma {:induction false} BucketNone<T>(hs: seq<Hit<T>>, k: int)
    requires forall x :: x in hs ==> x.s != k
    ensures Bucket(hs, k) == []
  {
    if hs != [] {
      assert forall x :: x in hs[1..] ==> x in hs;
      BucketNone(hs[1..], k);
    }
  }

  lemma BucketCons<T>(h: Hit<T>, t: seq<Hit<T>>, k: int)
    ensures Bucket([h] + t, k) == (if h.s == k then [h] else []) + Bucket(t, k)
  {
    assert ([h] + t)[0] == h && ([h] + t)[1..] == t;
  }

  /** Two entries of different scores can swap places without changing any class. */
  lemma BucketSwap<T>(a: Hit<T>, b: Hit<T>, t: seq<Hit<T>>, k: int)
    requires a.s != b.s
    ensures Bucket([a] + ([b] + t), k) == Bucket([b] + ([a] + t), k)
  {
    BucketCons(a, [b] + t, k);
    BucketCons(b, t, k);
    BucketCons(b, [a] + t, k);
    BucketCons(a, t, k);
  }

  /** Inserting `h` keeps every score class in order, with `h` first in its own class. */
  lemma {:induction false} InsertStable<T>(h: Hit<T>, hs: seq<Hit<T>>, k: int)
    ensures Bucket(Insert(h, hs), k) == Bucket([h] + hs, k)
  {
    if hs != [] && hs[0].s > h.s {
      var rest := hs[1..];
      assert Insert(h, hs) == [hs[0]] + Insert(h, rest);
      InsertStable(h, rest, k);
      BucketCons(hs[0], Insert(h, rest), k);
      BucketCons(hs[0], [h] + rest, k);
      BucketSwap(hs[0], h, rest, k);
      assert [hs[0]] + rest == hs;
    }
  }

  /**
   * Stability: the entries of any one score come out of the sort in the
   * order they went in.
   */
  lemma {:induction false} SortStable<T>(hs: seq<Hit<T>>, k: int)
    ensures Bucket(StableSortDesc(hs), k) == Bucket(hs, k)
  {
    if hs != [] {
      assert hs == [hs[0]] + hs[1..];
      InsertStable(hs[0], StableSortDesc(hs[1..]), k);
      SortStable(hs[1..], k);
      BucketCons(hs[0], StableSortDesc(hs[1..]), k);
      BucketCons(hs[0], hs[1..], k);
    }
  }

  lemma {:induction false} BucketAppend<T>(a: seq<Hit<T>>, b: seq<Hit<T>>, k: int)
    ensures Bucket(a + b, k) == Bucket(a, k) + Bucket(b, k)
  {
    if a != [] {
      assert (a + b)[0] == a[0] && (a + b)[1..] == a[1..] + b;
      BucketAppend(a[1..], b, k);
    } else {
      assert a + b == b;
    }
  }

  /** The entries of a list of scored entries. */
  function Items<T>(hs: seq<Hit<T>>): (r: seq<T>)
    ensures |r| == |hs|
    ensures forall i :: 0 <= i < |hs| ==> r[i] == hs[i].item
  {
    if hs == [] then [] else [hs[0].item] + Items(hs[1..])
  }

  lemma ItemsAppend<T>(a: seq<Hit<T>>, b: seq<Hit<T>>)
    ensures Items(a + b) == Items(a) + Items(b)
  {
    assert |Items(a + b)| == |Items(a) + Items(b)|;
    forall i | 0 <= i < |a + b| ensures Items(a + b)[i] == (Items(a) + Items(b))[i] {
      if i < |a| { assert (a + b)[i] == a[i]; } else { assert (a + b)[i] == b[i - |a|]; }
    }
  }

  /** `s.slice(0, n)`: the first `n` elements, or all of them when there are fewer. */
  function Take<U>(s: seq<U>, n: nat): (r: seq<U>)
    ensures |r| <= n && |r| <= |s|
    ensures |s| <= n ==> r == s
    ensures |s| > n ==> |r| == n
    ensures forall i :: 0 <= i < |r| ==> r[i] == s[i]
  {
    if |s| <= n then s else s[..n]
  }

  lemma ItemsTake<T>(hs: seq<Hit<T>>, n: nat)
    ensures Items(Take(hs, n)) == Take(Items(hs), n)
  {
  }

  /** Cutting a list short cuts each score class short. */
  lemma BucketTake<T>(hs: seq<Hit<T>>, n: nat, k: int)
    ensures Bucket(Take(hs, n), k) <= Bucket(hs, k)
  {
    if |hs| > n {
      assert hs == hs[..n] + hs[n..];
      BucketAppend(hs[..n], hs[n..], k);
    }
  }

  lemma ItemsPrefix<T>(a: seq<Hit<T>>, b: seq<Hit<T>>)
    requires a <= b
    ensures Items(a) <= Items(b)
  {
  }

  /**
   * An entry of a descending list that is missing from the items of its
   * first `n` elements lies past them: the cut list is full and the entry
   * scores no higher than its last element.
   */
  lemma DroppedRanksBelow<T>(hs: seq<Hit<T>>, h: Hit<T>, n: nat)
    requires SortedDesc(hs) && h in hs && n > 0
    requires h.item !in Items(Take(hs, n))
    ensures |hs| > n && |Items(Take(hs, n))| == n
    ensures Items(Take(hs, n))[n - 1] == hs[n - 1].item
    ensures h.s <= hs[n - 1].s
  {
    var j :| 0 <= j < |hs| && hs[j] == h;
    assert forall k :: 0 <= k < |hs| && k < n ==> Items(Take(hs, n))[k] == hs[k].item;
  }
}
