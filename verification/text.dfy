/**
 * String primitives shared by the site's helpers: the whitespace that
 * JavaScript's `\s` and `String.prototype.trim` recognise, ASCII case
 * mapping, trimming and `String.prototype.includes`.
 */
module Text {

  /** ECMAScript WhiteSpace and LineTerminator code points: what `\s` matches and `trim()` removes. */
  predicate IsSpace(c: char) {
    || c == ' ' || c == '\t' || c == '\n' || c == '\r' || c == '\U{000B}' || c == '\U{000C}'
    || c == '\U{00A0}' || c == '\U{1680}' || ('\U{2000}' <= c <= '\U{200A}')
    || c == '\U{2028}' || c == '\U{2029}' || c == '\U{202F}' || c == '\U{205F}'
    || c == '\U{3000}' || c == '\U{FEFF}'
  }

  predicate IsUpper(c: char) { 'A' <= c <= 'Z' }

  predicate IsLower(c: char) { 'a' <= c <= 'z' }

  predicate IsDigit(c: char) { '0' <= c <= '9' }

  predicate AllSpace(s: string) {
    forall i :: 0 <= i < |s| ==> IsSpace(s[i])
  }

  predicate NoSpace(s: string) {
    forall i :: 0 <= i < |s| ==> !IsSpace(s[i])
  }

  predicate NoUpper(s: string) {
    forall i :: 0 <= i < |s| ==> !IsUpper(s[i])
  }

  /** `s` holds the letter `c` in neither case. */
  predicate Lacks(s: string, c: char) {
    c !in s && UpperChar(c) !in s
  }

  /** `toLowerCase` on one character, restricted to ASCII letters. */
  function LowerChar(c: char): (r: char)
    ensures !IsUpper(r)
    ensures IsSpace(r) <==> IsSpace(c)
    ensures IsUpper(c) ==> IsLower(r)
  {
    if IsUpper(c) then (c as int + 32) as char else c
  }

  /** `toUpperCase` on one character, restricted to ASCII letters. */
  function UpperChar(c: char): (r: char)
    ensures !IsLower(r)
    ensures IsLower(c) ==> IsUpper(r) && LowerChar(r) == c
  {
    if IsLower(c) then (c as int - 32) as char else c
  }

  /** `String.prototype.toLowerCase`, character by character. */
  function ToLower(s: string): (r: string)
    ensures |r| == |s|
    ensures forall i :: 0 <= i < |s| ==> r[i] == LowerChar(s[i])
  {
    if s == [] then [] else [LowerChar(s[0])] + ToLower(s[1..])
  }

  lemma {:induction false} ToLowerAppend(a: string, b: string)
    ensures ToLower(a + b) == ToLower(a) + ToLower(b)
  {
    var l, r := ToLower(a + b), ToLower(a) + ToLower(b);
    assert |l| == |r|;
    forall i | 0 <= i < |l| ensures l[i] == r[i] {
      if i < |a| { assert (a + b)[i] == a[i]; } else { assert (a + b)[i] == b[i - |a|]; }
    }
  }

  /** A lower-cased string holds no ASCII capital, and lower-casing it again changes nothing. */
  lemma ToLowerIdempotent(s: string)
    ensures NoUpper(ToLower(s)) && ToLower(ToLower(s)) == ToLower(s)
  {
  }

  lemma ToLowerOfLower(s: string)
    requires NoUpper(s)
    ensures ToLower(s) == s
  {
  }

  /** A character missing from `s`, in both cases, is missing from `ToLower(s)`. */
  lemma ToLowerAbsent(s: string, c: char)
    requires c !in s
    requires IsLower(c) ==> UpperChar(c) !in s
    ensures c !in ToLower(s)
  {
    forall i | 0 <= i < |s| ensures ToLower(s)[i] != c {
      if IsUpper(s[i]) && IsLower(c) {
        assert UpperChar(c) != s[i];
      }
    }
  }

  /** Leading whitespace removed (the first half of `trim`). */
  function TrimStart(s: string): (r: string)
    ensures |r| <= |s|
  {
    if s != [] && IsSpace(s[0]) then TrimStart(s[1..]) else s
  }

  /** Trailing whitespace removed (the second half of `trim`). */
  function TrimEnd(s: string): (r: string)
    ensures |r| <= |s|
  {
    if s != [] && IsSpace(s[|s| - 1]) then TrimEnd(s[..|s| - 1]) else s
  }

  /** `TrimStart` drops a whitespace prefix and stops at the first other character. */
  lemma {:induction false} TrimStartSpec(s: string)
    ensures TrimStart(s) == s[|s| - |TrimStart(s)|..]
    ensures AllSpace(s[..|s| - |TrimStart(s)|])
    ensures TrimStart(s) != [] ==> !IsSpace(TrimStart(s)[0])
  {
    if s != [] && IsSpace(s[0]) {
      TrimStartSpec(s[1..]);
      var n := |s| - |TrimStart(s)|;
      assert s[..n] == [s[0]] + s[1..][..n - 1];
    }
  }

  /** `TrimEnd` drops a whitespace suffix and stops at the last other character. */
  lemma {:induction false} TrimEndSpec(s: string)
    ensures TrimEnd(s) == s[..|TrimEnd(s)|]
    ensures AllSpace(s[|TrimEnd(s)|..])
    ensures TrimEnd(s) != [] ==> !IsSpace(TrimEnd(s)[|TrimEnd(s)| - 1])
  {
    if s != [] && IsSpace(s[|s| - 1]) {
      var p := s[..|s| - 1];
      TrimEndSpec(p);
      var m := |TrimEnd(s)|;
      assert s[m..] == p[m..] + [s[|s| - 1]];
    }
  }

  /** `String.prototype.trim`. */
  function Trim(s: string): (r: string)
    ensures |r| <= |s|
  {
    TrimEnd(TrimStart(s))
  }

  /** The trimmed string neither starts nor ends with whitespace. */
  lemma TrimEnds(s: string)
    ensures Trim(s) != [] ==> !IsSpace(Trim(s)[0]) && !IsSpace(Trim(s)[|Trim(s)| - 1])
  {
    TrimStartSpec(s);
    TrimEndSpec(TrimStart(s));
  }

  /**
   * `trim` removes only whitespace from the two ends: the result is a
   * contiguous slice of the input with nothing but whitespace around it.
   */
  lemma TrimIsSlice(s: string)
    ensures exists i, j :: 0 <= i <= j <= |s| && Trim(s) == s[i..j]
                           && AllSpace(s[..i]) && AllSpace(s[j..])
  {
    TrimStartSpec(s);
    var t := TrimStart(s);
    TrimEndSpec(t);
    var i := |s| - |t|;
    var m := |TrimEnd(t)|;
    assert t == s[i..];
    assert Trim(s) == t[..m] == s[i..i + m];
    assert s[i + m..] == t[m..];
  }

  /** `trim` yields the empty string exactly when the input is all whitespace. */
  lemma TrimEmpty(s: string)
    ensures Trim(s) == [] <==> AllSpace(s)
  {
    TrimIsSlice(s);
    var i, j :| 0 <= i <= j <= |s| && Trim(s) == s[i..j] && AllSpace(s[..i]) && AllSpace(s[j..]);
    if Trim(s) == [] {
      assert s == s[..i] + s[j..];
    } else {
      assert Trim(s)[0] == s[i];
      TrimEnds(s);
    }
  }

  lemma TrimMember(s: string, c: char)
    requires c in Trim(s)
    ensures c in s
  {
    TrimIsSlice(s);
  }

  lemma TrimNoSpace(s: string)
    requires NoSpace(s)
    ensures Trim(s) == s
  {
    TrimStartSpec(s);
    if s != [] {
      assert TrimStart(s) == s;
      TrimEndSpec(s);
    }
  }

  /** `q` occurs in `s` starting at `i`, compared from offset `j` on. */
  predicate MatchFrom(s: string, q: string, i: nat, j: nat)
    decreases |q| - j
  {
    j >= |q| || (i + j < |s| && s[i + j] == q[j] && MatchFrom(s, q, i, j + 1))
  }

  /** `q` occurs in `s` at some position `i` or later. */
  predicate ContainsFrom(s: string, q: string, i: nat)
    decreases |s| - i
  {
    i + |q| <= |s| && (MatchFrom(s, q, i, 0) || ContainsFrom(s, q, i + 1))
  }

  /** `String.prototype.includes`: a left-to-right scan for `q` in `s`. */
  predicate Contains(s: string, q: string) {
    ContainsFrom(s, q, 0)
  }

  /** `q` sits in `s` at position `i`. */
  ghost predicate OccursAt(s: string, q: string, i: int) {
    0 <= i <= |s| - |q| && s[i..i + |q|] == q
  }

  /** The substring relation `Contains` is meant to compute. */
  ghost predicate IsSubstring(q: string, s: string) {
    exists i :: OccursAt(s, q, i)
  }

  lemma {:induction false} MatchFromSpec(s: string, q: string, i: nat, j: nat)
    requires i + |q| <= |s| && j <= |q|
    ensures MatchFrom(s, q, i, j) <==> s[i + j..i + |q|] == q[j..]
    decreases |q| - j
  {
    if j < |q| {
      MatchFromSpec(s, q, i, j + 1);
      assert s[i + j..i + |q|] == [s[i + j]] + s[i + j + 1..i + |q|];
      assert q[j..] == [q[j]] + q[j + 1..];
    }
  }

  lemma {:induction false} ContainsFromSpec(s: string, q: string, i: nat)
    ensures ContainsFrom(s, q, i) <==> exists k :: i <= k && OccursAt(s, q, k)
    decreases |s| - i
  {
    if i + |q| <= |s| {
      MatchFromSpec(s, q, i, 0);
      assert q[0..] == q;
      ContainsFromSpec(s, q, i + 1);
      if MatchFrom(s, q, i, 0) {
        assert OccursAt(s, q, i);
      }
      if exists k :: i <= k && OccursAt(s, q, k) {
        var k :| i <= k && OccursAt(s, q, k);
        if k > i {
          assert i + 1 <= k && OccursAt(s, q, k);
        }
      }
    }
  }

  /** The scan finds `q` exactly when `q` is a substring of `s`. */
  lemma ContainsIsSubstring(s: string, q: string)
    ensures Contains(s, q) <==> IsSubstring(q, s)
  {
    ContainsFromSpec(s, q, 0);
  }

  /** Every character of a string found in `s` is a character of `s`. */
  lemma ContainsChar(s: string, q: string, c: char)
    requires Contains(s, q) && c in q
    ensures c in s
  {
    ContainsIsSubstring(s, q);
    var i :| OccursAt(s, q, i);
    var j :| 0 <= j < |q| && q[j] == c;
    assert s[i + j] == c;
  }

  /** The empty string is found in every string, as `"abc".includes("")` is true. */
  lemma ContainsEmpty(s: string)
    ensures Contains(s, "")
  {
  }

  /** `q` occurs in `s` at `i` once `s` is lower-cased, compared from offset `j` on. */
  predicate MatchLowerFrom(s: string, q: string, i: nat, j: nat)
    decreases |q| - j
  {
    j >= |q| || (i + j < |s| && LowerChar(s[i + j]) == q[j] && MatchLowerFrom(s, q, i, j + 1))
  }

  /** `ToLower(s).includes(q)` decided on `s` itself, from position `i` on. */
  predicate ContainsLowerFrom(s: string, q: string, i: nat)
    decreases |s| - i
  {
    i + |q| <= |s| && (MatchLowerFrom(s, q, i, 0) || ContainsLowerFrom(s, q, i + 1))
  }

  lemma {:induction false} MatchLowerSpec(s: string, q: string, i: nat, j: nat)
    ensures MatchLowerFrom(s, q, i, j) <==> MatchFrom(ToLower(s), q, i, j)
    decreases |q| - j
  {
    if j < |q| {
      MatchLowerSpec(s, q, i, j + 1);
    }
  }

  lemma {:induction false} ContainsLowerSpec(s: string, q: string, i: nat)
    ensures ContainsLowerFrom(s, q, i) <==> ContainsFrom(ToLower(s), q, i)
    decreases |s| - i
  {
    if i + |q| <= |s| {
      MatchLowerSpec(s, q, i, 0);
      ContainsLowerSpec(s, q, i + 1);
    }
  }

  /** A match at `i` is found by the scan from any earlier position. */
  lemma {:induction false} ContainsLowerAt(s: string, q: string, i: nat, k: nat)
    requires k <= i && i + |q| <= |s| && MatchLowerFrom(s, q, i, 0)
    ensures ContainsLowerFrom(s, q, k)
    decreases i - k
  {
    if k < i {
      ContainsLowerAt(s, q, i, k + 1);
    }
  }

  /** Whatever is found in a slice of `s` is found in `s`. */
  lemma ContainsSlice(s: string, q: string, i: nat, j: nat)
    requires i <= j <= |s| && Contains(s[i..j], q)
    ensures Contains(s, q)
  {
    ContainsIsSubstring(s[i..j], q);
    var k :| OccursAt(s[i..j], q, k);
    assert OccursAt(s, q, i + k) by {
      forall m | 0 <= m < |q| ensures s[i + k + m] == q[m] {
        assert s[i..j][k..k + |q|][m] == q[m];
      }
    }
    ContainsIsSubstring(s, q);
  }

  /** `trim` leaves a string alone when it neither starts nor ends with whitespace. */
  lemma TrimKeeps(s: string)
    requires s != [] ==> !IsSpace(s[0]) && !IsSpace(s[|s| - 1])
    ensures Trim(s) == s
  {
  }

  /** `parts.join(sep)`: the parts with `sep` between neighbours. */
  function Join(parts: seq<string>, sep: string): (r: string)
    ensures parts == [] ==> r == ""
    ensures |parts| == 1 ==> r == parts[0]
  {
    if parts == [] then ""
    else if |parts| == 1 then parts[0]
    else parts[0] + sep + Join(parts[1..], sep)
  }

  /** Joining two or more parts: the first part, the separator, then the others joined. */
  lemma JoinFront(parts: seq<string>, sep: string)
    requires |parts| >= 2
    ensures Join(parts, sep) == parts[0] + (sep + Join(parts[1..], sep))
  {
    assert parts[0] + sep + Join(parts[1..], sep) == parts[0] + (sep + Join(parts[1..], sep));
  }

  /** Joining non-empty parts starts as the first part starts and ends as the last part ends. */
  lemma {:induction false} JoinEnds(parts: seq<string>, sep: string)
    requires parts != [] && forall k :: 0 <= k < |parts| ==> parts[k] != []
    ensures var r := Join(parts, sep);
            r != [] && r[0] == parts[0][0] && r[|r| - 1] == parts[|parts| - 1][|parts[|parts| - 1]| - 1]
  {
    if |parts| >= 2 {
      JoinEnds(parts[1..], sep);
      JoinFront(parts, sep);
    }
  }

  /** A non-empty sequence is its first element followed by the rest. */
  lemma HeadTail<T>(s: seq<T>)
    requires s != []
    ensures [s[0]] + s[1..] == s
  {
  }

  /** A one-element sequence is the sequence of its element. */
  lemma Single<T>(s: seq<T>)
    requires |s| == 1
    ensures [s[0]] == s
  {
  }

  /** The first element and the rest of a sequence built from them. */
  lemma ConsParts<T>(x: T, s: seq<T>)
    ensures ([x] + s)[0] == x && ([x] + s)[1..] == s
  {
  }

  /** Three elements in front of a sequence, put there one at a time. */
  lemma Three<T>(a: T, b: T, c: T, s: seq<T>)
    ensures [a, b, c] + s == [a] + ([b] + [c] + s)
  {
  }

  lemma Associative<T>(a: seq<T>, b: seq<T>, c: seq<T>)
    ensures a + (b + c) == (a + b) + c
  {
  }

  /** A non-empty slice is its first element followed by the rest of the slice. */
  lemma SliceFront<T>(s: seq<T>, i: nat, k: nat)
    requires i < k <= |s|
    ensures s[i..k] == [s[i]] + s[i + 1..k]
  {
  }
}
