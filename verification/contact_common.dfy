/**
 * What the three contact relay handlers share: the decoded form, JavaScript
 * truthiness of its fields, the JSON reply bodies, the subject prefix, the
 * plain-text rendering of a message, and the e-mail shape test
 * `/^[^\s@]+@[^\s@]+\.[^\s@]+$/` that the two TypeScript handlers apply.
 */
module ContactCommon {
  import opened Wrappers
  import opened Text

  /** The four fields destructured from the request body; `None` is `undefined`. */
  datatype Form = Form(name: Option<string>, email: Option<string>,
                       subject: Option<string>, message: Option<string>)

  /** A body with none of the fields: what `{}` destructures to. */
  const EmptyForm := Form(None, None, None, None)

  /** JavaScript truthiness of a string field: present and not "". */
  predicate Truthy(v: Option<string>) {
    v.Some? && v.value != ""
  }

  /** `name && email && subject && message`. */
  predicate AllTruthy(f: Form) {
    Truthy(f.name) && Truthy(f.email) && Truthy(f.subject) && Truthy(f.message)
  }

  /** A field's text when it is present, "" otherwise. */
  function FieldText(v: Option<string>): string {
    v.GetOr("")
  }

  /** The JSON body of a reply: `{ ok: true }` or `{ error: message }`. */
  datatype Reply = Ok | Error(message: string)

  /** A status code with its JSON body. */
  datatype Response = Response(status: int, reply: Reply)

  /** `[Contact] ${subject}`. */
  function ContactSubject(subject: string): (r: string)
    ensures |r| == 10 + |subject|
    ensures r[10..] == subject
  {
    "[Contact] " + subject
  }

  /**
   * The header block both renderings start with: three labelled lines, then an
   * empty line.
   */
  function Header(name: string, email: string, subject: string): string {
    "Name: " + name + "\nEmail: " + email + "\nSubject: " + subject + "\n\n"
  }

  /**
   * `[Name: n, Email: e, Subject: s, "", message].join("\n")`: the lines joined
   * with no newline after the message.
   */
  function JoinedText(name: string, email: string, subject: string, message: string): (r: string)
    ensures r == Header(name, email, subject) + message
  {
    var a, b, c := "Name: " + name, "Email: " + email, "Subject: " + subject;
    var lines := [a, b, c, "", message];
    assert lines[1..][1..][1..][1..] == [message];
    assert Join(lines[1..][1..][1..], "\n") == "" + "\n" + message;
    assert Join(lines[1..][1..], "\n") == c + "\n" + ("" + "\n" + message);
    assert Join(lines[1..], "\n") == b + "\n" + (c + "\n" + ("" + "\n" + message));
    assert Join(lines, "\n") == a + "\n" + (b + "\n" + (c + "\n" + ("" + "\n" + message)));
    Join(lines, "\n")
  }

  // ---------------------------------------------------------------- e-mail shape

  /** One piece `[^\s@]+` of the pattern may hold these characters. */
  predicate Clean(s: string) {
    forall i :: 0 <= i < |s| ==> !IsSpace(s[i]) && s[i] != '@'
  }

  /**
   * The pattern read literally: four pieces, three of them `[^\s@]+`, split by
   * one "@" and one ".", covering the whole string.
   */
  ghost predicate MatchesEmailPattern(e: string) {
    exists k, j :: 0 < k && k + 1 < j && j + 1 < |e| && e[k] == '@' && e[j] == '.' &&
      Clean(e[..k]) && Clean(e[k + 1..j]) && Clean(e[j + 1..])
  }

  /** The first index at or after `i` holding `c`. */
  function FindChar(s: string, c: char, i: nat): (r: Option<nat>)
    requires i <= |s|
    ensures r.Some? ==> i <= r.value < |s| && s[r.value] == c
    ensures r.Some? ==> forall m :: i <= m < r.value ==> s[m] != c
    ensures r.None? ==> forall m :: i <= m < |s| ==> s[m] != c
    decreases |s| - i
  {
    if i == |s| then None
    else if s[i] == c then Some(i)
    else FindChar(s, c, i + 1)
  }

  /** Some "." at index `i` or later that is not the last character. */
  predicate HasInnerDot(d: string, i: nat)
    decreases |d| - i
  {
    i + 1 < |d| && (d[i] == '.' || HasInnerDot(d, i + 1))
  }

  lemma {:induction false} HasInnerDotSpec(d: string, i: nat)
    ensures HasInnerDot(d, i) <==> exists j :: i <= j < |d| - 1 && d[j] == '.'
    decreases |d| - i
  {
    if i + 1 < |d| {
      HasInnerDotSpec(d, i + 1);
    }
  }

  /**
   * The shape test as a scan: a non-empty clean part before the first "@",
   * then a clean domain with a "." that is neither its first nor its last
   * character.
   */
  predicate EmailShape(e: string)
    ensures EmailShape(e) ==> |e| >= 5 && e[0] != '@'
  {
    match FindChar(e, '@', 0)
    case None => false
    case Some(k) => k > 0 && Clean(e[..k]) && Clean(e[k + 1..]) && HasInnerDot(e[k + 1..], 1)
  }

  /** Whatever the scan accepts, the regular expression matches. */
  lemma EmailShapeSound(e: string)
    requires EmailShape(e)
    ensures MatchesEmailPattern(e)
  {
    var k := FindChar(e, '@', 0).value;
    var d := e[k + 1..];
    HasInnerDotSpec(d, 1);
    var jd :| 1 <= jd < |d| - 1 && d[jd] == '.';
    var j := k + 1 + jd;
    assert e[k + 1..j] == d[..jd];
    assert e[j + 1..] == d[jd + 1..];
    assert e[j] == '.';
  }

  /** Whatever the regular expression matches, the scan accepts. */
  lemma EmailShapeComplete(e: string, k: int, j: int)
    requires 0 < k && k + 1 < j && j + 1 < |e| && e[k] == '@' && e[j] == '.'
    requires Clean(e[..k]) && Clean(e[k + 1..j]) && Clean(e[j + 1..])
    ensures EmailShape(e)
  {
    assert FindChar(e, '@', 0) == Some(k);
    var d := e[k + 1..];
    forall m | 0 <= m < |d| ensures !IsSpace(d[m]) && d[m] != '@' {
      if m < j - (k + 1) {
        assert d[m] == e[k + 1..j][m];
      } else if m > j - (k + 1) {
        assert d[m] == e[j + 1..][m - (j - k)];
      }
    }
    assert d[j - (k + 1)] == '.';
    HasInnerDotSpec(d, 1);
  }

  /** The scan accepts exactly the strings the regular expression matches. */
  lemma EmailShapeMatchesPattern(e: string)
    ensures EmailShape(e) <==> MatchesEmailPattern(e)
  {
    if EmailShape(e) {
      EmailShapeSound(e);
    }
    if MatchesEmailPattern(e) {
      var k, j :| 0 < k && k + 1 < j && j + 1 < |e| && e[k] == '@' && e[j] == '.' &&
        Clean(e[..k]) && Clean(e[k + 1..j]) && Clean(e[j + 1..]);
      EmailShapeComplete(e, k, j);
    }
  }

  /** "a@b.com" has the shape. */
  lemma EmailShapeAccepts()
    ensures EmailShape("a@b.com")
  {
    assert FindChar("a@b.com", '@', 0) == Some(1);
    assert "a@b.com"[2..] == "b.com";
  }

  /** "a@b" has no dot in its domain. */
  lemma EmailShapeNeedsDot()
    ensures !EmailShape("a@b")
  {
    assert FindChar("a@b", '@', 0) == Some(1);
    assert "a@b"[2..] == "b";
  }

  /** "a@.b" has its dot first in the domain. */
  lemma EmailShapeDotNotFirst()
    ensures !EmailShape("a@.b")
  {
    assert FindChar("a@.b", '@', 0) == Some(1);
    assert "a@.b"[2..] == ".b";
  }

  /** "a@b." has its dot last in the domain. */
  lemma EmailShapeDotNotLast()
    ensures !EmailShape("a@b.")
  {
    assert FindChar("a@b.", '@', 0) == Some(1);
    assert "a@b."[2..] == "b.";
  }

  /** A shaped address has exactly one "@", no whitespace, and a non-empty local part. */
  lemma EmailShapeFacts(e: string)
    requires EmailShape(e)
    ensures e != [] && e[0] != '@'
    ensures forall i :: 0 <= i < |e| ==> !IsSpace(e[i])
    ensures exists k :: 0 < k < |e| && e[k] == '@' && forall m :: 0 <= m < |e| && m != k ==> e[m] != '@'
  {
    var k := FindChar(e, '@', 0).value;
    var d := e[k + 1..];
    assert e[..k][0] == e[0];
    forall i | 0 <= i < |e| ensures !IsSpace(e[i]) {
      if i < k {
        assert e[i] == e[..k][i];
      } else if i > k {
        assert e[i] == d[i - k - 1];
      }
    }
    forall m | 0 <= m < |e| && m != k ensures e[m] != '@' {
      if m > k {
        assert e[m] == d[m - k - 1];
      }
    }
  }
}
