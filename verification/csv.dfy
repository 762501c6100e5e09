/**
 * The CSV export the Documentation and Parts List pages share: `esc` wraps
 * every cell in double quotes and doubles the quotes inside it, cells are
 * joined by ",", rows by "\n", and the text starts with a U+FEFF byte-order
 * mark. A reader for that text (section 2 of RFC 4180, with "\n" between
 * records) is given here too, and reading the exported text gives back the
 * rows that were exported.
 */
module Csv {
  import opened Wrappers
  import opened Text

  /** The byte-order mark that lets spreadsheet programs detect UTF-8. */
  const ByteOrderMark: char := '\U{FEFF}'

  /** `v.replace(/"/g, '""')`: every double quote doubled, everything else kept. */
  function DoubleQuotes(v: string): (r: string)
    ensures |r| >= |v|
    ensures '"' !in v ==> r == v
  {
    if v == [] then []
    else (if v[0] == '"' then "\"\"" else [v[0]]) + DoubleQuotes(v[1..])
  }

  /** `esc(v)`: the cell between double quotes, inner quotes doubled. */
  function Esc(v: string): (r: string)
    ensures |r| >= |v| + 2 && r[0] == '"' && r[|r| - 1] == '"'
    ensures '"' !in v ==> r == "\"" + v + "\""
  {
    "\"" + DoubleQuotes(v) + "\""
  }

  /** `row.map(esc)`. */
  function EscAll(row: seq<string>): (r: seq<string>)
    ensures |r| == |row|
    ensures forall i :: 0 <= i < |row| ==> r[i] == Esc(row[i])
  {
    if row == [] then [] else [Esc(row[0])] + EscAll(row[1..])
  }

  /** `row.map(esc).join(",")`: one line of the export. */
  function Line(row: seq<string>): (r: string)
    ensures row == [] ==> r == ""
    ensures row != [] ==> |r| >= 2 && r[0] == '"' && r[|r| - 1] == '"'
    ensures |row| == 1 ==> r == Esc(row[0])
  {
    var cells := EscAll(row);
    if cells == [] then Join(cells, ",")
    else JoinEnds(cells, ","); Join(cells, ",")
  }

  /** `rows.map(line)`. */
  function Lines(rows: seq<seq<string>>): (r: seq<string>)
    ensures |r| == |rows|
    ensures forall i :: 0 <= i < |rows| ==> r[i] == Line(rows[i])
  {
    if rows == [] then [] else [Line(rows[0])] + Lines(rows[1..])
  }

  /** `"\uFEFF" + [headers, ...rows].map(...).join("\n")`. */
  function Document(header: seq<string>, rows: seq<seq<string>>): (r: string)
    ensures r != [] && r[0] == ByteOrderMark
  {
    [ByteOrderMark] + Join(Lines([header] + rows), "\n")
  }

  // ---------------------------------------------------------------- reading it back

  /** Puts `c` in front of a read field. */
  function Prepend(c: char, o: Option<(string, string)>): Option<(string, string)> {
    match o
    case None => None
    case Some((f, rest)) => Some(([c] + f, rest))
  }

  /**
   * The inside of a quoted field, `s` starting just after the opening quote:
   * a doubled quote stands for one quote, a single quote closes the field.
   * The field's text and what follows the closing quote; `None` when the
   * quote is never closed.
   */
  function ReadQuoted(s: string): (r: Option<(string, string)>)
    ensures r.Some? ==> |r.value.1| < |s|
  {
    if s == [] then None
    else if s[0] == '"' then
      if |s| >= 2 && s[1] == '"' then Prepend('"', ReadQuoted(s[2..]))
      else Some(("", s[1..]))
    else Prepend(s[0], ReadQuoted(s[1..]))
  }

  /** One quoted field at the front of `s`, and what follows it. */
  function ReadField(s: string): (r: Option<(string, string)>)
    ensures r.Some? ==> |r.value.1| < |s|
  {
    if s != [] && s[0] == '"' then ReadQuoted(s[1..]) else None
  }

  /** The comma-separated fields of one record at the front of `s`, and what follows them. */
  function ReadFields(s: string): (r: Option<(seq<string>, string)>)
    ensures r.Some? ==> |r.value.0| >= 1 && |r.value.1| < |s|
    decreases |s|
  {
    match ReadField(s)
    case None => None
    case Some((f, rest)) =>
      if rest != [] && rest[0] == ',' then
        match ReadFields(rest[1..])
        case None => None
        case Some((fs, after)) => Some(([f] + fs, after))
      else Some(([f], rest))
  }

  /** The "\n"-separated records making up all of `s`. */
  function ReadRecords(s: string): (r: Option<seq<seq<string>>>)
    decreases |s|
  {
    match ReadFields(s)
    case None => None
    case Some((fs, rest)) =>
      if rest == [] then Some([fs])
      else if rest[0] == '\n' then
        match ReadRecords(rest[1..])
        case None => None
        case Some(more) => Some([fs] + more)
      else None
  }

  /** A whole export: the byte-order mark, then the records. */
  function ReadDocument(s: string): Option<seq<seq<string>>> {
    if s != [] && s[0] == ByteOrderMark then ReadRecords(s[1..]) else None
  }

  // ---------------------------------------------------------------- round trips

  /** A doubled quote inside a quoted field reads as one quote. */
  lemma ReadQuotedQuote(s: string, t: string)
    requires s == "\"\"" + t
    ensures ReadQuoted(s) == Prepend('"', ReadQuoted(t))
  {
    assert s[2..] == t;
  }

  /** Any other character inside a quoted field reads as itself. */
  lemma ReadQuotedChar(s: string, c: char, t: string)
    requires c != '"' && s == [c] + t
    ensures ReadQuoted(s) == Prepend(c, ReadQuoted(t))
  {
    assert s[1..] == t;
  }

  /** Reading an escaped cell reads its first character, then the rest of it. */
  lemma ReadQuotedCons(v: string, rest: string)
    requires v != []
    ensures ReadQuoted(DoubleQuotes(v) + "\"" + rest) ==
            Prepend(v[0], ReadQuoted(DoubleQuotes(v[1..]) + "\"" + rest))
  {
    var s := DoubleQuotes(v) + "\"" + rest;
    var t := DoubleQuotes(v[1..]) + "\"" + rest;
    if v[0] == '"' {
      assert s == "\"\"" + t;
      ReadQuotedQuote(s, t);
    } else {
      assert s == [v[0]] + t;
      ReadQuotedChar(s, v[0], t);
    }
  }

  /**
   * Un-doubling the quotes of an escaped cell gives the cell back, and the
   * closing quote is found right after it.
   */
  lemma {:induction false} ReadQuotedDoubled(v: string, rest: string)
    requires rest == [] || rest[0] != '"'
    ensures ReadQuoted(DoubleQuotes(v) + "\"" + rest) == Some((v, rest))
  {
    if v == [] {
      var s := DoubleQuotes(v) + "\"" + rest;
      assert s == "\"" + rest;
      assert s[1..] == rest;
    } else {
      ReadQuotedCons(v, rest);
      ReadQuotedDoubled(v[1..], rest);
      assert [v[0]] + v[1..] == v;
    }
  }

  /**
   * Removing the outer quotes of `esc(v)` and un-doubling the inner ones gives
   * `v` back (section 2, rule 7 of RFC 4180), whatever follows the field
   * unless it is another quote.
   */
  lemma EscRoundTrip(v: string, rest: string)
    requires rest == [] || rest[0] != '"'
    ensures ReadField(Esc(v) + rest) == Some((v, rest))
  {
    ReadQuotedDoubled(v, rest);
    assert (Esc(v) + rest)[1..] == DoubleQuotes(v) + "\"" + rest;
  }

  /** Reading one exported line gives its cells back. */
  lemma {:induction false} ReadLine(row: seq<string>, rest: string)
    requires |row| >= 1
    requires rest == [] || (rest[0] != '"' && rest[0] != ',')
    ensures ReadFields(Line(row) + rest) == Some((row, rest))
    decreases |row|
  {
    var es := EscAll(row);
    if |row| == 1 {
      assert Line(row) == Esc(row[0]);
      EscRoundTrip(row[0], rest);
      Single(row);
    } else {
      var tail := Line(row[1..]) + rest;
      assert es[1..] == EscAll(row[1..]);
      assert Line(row) == Esc(row[0]) + "," + Line(row[1..]);
      assert Line(row) + rest == Esc(row[0]) + ("," + tail);
      EscRoundTrip(row[0], "," + tail);
      assert ("," + tail)[1..] == tail;
      ReadLine(row[1..], rest);
      HeadTail(row);
    }
  }

  /** A record followed by a line break reads as that record, then the records after the break. */
  lemma ReadRecordsCons(s: string, fs: seq<string>, tail: string, more: seq<seq<string>>)
    requires ReadFields(s) == Some((fs, "\n" + tail))
    requires ReadRecords(tail) == Some(more)
    ensures ReadRecords(s) == Some([fs] + more)
  {
    assert ("\n" + tail)[1..] == tail;
  }

  /** The first line, a line break, then the lines of the other rows. */
  lemma LinesFront(rows: seq<seq<string>>)
    requires |rows| >= 2
    ensures Join(Lines(rows), "\n") == Line(rows[0]) + ("\n" + Join(Lines(rows[1..]), "\n"))
  {
    var ls := Lines(rows);
    assert ls == [Line(rows[0])] + Lines(rows[1..]);
    assert ls[0] == Line(rows[0]) && ls[1..] == Lines(rows[1..]);
    JoinFront(ls, "\n");
  }

  /** A single row's line reads back as that row. */
  lemma ReadOneLine(rows: seq<seq<string>>)
    requires |rows| == 1 && |rows[0]| >= 1
    ensures ReadRecords(Join(Lines(rows), "\n")) == Some(rows)
  {
    ReadLine(rows[0], []);
    assert Line(rows[0]) + [] == Line(rows[0]);
    Single(rows);
  }

  /** If the lines of the later rows read back, so do the lines of all the rows. */
  lemma ReadLinesStep(rows: seq<seq<string>>)
    requires |rows| >= 2 && |rows[0]| >= 1
    requires ReadRecords(Join(Lines(rows[1..]), "\n")) == Some(rows[1..])
    ensures ReadRecords(Join(Lines(rows), "\n")) == Some(rows)
  {
    var tail := Join(Lines(rows[1..]), "\n");
    LinesFront(rows);
    ReadLine(rows[0], "\n" + tail);
    ReadRecordsCons(Join(Lines(rows), "\n"), rows[0], tail, rows[1..]);
    HeadTail(rows);
  }

  /** Reading the exported lines gives the rows back, however many there are. */
  lemma {:induction false} ReadLines(rows: seq<seq<string>>)
    requires |rows| >= 1
    requires forall i :: 0 <= i < |rows| ==> |rows[i]| >= 1
    ensures ReadRecords(Join(Lines(rows), "\n")) == Some(rows)
    decreases |rows|
  {
    if |rows| == 1 {
      ReadOneLine(rows);
    } else {
      var rest := rows[1..];
      assert forall i :: 0 <= i < |rest| ==> rest[i] == rows[i + 1];
      ReadLines(rest);
      ReadLinesStep(rows);
    }
  }

  /**
   * Reading an export gives back the header and the rows, even when cells
   * hold quotes, commas or line breaks.
   */
  lemma DocumentRoundTrip(header: seq<string>, rows: seq<seq<string>>)
    requires |header| >= 1
    requires forall i :: 0 <= i < |rows| ==> |rows[i]| >= 1
    ensures ReadDocument(Document(header, rows)) == Some([header] + rows)
  {
    var all := [header] + rows;
    forall i | 0 <= i < |all| ensures |all[i]| >= 1 {
      if i > 0 { assert all[i] == rows[i - 1]; }
    }
    ReadLines(all);
    assert Document(header, rows)[1..] == Join(Lines(all), "\n");
  }

  /** The export is the byte-order mark, the header line, then one line per row. */
  lemma DocumentLayout(header: seq<string>, rows: seq<seq<string>>)
    ensures rows == [] ==> Document(header, rows) == [ByteOrderMark] + Line(header)
    ensures rows != [] ==>
              Document(header, rows) == [ByteOrderMark] + Line(header) + "\n" + Join(Lines(rows), "\n")
  {
    var ls := Lines([header] + rows);
    LinesCons(header, rows);
    if rows == [] {
      assert ls == [Line(header)];
    } else {
      var l, j := Line(header), Join(Lines(rows), "\n");
      JoinFront(ls, "\n");
      assert Join(ls, "\n") == l + ("\n" + j);
      assert [ByteOrderMark] + (l + ("\n" + j)) == [ByteOrderMark] + l + "\n" + j;
    }
  }

  lemma LinesCons(header: seq<string>, rows: seq<seq<string>>)
    ensures Lines([header] + rows) == [Line(header)] + Lines(rows)
  {
    assert ([header] + rows)[1..] == rows;
  }

  /** The first character's share of the doubled text, then the rest. */
  lemma DoubleQuotesFront(v: string, h: string)
    requires v != [] && h == if v[0] == '"' then "\"\"" else [v[0]]
    ensures DoubleQuotes(v) == h + DoubleQuotes(v[1..])
  {
  }

  /** Doubling the quotes of two pieces one after the other is doubling them in their concatenation. */
  lemma {:induction false} DoubleQuotesAppend(a: string, b: string)
    ensures DoubleQuotes(a + b) == DoubleQuotes(a) + DoubleQuotes(b)
  {
    if a != [] {
      var h := if a[0] == '"' then "\"\"" else [a[0]];
      var x, y, z := DoubleQuotes(a[1..]), DoubleQuotes(b), DoubleQuotes(a[1..] + b);
      assert (a + b)[0] == a[0] && (a + b)[1..] == a[1..] + b;
      DoubleQuotesFront(a + b, h);
      DoubleQuotesFront(a, h);
      DoubleQuotesAppend(a[1..], b);
      assert z == x + y;
      assert h + (x + y) == (h + x) + y;
    } else {
      assert a + b == b;
    }
  }

  /** A lone quote is written twice. */
  lemma DoubleQuoteChar(q: string)
    requires q == ['"']
    ensures DoubleQuotes(q) == q + q
  {
    assert q[1..] == [];
  }

  /** A quote inside a cell is written twice; the text around it is kept. */
  lemma QuoteInsideDoubled(a: string, q: string, b: string)
    requires q == ['"']
    requires '"' !in a && '"' !in b
    ensures DoubleQuotes(a + q + b) == a + q + q + b
  {
    assert a + q + b == a + (q + b);
    DoubleQuotesAppend(a, q + b);
    DoubleQuotesAppend(q, b);
    DoubleQuoteChar(q);
  }
}
