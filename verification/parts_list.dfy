/**
 * The Parts List page: the first number in a cost string (`/(\d+(\.\d+)?)/`
 * and `Number`), quantities coerced to numbers, the running total over the
 * bill of materials, and the CSV download. Amounts are exact reals.
 */
module PartsList {
  import opened Wrappers
  import opened Text
  import opened Decimal
  import opened Bom

  // ---------------------------------------------------------------- scanning

  /** Index of the first digit of `s`, or `|s|` when there is none. */
  function FirstDigit(s: string): (r: nat)
    ensures r <= |s|
    ensures r < |s| ==> IsDigit(s[r])
  {
    if s == [] || IsDigit(s[0]) then 0 else 1 + FirstDigit(s[1..])
  }

  /** No digit comes before the first digit. */
  lemma {:induction false} FirstDigitSpec(s: string)
    ensures forall j :: 0 <= j < FirstDigit(s) ==> !IsDigit(s[j])
  {
    if s != [] && !IsDigit(s[0]) {
      FirstDigitSpec(s[1..]);
    }
  }

  /** Length of the run of digits `s` starts with (`\d+` taken greedily). */
  function DigitRun(s: string): (r: nat)
    ensures r <= |s|
    ensures r < |s| ==> !IsDigit(s[r])
  {
    if s == [] || !IsDigit(s[0]) then 0 else 1 + DigitRun(s[1..])
  }

  /** The run is made of digits only. */
  lemma {:induction false} DigitRunSpec(s: string)
    ensures AllDigits(s[..DigitRun(s)])
  {
    if s != [] && IsDigit(s[0]) {
      DigitRunSpec(s[1..]);
      assert s[..DigitRun(s)] == [s[0]] + s[1..][..DigitRun(s[1..])];
    }
  }

  /** `\.\d+` matches at the front of `s`. */
  predicate FractionAhead(s: string) {
    |s| >= 2 && s[0] == '.' && IsDigit(s[1])
  }

  /** `Number` of the match `\d+(\.\d+)?` at the front of `s`, which starts with a digit. */
  function NumberAt(s: string): (r: real)
    requires s != [] && IsDigit(s[0])
    ensures AllDigits(s[..DigitRun(s)])
    ensures Value(s[..DigitRun(s)]) as real <= r < Value(s[..DigitRun(s)]) as real + 1.0
  {
    var n := DigitRun(s);
    DigitRunSpec(s);
    var whole := Value(s[..n]) as real;
    var rest := s[n..];
    if FractionAhead(rest) then
      var m := DigitRun(rest[1..]);
      DigitRunSpec(rest[1..]);
      FractionBounds(rest[1..][..m]);
      whole + Fraction(rest[1..][..m])
    else whole
  }

  /** `parseCostToNumber`: the first number in the text, `None` for `null`. */
  function ParseCost(cost: string): (r: Option<real>)
    ensures r.Some? ==> r.value >= 0.0
  {
    var i := FirstDigit(cost);
    if i == |cost| then None else Some(NumberAt(cost[i..]))
  }

  // ---------------------------------------------------------------- what the regex finds

  /** `null` exactly when the text has no digit. */
  lemma ParseCostNone(cost: string)
    ensures ParseCost(cost) == None <==> forall j :: 0 <= j < |cost| ==> !IsDigit(cost[j])
  {
    FirstDigitSpec(cost);
  }

  /** Text before the first digit is skipped. */
  lemma {:induction false} ParseSkip(a: string, b: string)
    requires forall j :: 0 <= j < |a| ==> !IsDigit(a[j])
    ensures ParseCost(a + b) == ParseCost(b)
  {
    if a != [] {
      assert (a + b)[1..] == a[1..] + b;
      ParseSkip(a[1..], b);
      assert FirstDigit(a + b) == 1 + FirstDigit(a[1..] + b);
      assert (a + b)[FirstDigit(a + b)..] == (a[1..] + b)[FirstDigit(a[1..] + b)..];
    } else {
      assert a + b == b;
    }
  }

  /** The digit run of `w + rest` is `w` when `rest` does not go on with a digit. */
  lemma {:induction false} DigitRunOf(w: string, rest: string)
    requires AllDigits(w)
    requires rest == [] || !IsDigit(rest[0])
    ensures DigitRun(w + rest) == |w|
  {
    if w != [] {
      assert (w + rest)[1..] == w[1..] + rest;
      DigitRunOf(w[1..], rest);
    } else {
      assert w + rest == rest;
    }
  }

  /** Text that starts with a digit is read from its start. */
  lemma ParseFromStart(s: string)
    requires s != [] && IsDigit(s[0])
    ensures ParseCost(s) == Some(NumberAt(s))
  {
    assert s[0..] == s;
  }

  /** A whole number not followed by `.digit` is read as that number. */
  lemma ParseWhole(w: string, rest: string)
    requires w != [] && AllDigits(w)
    requires rest == [] || !IsDigit(rest[0])
    requires !FractionAhead(rest)
    ensures ParseCost(w + rest) == Some(Value(w) as real)
  {
    var s := w + rest;
    ParseFromStart(s);
    DigitRunOf(w, rest);
    assert s[..|w|] == w && s[|w|..] == rest;
  }

  /** The number at `w` followed by `.digits`: the whole part and the fraction after the point. */
  lemma NumberAtFraction(w: string, t: string, f: string)
    requires w != [] && AllDigits(w)
    requires FractionAhead(t)
    requires f == t[1..][..DigitRun(t[1..])] && AllDigits(f)
    ensures NumberAt(w + t) == Value(w) as real + Fraction(f)
  {
    var s := w + t;
    DigitRunOf(w, t);
    assert s[..|w|] == w && s[|w|..] == t;
  }

  /** A run of digits followed by something else is taken whole. */
  lemma DigitPrefix(f: string, rest: string)
    requires AllDigits(f)
    requires rest == [] || !IsDigit(rest[0])
    ensures (f + rest)[..DigitRun(f + rest)] == f
  {
    DigitRunOf(f, rest);
    assert (f + rest)[..|f|] == f;
  }

  /** The number at `w.f` followed by something other than a digit. */
  lemma NumberAtDecimal(s: string, w: string, f: string, rest: string)
    requires w != [] && AllDigits(w)
    requires f != [] && AllDigits(f)
    requires rest == [] || !IsDigit(rest[0])
    requires s == w + ("." + f + rest)
    ensures s != [] && IsDigit(s[0])
    ensures NumberAt(s) == Value(w) as real + Fraction(f)
  {
    var t := "." + f + rest;
    assert t[1..][..DigitRun(t[1..])] == f by {
      assert t[1..] == f + rest;
      DigitPrefix(f, rest);
    }
    assert FractionAhead(t);
    NumberAtFraction(w, t, f);
  }

  /** A number with a fraction is read with the whole fraction. */
  lemma ParseDecimal(s: string, w: string, f: string, rest: string)
    requires w != [] && AllDigits(w)
    requires f != [] && AllDigits(f)
    requires rest == [] || !IsDigit(rest[0])
    requires s == w + "." + f + rest
    ensures ParseCost(s) == Some(NumberAt(s)) && NumberAt(s) == Value(w) as real + Fraction(f)
  {
    assert s == w + ("." + f + rest);
    NumberAtDecimal(s, w, f, rest);
    ParseFromStart(s);
  }

  /** A dollar amount without cents. */
  lemma DollarWhole(s: string, w: string)
    requires w != [] && AllDigits(w) && s == "$" + w
    ensures ParseCost(s) == Some(Value(w) as real)
  {
    assert s == "$" + (w + "");
    ParseSkip("$", w + "");
    ParseWhole(w, "");
  }

  /** A dollar amount with cents. */
  lemma DollarDecimal(s: string, w: string, f: string)
    requires w != [] && AllDigits(w) && f != [] && AllDigits(f)
    requires s == "$" + (w + "." + f)
    ensures ParseCost(s) == Some(Value(w) as real + Fraction(f))
  {
    var t := w + "." + f;
    assert t == w + "." + f + "";
    ParseDecimal(t, w, f, "");
    DollarSkip(t);
  }

  /** A dollar sign in front of the amount is skipped. */
  lemma DollarSkip(t: string)
    ensures ParseCost("$" + t) == ParseCost(t)
  {
    ParseSkip("$", t);
  }

  /**
   * Only the first number counts: after a dollar sign and a whole number,
   * whatever follows that is neither a digit nor a point is ignored, even
   * when it holds further numbers.
   */
  lemma FirstNumberOnly(s: string, w: string, rest: string)
    requires w != [] && AllDigits(w)
    requires rest != [] && !IsDigit(rest[0]) && rest[0] != '.'
    requires s == "$" + (w + rest)
    ensures ParseCost(s) == Some(Value(w) as real)
  {
    ParseSkip("$", w + rest);
    ParseWhole(w, rest);
  }

  /** "$50-$75" costs 50. */
  lemma RangeExample(s: string)
    requires s == "$50-$75"
    ensures ParseCost(s) == Some(50.0)
  {
    var w, rest := "50", "-$75";
    assert s == "$" + (w + rest);
    assert AllDigits(w) && Value(w) == 50;
    assert rest[0] == '-';
    FirstNumberOnly(s, w, rest);
  }

  /** "$2.50" costs 2.5. */
  lemma CentsExample(s: string)
    requires s == "$2.50"
    ensures ParseCost(s) == Some(2.5)
  {
    assert s == "$" + ("2" + "." + "50");
    assert Value("2") == 2;
    assert Fraction("50") == 0.5;
    DollarDecimal(s, "2", "50");
  }

  /** "$15" costs 15. */
  lemma WholeExample(s: string)
    requires s == "$15"
    ensures ParseCost(s) == Some(15.0)
  {
    DollarWhole(s, "15");
  }

  // ---------------------------------------------------------------- quantities and the total

  /** `qtyToNumber`: a number as it is, any text as 1. */
  function QtyToNumber(q: Qty): (r: real)
    ensures q.Label? ==> r == 1.0
    ensures q.Count? ==> r == q.n as real
  {
    match q
    case Count(n) => n as real
    case Label(_) => 1.0
  }

  /** What one row adds to the total: cost times quantity, nothing for an unpriced row. */
  function Contribution(row: BomItem): (r: real)
    ensures ParseCost(row.cost) == None ==> r == 0.0
    ensures r >= 0.0
  {
    match ParseCost(row.cost)
    case None => 0.0
    case Some(c) => c * QtyToNumber(row.qty)
  }

  /** The sum of the contributions of `rows`, first row first. */
  function Total(rows: seq<BomItem>): (r: real)
    ensures r >= 0.0
    ensures (forall k :: 0 <= k < |rows| ==> ParseCost(rows[k].cost) == None) ==> r == 0.0
  {
    if rows == [] then 0.0 else Total(rows[..|rows| - 1]) + Contribution(rows[|rows| - 1])
  }

  /** The total of two lists one after the other is the sum of their totals. */
  lemma {:induction false} TotalAppend(a: seq<BomItem>, b: seq<BomItem>)
    ensures Total(a + b) == Total(a) + Total(b)
    decreases |b|
  {
    if b != [] {
      var b' := b[..|b| - 1];
      assert (a + b)[..|a + b| - 1] == a + b';
      TotalAppend(a, b');
    } else {
      assert a + b == a;
    }
  }

  /** Rows without a parsable cost leave the total unchanged wherever they are. */
  lemma UnpricedRowIgnored(a: seq<BomItem>, row: BomItem, b: seq<BomItem>)
    requires ParseCost(row.cost) == None
    ensures Total(a + [row] + b) == Total(a + b)
  {
    TotalAppend(a + [row], b);
    TotalAppend(a, [row]);
    TotalAppend(a, b);
    assert [row][..0] == [];
  }

  /**
   * The `useMemo` loop: `total += c * q` for every row whose cost parses,
   * and the number of rows.
   */
  method Totals(rows: seq<BomItem>) returns (total: real, count: nat)
    ensures total == Total(rows) && count == |rows|
  {
    total := 0.0;
    for i := 0 to |rows|
      invariant total == Total(rows[..i])
    {
      var c := ParseCost(rows[i].cost);
      var q := QtyToNumber(rows[i].qty);
      if c.Some? {
        total := total + c.value * q;
      }
      TotalStep(rows, i, c, q);
    }
    assert rows[..|rows|] == rows;
    count := |rows|;
  }

  /** One more row adds its contribution to the total of the rows before it. */
  lemma TotalStep(rows: seq<BomItem>, i: nat, c: Option<real>, q: real)
    requires i < |rows|
    requires c == ParseCost(rows[i].cost) && q == QtyToNumber(rows[i].qty)
    ensures Total(rows[..i + 1]) == Total(rows[..i]) + (if c.Some? then c.value * q else 0.0)
  {
    TotalSnoc(rows, i);
    ContributionIs(rows[i], c, q);
  }

  /** The total of the first `i + 1` rows adds row `i` to the total of the first `i`. */
  lemma TotalSnoc(rows: seq<BomItem>, i: nat)
    requires i < |rows|
    ensures Total(rows[..i + 1]) == Total(rows[..i]) + Contribution(rows[i])
  {
    assert rows[..i + 1][..i] == rows[..i];
  }

  /** The contribution of a row is its parsed cost times its quantity. */
  lemma ContributionIs(row: BomItem, c: Option<real>, q: real)
    requires c == ParseCost(row.cost) && q == QtyToNumber(row.qty)
    ensures Contribution(row) == if c.Some? then c.value * q else 0.0
  {
  }
}

/** The bill of materials the Parts List page shows, and what the page derives from it. */
module PartsListSite {
  import opened Wrappers
  import opened Decimal
  import opened Bom
  import opened PartsList


  /** `bomItems` on the Parts List page. */
  const Items: seq<BomItem> := [
    BomItem("FireBeetle ESP32-E IoT Microcontroller", Count(1), "$15", "https://www.dfrobot.com/product-2195.html"),
    BomItem("LIS2DW12 Accelerometer Module", Count(1), "$3.90", "https://www.dfrobot.com/product-2348.html"),
    BomItem("3.7V 4400mAh Li-Po Battery", Count(1), "$6", "https://www.amazon.com/dp/B0BJKFJ227"),
    BomItem("Velcro Strap (1.5\" width)", Count(1), "$3", "https://www.walmart.com/ip/19311524"),
    BomItem("3D Printing Filament (PLA)", Label("50g"), "$2.00", "https://atomicfilament.com/products/black-pla-filament"),
    BomItem("Jumper Wires x10 (Male-Male)", Count(1), "$2", "https://www.adafruit.com/product/1957"),
    BomItem("USB-C Cable (charging)", Count(1), "$6", "https://www.amazon.com/dp/B01GGKYN0A"),
    BomItem("Heat Shrink Tubing", Label("1ft"), "$1.00", "https://www.amazon.com/dp/B07WWWPR2X"),
    BomItem("FPG5 Fuse Holder", Label("1"), "$5.50", "https://www.digikey.com/en/products/detail/schurter-inc/3101.0055/2645423")
  ]

  /** The cost column as the parser reads it, one amount at a time. */
  lemma Cost15(s: string)
    requires s == "$15"
    ensures ParseCost(s) == Some(15.0)
  {
    assert s == "$" + "15";
    assert Value("15") == 15;
    DollarWhole(s, "15");
  }

  lemma Cost6(s: string)
    requires s == "$6"
    ensures ParseCost(s) == Some(6.0)
  {
    assert s == "$" + "6";
    assert Value("6") == 6;
    DollarWhole(s, "6");
  }

  lemma Cost3(s: string)
    requires s == "$3"
    ensures ParseCost(s) == Some(3.0)
  {
    assert s == "$" + "3";
    assert Value("3") == 3;
    DollarWhole(s, "3");
  }

  lemma Cost2(s: string)
    requires s == "$2"
    ensures ParseCost(s) == Some(2.0)
  {
    assert s == "$" + "2";
    assert Value("2") == 2;
    DollarWhole(s, "2");
  }

  lemma Cost390(s: string)
    requires s == "$3.90"
    ensures ParseCost(s) == Some(3.9)
  {
    assert s == "$" + ("3" + "." + "90");
    assert Value("3") == 3;
    assert Fraction("90") == 0.9;
    DollarDecimal(s, "3", "90");
  }

  lemma Cost200(s: string)
    requires s == "$2.00"
    ensures ParseCost(s) == Some(2.0)
  {
    assert s == "$" + ("2" + "." + "00");
    assert Value("2") == 2;
    assert Fraction("00") == 0.0;
    DollarDecimal(s, "2", "00");
  }

  lemma Cost100(s: string)
    requires s == "$1.00"
    ensures ParseCost(s) == Some(1.0)
  {
    assert s == "$" + ("1" + "." + "00");
    assert Value("1") == 1;
    assert Fraction("00") == 0.0;
    DollarDecimal(s, "1", "00");
  }

  lemma Cost550(s: string)
    requires s == "$5.50"
    ensures ParseCost(s) == Some(5.5)
  {
    assert s == "$" + ("5" + "." + "50");
    assert Value("5") == 5;
    assert Fraction("50") == 0.5;
    DollarDecimal(s, "5", "50");
  }

  /** What each row of the site's list adds to the total. */
  const RowAmounts: seq<real> := [15.0, 3.9, 6.0, 3.0, 2.0, 2.0, 6.0, 1.0, 5.5]

  lemma RowContribution(k: nat)
    requires k < 9
    ensures Contribution(Items[k]) == RowAmounts[k]
  {
    var row := Items[k];
    if k == 0 { Cost15(row.cost); }
    else if k == 1 { Cost390(row.cost); }
    else if k == 2 || k == 6 { Cost6(row.cost); }
    else if k == 3 { Cost3(row.cost); }
    else if k == 4 { Cost200(row.cost); }
    else if k == 5 { Cost2(row.cost); }
    else if k == 7 { Cost100(row.cost); }
    else { Cost550(row.cost); }
    ContributionIs(row, ParseCost(row.cost), QtyToNumber(row.qty));
  }

  /** The page shows 9 components and a total of exactly $44.40. */
  lemma SiteTotal()
    ensures |Items| == 9
    ensures Total(Items) == 44.4
  {
    AllRowContributions();
    TotalPrefix(9);
    SumOfRows();
    assert Items[..|Items|] == Items;
  }

  lemma AllRowContributions()
    ensures forall j :: 0 <= j < 9 ==> Contribution(Items[j]) == RowAmounts[j]
  {
    forall k | 0 <= k < 9 ensures Contribution(Items[k]) == RowAmounts[k] {
      RowContribution(k);
    }
  }

  /** The row amounts add up to 44.40. */
  lemma SumOfRows()
    ensures SumFirst(9) == 44.4
  {
    assert SumFirst(1) == 15.0;
    assert SumFirst(2) == 18.9;
    assert SumFirst(3) == 24.9;
    assert SumFirst(4) == 27.9;
    assert SumFirst(5) == 29.9;
    assert SumFirst(6) == 31.9;
    assert SumFirst(7) == 37.9;
    assert SumFirst(8) == 38.9;
  }

  /** The sum of the first `k` row amounts. */
  function SumFirst(k: nat): real
    requires k <= 9
  {
    if k == 0 then 0.0 else SumFirst(k - 1) + RowAmounts[k - 1]
  }

  lemma {:induction false} TotalPrefix(k: nat)
    requires k <= 9
    requires forall j :: 0 <= j < 9 ==> Contribution(Items[j]) == RowAmounts[j]
    ensures Total(Items[..k]) == SumFirst(k)
  {
    if k > 0 {
      TotalPrefix(k - 1);
      TotalSnoc(Items, k - 1);
    }
  }

  /**
   * The Quantity column of the download (`String(b.qty)`): the counts are
   * written "1", the labels as they are.
   */
  lemma CsvQuantities(k: nat)
    requires k < |Items|
    ensures QtyText(Items[k].qty) == if k == 4 then "50g" else if k == 7 then "1ft" else "1"
  {
    assert Decimal.NatText(1) == "1";
  }
}
