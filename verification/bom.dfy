/**
 * A bill-of-materials row, as both the Documentation and the Parts List
 * pages declare it, and the CSV text both pages export for a list of rows.
 */
module Bom {
  import opened Wrappers
  import opened Text
  import Decimal
  import Csv

  /** `qty: number | string`. The numbers on the site are whole counts. */
  datatype Qty = Count(n: nat) | Label(s: string)

  datatype BomItem = BomItem(item: string, qty: Qty, cost: string, link: string)

  const Header: seq<string> := ["Item", "Quantity", "Est. Cost", "Link"]

  /** `String(b.qty)`: a count in decimal, a label as it is. */
  function QtyText(q: Qty): (r: string)
    ensures q.Label? ==> r == q.s
  {
    match q
    case Count(n) => Decimal.NatText(n)
    case Label(s) => s
  }

  /** A count is written as the digits whose value is the count. */
  lemma CountText(n: nat)
    ensures Decimal.AllDigits(QtyText(Count(n))) && Decimal.Value(QtyText(Count(n))) == n
  {
    Decimal.NatTextValue(n);
  }

  /** `[b.item, String(b.qty), b.cost, b.link]`. */
  function Row(b: BomItem): (r: seq<string>)
    ensures |r| == |Header|
  {
    [b.item, QtyText(b.qty), b.cost, b.link]
  }

  function Rows(items: seq<BomItem>): (r: seq<seq<string>>)
    ensures |r| == |items|
    ensures forall i :: 0 <= i < |items| ==> r[i] == Row(items[i])
  {
    if items == [] then [] else [Row(items[0])] + Rows(items[1..])
  }

  /** The downloaded `bom.csv` text. */
  function CsvText(items: seq<BomItem>): (r: string)
    ensures r != [] && r[0] == Csv.ByteOrderMark
  {
    Csv.Document(Header, Rows(items))
  }

  /**
   * The export reads back as the header followed by one four-cell record
   * per row, in order, whatever the cells contain.
   */
  lemma CsvRoundTrip(items: seq<BomItem>)
    ensures Csv.ReadDocument(CsvText(items)) == Some([Header] + Rows(items))
  {
    Csv.DocumentRoundTrip(Header, Rows(items));
  }

  /** Every record of the export has the four columns of the header. */
  lemma CsvColumns(items: seq<BomItem>)
    ensures var recs := Csv.ReadDocument(CsvText(items));
            recs.Some? && |recs.value| == |items| + 1 &&
            forall k :: 0 <= k < |recs.value| ==> |recs.value[k]| == 4
  {
    CsvRoundTrip(items);
    var all := [Header] + Rows(items);
    forall k | 0 <= k < |all| ensures |all[k]| == 4 {
      if k > 0 { assert all[k] == Row(items[k - 1]); }
    }
  }
}
