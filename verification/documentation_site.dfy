/**
 * The documents and the bill of materials listed on the Documentation page,
 * and what the page offers for some of them.
 */
module DocumentationSite {
  import opened Wrappers
  import Bom
  import Csv
  import opened Documentation

  const EthicsReportHref: string :=
    "https://drive.google.com/uc?export=download&id=1hRQk2NyQBqJ2KpFXw_7XO0QPRm0Lf_Gz"

  function Drive(title: string, id: string, kind: string, fmt: Option<string>): DocItem {
    DocItem(title, Some(id), Some(kind), None, None, fmt)
  }

  /** The page's documents, in display order. */
  const Documents: seq<DocItem> := [
    Drive("Formal Project Proposal", "15_Tfl6mgKyUBHBJX7zCnFbB299febH6H", "doc", Some("pdf")),
    Drive("Ethics Presentation", "1S1Z4VowbqSkpc1xgpE9Srcek8GLnmUqa", "slides", Some("pdf")),
    DocItem("Ethics Report", None, None, Some(EthicsReportHref), None, Some("DOCX")),
    Drive("Midterm Presentation", "1JfePofnCtRxtr0oK3yDUDOosV-BL_JAR", "slides", Some("pdf")),
    Drive("Sustainability Presentation", "1ygLV5DHc4G7iC-gxCRub8RvQ0-aT197z", "slides", Some("pdf")),
    DocItem("Sustainability Report", None, None, Some(EthicsReportHref), None, None),
    Drive("Final Project Report", "REPLACE_WITH_FINAL_REPORT_DOC_ID", "doc", Some("pdf")),
    Drive("Project Poster", "REPLACE_WITH_POSTER_FILE_ID", "file", None),
    Drive("Presentation Slides", "REPLACE_WITH_FINAL_SLIDES_ID", "slides", Some("pptx")),
    DocItem("Bill of Materials (BOM)", None, None, None, None, None),
    Drive("User Manual", "REPLACE_WITH_USER_MANUAL_DOC_ID", "doc", Some("pdf")),
    Drive("Technical Specification", "REPLACE_WITH_TECH_SPEC_DOC_ID", "doc", Some("pdf"))
  ]

  /** The page's own bill of materials (links shortened to their sites). */
  const BomItems: seq<Bom.BomItem> := [
    Bom.BomItem("FireBeetle ESP32-E IoT Microcontroller", Bom.Count(1), "$15", "https://www.dfrobot.com/product-2195.html"),
    Bom.BomItem("ADXL335 Accelerometer Module", Bom.Count(1), "$2.50", "https://www.amazon.com/gp/product/B094NHTPKR"),
    Bom.BomItem("3.7V 4400mAh Li-Po Battery", Bom.Count(1), "$6", "https://www.amazon.com/dp/B0BJKFJ227"),
    Bom.BomItem("Velcro Strap (1.5\" width)", Bom.Count(1), "$3", "https://www.walmart.com/ip/19311524"),
    Bom.BomItem("3D Printing Filament (PLA)", Bom.Label("50g"), "$2.00", "https://atomicfilament.com/products/black-pla-filament"),
    Bom.BomItem("Brass Screws M3 (6 pack)", Bom.Count(1), "$1.50", "https://www.lowes.com/pd/3035901"),
    Bom.BomItem("Resistors (2x 10kΩ)", Bom.Count(1), "$0.20", "https://www.digikey.com/en/products/detail/1830366"),
    Bom.BomItem("Jumper Wires x10 (Male-Male)", Bom.Count(1), "$2", "https://www.adafruit.com/product/1957"),
    Bom.BomItem("USB-C Cable (charging)", Bom.Count(1), "$6", "https://www.amazon.com/dp/B01GGKYN0A"),
    Bom.BomItem("Heat Shrink Tubing", Bom.Label("1ft"), "$1.00", "https://www.amazon.com/dp/B07WWWPR2X")
  ]

  /** Only the bill of materials gets the CSV button. */
  lemma OnlyBomCard(k: nat)
    requires k < |Documents|
    ensures CardActions(Documents[k]).BomDownload? <==> k == 9
  {
  }

  /** The Ethics Report offers its download link and no "Open in Drive" button. */
  lemma EthicsReportCard(d: DocItem)
    requires d == Documents[2]
    ensures CardActions(d) == Links(None, Some(EthicsReportHref))
  {
  }

  /** The Sustainability Report downloads the same file as the Ethics Report. */
  lemma SustainabilityReportCard(d: DocItem)
    requires d == Documents[5]
    ensures CardActions(d) == Links(None, Some(EthicsReportHref))
  {
  }

  /** The final slides download as PowerPoint and open in the slide previewer. */
  lemma SlidesCard(d: DocItem)
    requires d == Documents[8]
    ensures var a := CardActions(d);
            a.Links? && a.view.Some? && a.download.Some? &&
            ParseViewUrl(a.view.value) == Some((Presentation, "REPLACE_WITH_FINAL_SLIDES_ID")) &&
            ParseExportUrl(a.download.value) == Some((Presentation, "REPLACE_WITH_FINAL_SLIDES_ID", Some("pptx")))
  {
    LinkPrecedence(d);
  }

  /** The poster is a plain Drive file: viewed in Drive, downloaded as it is. */
  lemma PosterCard(d: DocItem)
    requires d == Documents[7]
    ensures var a := CardActions(d);
            a.Links? && a.view.Some? && a.download.Some? &&
            ParseViewUrl(a.view.value) == Some((DriveFile, "REPLACE_WITH_POSTER_FILE_ID")) &&
            ParseExportUrl(a.download.value) == Some((DriveFile, "REPLACE_WITH_POSTER_FILE_ID", None))
  {
    LinkPrecedence(d);
  }

  /**
   * An export of as many rows as the page lists reads back as the header and
   * ten four-column records.
   */
  lemma BomCsv(items: seq<Bom.BomItem>)
    requires |items| == |BomItems|
    ensures var recs := Csv.ReadDocument(Bom.CsvText(items));
            recs.Some? && |recs.value| == 11 && recs.value[0] == Bom.Header &&
            forall k :: 0 <= k < 11 ==> |recs.value[k]| == 4
  {
    Bom.CsvColumns(items);
    Bom.CsvRoundTrip(items);
  }
}
