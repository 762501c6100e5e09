/**
 * The Documentation page: Google Drive view and export links built from a
 * file id, the choice between an explicit link and a Drive-derived one,
 * and the bill of materials offered as CSV.
 *
 * An argument the caller leaves out is `None`; JavaScript then uses the
 * parameter's default ("doc" for the kind, "pdf" for the format).
 */
module Documentation {
  import opened Wrappers

  // ---------------------------------------------------------------- URL shapes

  const DocumentPrefix: string := "https://docs.google.com/document/d/"
  const PresentationPrefix: string := "https://docs.google.com/presentation/d/"
  const SpreadsheetPrefix: string := "https://docs.google.com/spreadsheets/d/"
  const FilePrefix: string := "https://drive.google.com/file/d/"
  const DownloadPrefix: string := "https://drive.google.com/uc?export=download&id="

  /** The Google service a Drive link points into. */
  datatype Service = Document | Presentation | Spreadsheet | DriveFile

  /** Which service a `driveKind` selects; anything but the three editors is a plain file. */
  function ServiceOf(kind: Option<string>): (r: Service)
    ensures kind == None ==> r == Document
  {
    var k := kind.GetOr("doc");
    if k == "doc" then Document
    else if k == "slides" then Presentation
    else if k == "sheets" then Spreadsheet
    else DriveFile
  }

  /** The address a service's view links start with. */
  function ViewPrefix(s: Service): string {
    match s
    case Document => DocumentPrefix
    case Presentation => PresentationPrefix
    case Spreadsheet => SpreadsheetPrefix
    case DriveFile => FilePrefix
  }

  /** The address a service's export links start with: a plain file goes through the download endpoint. */
  function ExportPrefix(s: Service): string {
    if s == DriveFile then DownloadPrefix else ViewPrefix(s)
  }

  /** `url` starts with `p`, and `id` follows right after it. */
  predicate StartsWithId(url: string, p: string, id: string) {
    |url| >= |p| + |id| && url[..|p|] == p && url[|p|..|p| + |id|] == id
  }

  lemma IdAfter(p: string, id: string, s: string)
    ensures StartsWithId(p + id + s, p, id)
  {
    var url := p + id + s;
    assert url[..|p|] == p;
    assert url[|p|..|p| + |id|] == id;
  }

  // ---------------------------------------------------------------- the two builders

  /**
   * `driveViewUrl(id, kind = "doc")`: the address of the selected service,
   * then the id unchanged.
   */
  function DriveViewUrl(id: string, kind: Option<string>): (r: string)
    ensures StartsWithId(r, ViewPrefix(ServiceOf(kind)), id)
  {
    var k := kind.GetOr("doc");
    if k == "doc" then IdAfter(DocumentPrefix, id, "/view"); DocumentPrefix + id + "/view"
    else if k == "slides" then IdAfter(PresentationPrefix, id, "/preview"); PresentationPrefix + id + "/preview"
    else if k == "sheets" then IdAfter(SpreadsheetPrefix, id, "/view"); SpreadsheetPrefix + id + "/view"
    else IdAfter(FilePrefix, id, "/view"); FilePrefix + id + "/view"
  }

  /**
   * `driveExportUrl(id, kind = "doc", fmt = "pdf")`. The source's fallback
   * `fmt ?? …` never applies, as the default has already replaced a missing
   * format, and every branch of it is "pdf" anyway.
   */
  function DriveExportUrl(id: string, kind: Option<string>, fmt: Option<string>): (r: string)
    ensures StartsWithId(r, ExportPrefix(ServiceOf(kind)), id)
    ensures ServiceOf(kind) == DriveFile ==> r == DownloadPrefix + id
  {
    var k := kind.GetOr("doc");
    var f := fmt.GetOr("pdf");
    if k == "doc" then
      if f == "docx" then IdAfter(DocumentPrefix, id, "/export?format=docx"); DocumentPrefix + id + "/export?format=docx"
      else IdAfter(DocumentPrefix, id, "/export?format=pdf"); DocumentPrefix + id + "/export?format=pdf"
    else if k == "slides" then
      if f == "pptx" then IdAfter(PresentationPrefix, id, "/export/pptx"); PresentationPrefix + id + "/export/pptx"
      else IdAfter(PresentationPrefix, id, "/export/pdf"); PresentationPrefix + id + "/export/pdf"
    else if k == "sheets" then
      var x := if f == "xlsx" then "xlsx" else "pdf";
      IdAfter(SpreadsheetPrefix, id, "/export?format=" + x);
      SpreadsheetPrefix + id + "/export?format=" + x
    else IdAfter(DownloadPrefix, id, ""); DownloadPrefix + id
  }

  /**
   * The file format an export link delivers: the editor's own office format
   * when that is what was asked for, PDF otherwise; a plain Drive file is
   * downloaded as it is (`None`).
   */
  function ExportedFormat(kind: Option<string>, fmt: Option<string>): (r: Option<string>)
    ensures r == None <==> ServiceOf(kind) == DriveFile
  {
    var f := fmt.GetOr("pdf");
    match ServiceOf(kind)
    case Document => Some(if f == "docx" then "docx" else "pdf")
    case Presentation => Some(if f == "pptx" then "pptx" else "pdf")
    case Spreadsheet => Some(if f == "xlsx" then "xlsx" else "pdf")
    case DriveFile => None
  }

  // ---------------------------------------------------------------- reading a link back

  /** `url` is `p`, then something, then `s`. */
  predicate HasFrame(url: string, p: string, s: string) {
    |url| >= |p| + |s| && url[..|p|] == p && url[|url| - |s|..] == s
  }

  /** What lies between `p` and `s`. */
  function Inner(url: string, p: string, s: string): string
    requires HasFrame(url, p, s)
  {
    url[|p|..|url| - |s|]
  }

  lemma FrameOf(p: string, id: string, s: string)
    ensures HasFrame(p + id + s, p, s) && Inner(p + id + s, p, s) == id
  {
    var url := p + id + s;
    assert url[..|p|] == p;
    assert url[|url| - |s|..] == s;
    assert url[|p|..|url| - |s|] == id;
  }

  /** A link that differs from `p` at a position inside `p` does not start with `p`. */
  lemma PrefixMismatch(url: string, p: string, s: string, i: nat)
    requires i < |p| && i < |url| && url[i] != p[i]
    ensures !HasFrame(url, p, s)
  {
  }

  /** A link whose last character differs from the last character of `s` does not end with `s`. */
  lemma SuffixMismatch(url: string, p: string, s: string)
    requires s != [] && url != [] && url[|url| - 1] != s[|s| - 1]
    ensures !HasFrame(url, p, s)
  {
  }

  /** The service and the file id a view link names. */
  function ParseViewUrl(url: string): Option<(Service, string)> {
    if HasFrame(url, DocumentPrefix, "/view") then Some((Document, Inner(url, DocumentPrefix, "/view")))
    else if HasFrame(url, PresentationPrefix, "/preview") then
      Some((Presentation, Inner(url, PresentationPrefix, "/preview")))
    else if HasFrame(url, SpreadsheetPrefix, "/view") then
      Some((Spreadsheet, Inner(url, SpreadsheetPrefix, "/view")))
    else if HasFrame(url, FilePrefix, "/view") then Some((DriveFile, Inner(url, FilePrefix, "/view")))
    else None
  }

  /**
   * A view link names exactly the service the kind selects and the id it was
   * built from, whatever characters the id holds.
   */
  lemma ViewUrlRoundTrip(id: string, kind: Option<string>)
    ensures ParseViewUrl(DriveViewUrl(id, kind)) == Some((ServiceOf(kind), id))
  {
    var url := DriveViewUrl(id, kind);
    match ServiceOf(kind)
    case Document =>
      FrameOf(DocumentPrefix, id, "/view");
    case Presentation =>
      PrefixMismatch(url, DocumentPrefix, "/view", 24);
      FrameOf(PresentationPrefix, id, "/preview");
    case Spreadsheet =>
      PrefixMismatch(url, DocumentPrefix, "/view", 24);
      PrefixMismatch(url, PresentationPrefix, "/preview", 24);
      FrameOf(SpreadsheetPrefix, id, "/view");
    case DriveFile =>
      PrefixMismatch(url, DocumentPrefix, "/view", 9);
      PrefixMismatch(url, PresentationPrefix, "/preview", 9);
      PrefixMismatch(url, SpreadsheetPrefix, "/view", 9);
      FrameOf(FilePrefix, id, "/view");
  }

  /** Different files, or different services, never share a view link. */
  lemma ViewUrlInjective(id1: string, kind1: Option<string>, id2: string, kind2: Option<string>)
    requires DriveViewUrl(id1, kind1) == DriveViewUrl(id2, kind2)
    ensures id1 == id2 && ServiceOf(kind1) == ServiceOf(kind2)
  {
    ViewUrlRoundTrip(id1, kind1);
    ViewUrlRoundTrip(id2, kind2);
  }

  /** The service, file id and delivered format an export link names. */
  function ParseExportUrl(url: string): Option<(Service, string, Option<string>)> {
    if HasFrame(url, DocumentPrefix, "/export?format=docx") then
      Some((Document, Inner(url, DocumentPrefix, "/export?format=docx"), Some("docx")))
    else if HasFrame(url, DocumentPrefix, "/export?format=pdf") then
      Some((Document, Inner(url, DocumentPrefix, "/export?format=pdf"), Some("pdf")))
    else if HasFrame(url, PresentationPrefix, "/export/pptx") then
      Some((Presentation, Inner(url, PresentationPrefix, "/export/pptx"), Some("pptx")))
    else if HasFrame(url, PresentationPrefix, "/export/pdf") then
      Some((Presentation, Inner(url, PresentationPrefix, "/export/pdf"), Some("pdf")))
    else if HasFrame(url, SpreadsheetPrefix, "/export?format=xlsx") then
      Some((Spreadsheet, Inner(url, SpreadsheetPrefix, "/export?format=xlsx"), Some("xlsx")))
    else if HasFrame(url, SpreadsheetPrefix, "/export?format=pdf") then
      Some((Spreadsheet, Inner(url, SpreadsheetPrefix, "/export?format=pdf"), Some("pdf")))
    else if HasFrame(url, DownloadPrefix, "") then
      Some((DriveFile, Inner(url, DownloadPrefix, ""), None))
    else None
  }

  /** The export links of a document: the PDF one and the Word one. */
  lemma DocumentExports(id: string, kind: Option<string>, fmt: Option<string>)
    requires ServiceOf(kind) == Document
    ensures ParseExportUrl(DriveExportUrl(id, kind, fmt)) == Some((Document, id, ExportedFormat(kind, fmt)))
  {
    var url := DriveExportUrl(id, kind, fmt);
    if fmt.GetOr("pdf") == "docx" {
      FrameOf(DocumentPrefix, id, "/export?format=docx");
    } else {
      SuffixMismatch(url, DocumentPrefix, "/export?format=docx");
      FrameOf(DocumentPrefix, id, "/export?format=pdf");
    }
  }

  /** The export links of a slide deck: the PDF one and the PowerPoint one. */
  lemma PresentationExports(id: string, kind: Option<string>, fmt: Option<string>)
    requires ServiceOf(kind) == Presentation
    ensures ParseExportUrl(DriveExportUrl(id, kind, fmt)) == Some((Presentation, id, ExportedFormat(kind, fmt)))
  {
    var url := DriveExportUrl(id, kind, fmt);
    PrefixMismatch(url, DocumentPrefix, "/export?format=docx", 24);
    PrefixMismatch(url, DocumentPrefix, "/export?format=pdf", 24);
    if fmt.GetOr("pdf") == "pptx" {
      FrameOf(PresentationPrefix, id, "/export/pptx");
    } else {
      SuffixMismatch(url, PresentationPrefix, "/export/pptx");
      FrameOf(PresentationPrefix, id, "/export/pdf");
    }
  }

  /** The export links of a spreadsheet: the PDF one and the Excel one. */
  lemma SpreadsheetExports(id: string, kind: Option<string>, fmt: Option<string>)
    requires ServiceOf(kind) == Spreadsheet
    ensures ParseExportUrl(DriveExportUrl(id, kind, fmt)) == Some((Spreadsheet, id, ExportedFormat(kind, fmt)))
  {
    var url := DriveExportUrl(id, kind, fmt);
    PrefixMismatch(url, DocumentPrefix, "/export?format=docx", 24);
    PrefixMismatch(url, DocumentPrefix, "/export?format=pdf", 24);
    PrefixMismatch(url, PresentationPrefix, "/export/pptx", 24);
    PrefixMismatch(url, PresentationPrefix, "/export/pdf", 24);
    if fmt.GetOr("pdf") == "xlsx" {
      assert url == SpreadsheetPrefix + id + "/export?format=xlsx";
      FrameOf(SpreadsheetPrefix, id, "/export?format=xlsx");
    } else {
      assert url == SpreadsheetPrefix + id + "/export?format=pdf";
      SuffixMismatch(url, SpreadsheetPrefix, "/export?format=xlsx");
      FrameOf(SpreadsheetPrefix, id, "/export?format=pdf");
    }
  }

  /** The download link of a plain Drive file ignores the requested format. */
  lemma FileExports(id: string, kind: Option<string>, fmt: Option<string>)
    requires ServiceOf(kind) == DriveFile
    ensures ParseExportUrl(DriveExportUrl(id, kind, fmt)) == Some((DriveFile, id, None))
    ensures DriveExportUrl(id, kind, fmt) == DriveExportUrl(id, kind, None)
  {
    var url := DriveExportUrl(id, kind, fmt);
    PrefixMismatch(url, DocumentPrefix, "/export?format=docx", 9);
    PrefixMismatch(url, DocumentPrefix, "/export?format=pdf", 9);
    PrefixMismatch(url, PresentationPrefix, "/export/pptx", 9);
    PrefixMismatch(url, PresentationPrefix, "/export/pdf", 9);
    PrefixMismatch(url, SpreadsheetPrefix, "/export?format=xlsx", 9);
    PrefixMismatch(url, SpreadsheetPrefix, "/export?format=pdf", 9);
    assert url == DownloadPrefix + id + "";
    FrameOf(DownloadPrefix, id, "");
  }

  /**
   * Every export link names the service the kind selects, the id it was
   * built from, and the format it delivers.
   */
  lemma ExportUrlRoundTrip(id: string, kind: Option<string>, fmt: Option<string>)
    ensures ParseExportUrl(DriveExportUrl(id, kind, fmt)) == Some((ServiceOf(kind), id, ExportedFormat(kind, fmt)))
  {
    match ServiceOf(kind)
    case Document => DocumentExports(id, kind, fmt);
    case Presentation => PresentationExports(id, kind, fmt);
    case Spreadsheet => SpreadsheetExports(id, kind, fmt);
    case DriveFile => FileExports(id, kind, fmt);
  }

  /**
   * An editor's export is in its office format exactly when that format was
   * asked for (with the default kind and format giving a PDF of a document).
   */
  lemma ExportFormatChoice(kind: Option<string>, fmt: Option<string>)
    ensures ExportedFormat(kind, fmt) == Some("docx") <==> ServiceOf(kind) == Document && fmt == Some("docx")
    ensures ExportedFormat(kind, fmt) == Some("pptx") <==> ServiceOf(kind) == Presentation && fmt == Some("pptx")
    ensures ExportedFormat(kind, fmt) == Some("xlsx") <==> ServiceOf(kind) == Spreadsheet && fmt == Some("xlsx")
    ensures ExportedFormat(None, None) == Some("pdf")
  {
  }

  // ---------------------------------------------------------------- a document's links

  /** The link-related fields of a `DocItem`; an absent optional field is `None`. */
  datatype DocItem = DocItem(
    title: string,
    driveId: Option<string>,
    driveKind: Option<string>,
    downloadHref: Option<string>,
    viewHref: Option<string>,
    exportFormat: Option<string>)

  /** A non-empty Drive id (`doc.driveId ?` tests truthiness). */
  predicate HasDriveId(d: DocItem) {
    d.driveId.Some? && d.driveId.value != ""
  }

  /** `doc.viewHref ?? (doc.driveId ? driveViewUrl(…) : undefined)`. */
  function ViewLink(d: DocItem): (r: Option<string>)
    ensures r == None <==> d.viewHref == None && !HasDriveId(d)
    ensures d.viewHref.Some? ==> r == d.viewHref
    ensures d.viewHref == None && HasDriveId(d) ==>
              StartsWithId(r.value, ViewPrefix(ServiceOf(d.driveKind)), d.driveId.value)
  {
    if d.viewHref.Some? then d.viewHref
    else if HasDriveId(d) then Some(DriveViewUrl(d.driveId.value, d.driveKind))
    else None
  }

  /** `doc.downloadHref ?? (doc.driveId ? driveExportUrl(…) : undefined)`. */
  function DownloadLink(d: DocItem): (r: Option<string>)
    ensures r == None <==> d.downloadHref == None && !HasDriveId(d)
    ensures d.downloadHref.Some? ==> r == d.downloadHref
    ensures d.downloadHref == None && HasDriveId(d) ==>
              StartsWithId(r.value, ExportPrefix(ServiceOf(d.driveKind)), d.driveId.value)
  {
    if d.downloadHref.Some? then d.downloadHref
    else if HasDriveId(d) then Some(DriveExportUrl(d.driveId.value, d.driveKind, d.exportFormat))
    else None
  }

  /**
   * Which link a card offers: an explicit link always wins, even an empty one
   * (`??` only skips a missing value); without one, a Drive id gives the
   * Drive link for that id; with neither there is none.
   */
  lemma LinkPrecedence(d: DocItem)
    ensures d.viewHref.Some? ==> ViewLink(d) == d.viewHref
    ensures d.downloadHref.Some? ==> DownloadLink(d) == d.downloadHref
    ensures d.viewHref == None && HasDriveId(d) ==>
              ViewLink(d).Some? &&
              ParseViewUrl(ViewLink(d).value) == Some((ServiceOf(d.driveKind), d.driveId.value))
    ensures d.downloadHref == None && HasDriveId(d) ==>
              DownloadLink(d).Some? &&
              ParseExportUrl(DownloadLink(d).value) ==
                Some((ServiceOf(d.driveKind), d.driveId.value, ExportedFormat(d.driveKind, d.exportFormat)))
  {
    if HasDriveId(d) {
      ViewUrlRoundTrip(d.driveId.value, d.driveKind);
      ExportUrlRoundTrip(d.driveId.value, d.driveKind, d.exportFormat);
    }
  }

  /** What a card's button row holds. */
  datatype Actions =
    | BomDownload
    | Links(view: Option<string>, download: Option<string>)

  const BomTitle: string := "Bill of Materials (BOM)"

  /** A link is rendered only when it is truthy (`{viewUrl && …}`). */
  function Rendered(link: Option<string>): (r: Option<string>)
    ensures r.Some? <==> link.Some? && link.value != ""
    ensures r.Some? ==> r == link
  {
    if link.Some? && link.value != "" then link else None
  }

  /**
   * The bill of materials gets the CSV button and no other card does. Any
   * other card shows an "Open in Drive" button exactly when it has a
   * non-empty explicit view link, or no explicit view link and a Drive id;
   * the same holds for its download button and download link.
   */
  function CardActions(d: DocItem): (r: Actions)
    ensures r.BomDownload? <==> d.title == BomTitle
    ensures r.Links? ==>
              (r.view.Some? <==>
                 (d.viewHref.Some? && d.viewHref.value != "") || (d.viewHref == None && HasDriveId(d)))
    ensures r.Links? ==>
              (r.download.Some? <==>
                 (d.downloadHref.Some? && d.downloadHref.value != "") || (d.downloadHref == None && HasDriveId(d)))
    ensures r.Links? && r.view.Some? ==> r.view == ViewLink(d)
    ensures r.Links? && r.download.Some? ==> r.download == DownloadLink(d)
  {
    if d.title == BomTitle then BomDownload
    else Links(Rendered(ViewLink(d)), Rendered(DownloadLink(d)))
  }
}
