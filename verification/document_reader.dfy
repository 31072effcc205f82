/**
 * The document reader: the zoom control, the load check, the MIME type
 * `getContentType` gives a type label, and which view the reader renders for
 * a document's type label.
 */
module DocumentReader {
  import opened Wrappers
  import opened Text
  import opened Records
  import opened DocumentManager

  const DEFAULT_ZOOM := 100
  const MIN_ZOOM := 50
  const MAX_ZOOM := 200
  const ZOOM_STEP := 10

  /** `Math.min(prev + 10, 200)`. */
  function ZoomIn(zoom: int): (z: int)
    ensures z <= MAX_ZOOM
    ensures zoom < MAX_ZOOM ==> zoom < z
    ensures zoom <= MAX_ZOOM - ZOOM_STEP ==> z == zoom + ZOOM_STEP
    ensures zoom >= MAX_ZOOM - ZOOM_STEP ==> z == MAX_ZOOM
  {
    if zoom + ZOOM_STEP < MAX_ZOOM then zoom + ZOOM_STEP else MAX_ZOOM
  }

  /** `Math.max(prev - 10, 50)`. */
  function ZoomOut(zoom: int): (z: int)
    ensures z >= MIN_ZOOM
    ensures zoom > MIN_ZOOM ==> z < zoom
    ensures zoom >= MIN_ZOOM + ZOOM_STEP ==> z == zoom - ZOOM_STEP
    ensures zoom <= MIN_ZOOM + ZOOM_STEP ==> z == MIN_ZOOM
  {
    if zoom - ZOOM_STEP > MIN_ZOOM then zoom - ZOOM_STEP else MIN_ZOOM
  }

  /** What can happen to the zoom: the two buttons, and (re)opening a document, which resets it. */
  datatype ZoomEvent = In | Out | Open

  function Step(zoom: int, e: ZoomEvent): (z: int)
    ensures MIN_ZOOM <= zoom <= MAX_ZOOM ==> MIN_ZOOM <= z <= MAX_ZOOM
    ensures e == Open ==> z == DEFAULT_ZOOM
  {
    match e
    case In => ZoomIn(zoom)
    case Out => ZoomOut(zoom)
    case Open => DEFAULT_ZOOM
  }

  /** The zoom after a sequence of events, oldest first. */
  function Replay(zoom: int, events: seq<ZoomEvent>): (z: int)
    ensures MIN_ZOOM <= zoom <= MAX_ZOOM ==> MIN_ZOOM <= z <= MAX_ZOOM
    ensures Open in events ==> MIN_ZOOM <= z <= MAX_ZOOM
    ensures |events| > 0 && events[|events| - 1] == Open ==> z == DEFAULT_ZOOM
  {
    if |events| == 0 then zoom else Step(Replay(zoom, events[..|events| - 1]), events[|events| - 1])
  }

  /** A zoom the reader can show: between 50% and 200%, in steps of 10. */
  predicate ValidZoom(zoom: int) {
    MIN_ZOOM <= zoom <= MAX_ZOOM && zoom % ZOOM_STEP == 0
  }

  /** Every event keeps the zoom valid. */
  lemma StepKeepsValid(zoom: int, e: ZoomEvent)
    requires ValidZoom(zoom)
    ensures ValidZoom(Step(zoom, e))
  {
  }

  /** From any valid zoom, and so from the initial 100%, every sequence of events ends at a valid zoom. */
  lemma {:induction false} ReplayKeepsValid(zoom: int, events: seq<ZoomEvent>)
    requires ValidZoom(zoom)
    ensures ValidZoom(Replay(zoom, events))
  {
    if |events| > 0 {
      ReplayKeepsValid(zoom, events[..|events| - 1]);
      StepKeepsValid(Replay(zoom, events[..|events| - 1]), events[|events| - 1]);
    }
  }

  /** Zooming in then out returns to a valid zoom below the maximum, and out then in to one above the minimum. */
  lemma ZoomRoundTrip(zoom: int)
    requires ValidZoom(zoom)
    ensures zoom < MAX_ZOOM ==> ZoomOut(ZoomIn(zoom)) == zoom
    ensures zoom > MIN_ZOOM ==> ZoomIn(ZoomOut(zoom)) == zoom
  {
  }

  /**
   * `loadDocument`: sets its error exactly when the document has no file
   * data (absent or empty).
   */
  function LoadFails(d: Document): (failed: bool)
    ensures failed <==> d.fileData.None? || d.fileData.value == ""
  {
    !(d.fileData.Some? && d.fileData.value != "")
  }

  const OCTET_STREAM := "application/octet-stream"

  /** `getContentType`: the MIME type of a type label or extension, matched ignoring ASCII case. */
  function ContentType(fileType: string): (mime: string)
    ensures var t := ToLower(fileType);
      && (t == "pdf" ==> mime == "application/pdf")
      && (t == "word" || t == "doc" ==> mime == "application/msword")
      && (t == "docx" ==> mime == "application/vnd.openxmlformats-officedocument.wordprocessingml.document")
      && (t == "excel" || t == "xls" ==> mime == "application/vnd.ms-excel")
      && (t == "xlsx" ==> mime == "application/vnd.openxmlformats-officedocument.spreadsheetml.sheet")
      && (t == "text" || t == "txt" ==> mime == "text/plain")
      && (t !in {"pdf", "word", "doc", "docx", "excel", "xls", "xlsx", "text", "txt"} ==> mime == OCTET_STREAM)
  {
    var t := ToLower(fileType);
    if t == "pdf" then "application/pdf"
    else if t == "word" || t == "doc" then "application/msword"
    else if t == "docx" then "application/vnd.openxmlformats-officedocument.wordprocessingml.document"
    else if t == "excel" || t == "xls" then "application/vnd.ms-excel"
    else if t == "xlsx" then "application/vnd.openxmlformats-officedocument.spreadsheetml.sheet"
    else if t == "text" || t == "txt" then "text/plain"
    else OCTET_STREAM
  }

  /** What the reader shows. Office files are embedded through a viewer given the data URL. */
  datatype View =
    | PdfFrame(dataUrl: string)
    | PdfUnavailable
    | TextPane(text: string)
    | WordFrame(dataUrl: string)
    | WordUnavailable
    | ExcelFrame(dataUrl: string)
    | ExcelUnavailable
    | Unsupported

  predicate HasData(d: Document) {
    d.fileData.Some? && d.fileData.value != ""
  }

  function DataUrl(mime: string, data: string): string {
    "data:" + mime + ";base64," + data
  }

  /** The text pane's content: `document.content || '无内容'`. */
  function PaneText(d: Document): (text: string)
    ensures text != ""
    ensures d.content.Some? && d.content.value != "" ==> text == d.content.value
  {
    if d.content.Some? && d.content.value != "" then d.content.value else "无内容"
  }

  /** The case groups of the reader's switch on the lower-cased type. */
  datatype Branch = PdfBranch | TextBranch | WordBranch | ExcelBranch | NoBranch

  /** The case group a lower-cased type label falls into. */
  function BranchOf(t: string): (b: Branch)
    ensures b == PdfBranch <==> t == "pdf"
    ensures b == TextBranch <==> t == "text" || t == "txt"
    ensures b == WordBranch <==> t == "word" || t == "doc" || t == "docx"
    ensures b == ExcelBranch <==> t == "excel" || t == "xls" || t == "xlsx"
  {
    if t == "pdf" then PdfBranch
    else if t == "text" || t == "txt" then TextBranch
    else if t == "word" || t == "doc" || t == "docx" then WordBranch
    else if t == "excel" || t == "xls" || t == "xlsx" then ExcelBranch
    else NoBranch
  }

  /** `renderDocumentContent`, as written: dispatch on the lower-cased type label. */
  function RenderView(d: Document): (v: View)
    ensures var b := BranchOf(ToLower(d.fileType));
      && (v.PdfFrame? || v.PdfUnavailable? <==> b == PdfBranch)
      && (v.TextPane? <==> b == TextBranch)
      && (v.WordFrame? || v.WordUnavailable? <==> b == WordBranch)
      && (v.ExcelFrame? || v.ExcelUnavailable? <==> b == ExcelBranch)
      && (v.Unsupported? <==> b == NoBranch)
      && (v.PdfFrame? || v.WordFrame? || v.ExcelFrame? <==> HasData(d) && b != TextBranch && b != NoBranch)
      && (v.TextPane? ==> v.text == PaneText(d))
      && (v.PdfFrame? ==> v.dataUrl == DataUrl("application/pdf", d.fileData.value))
      && (v.WordFrame? || v.ExcelFrame? ==> v.dataUrl == DataUrl(ContentType(d.fileType), d.fileData.value))
  {
    match BranchOf(ToLower(d.fileType))
    case PdfBranch =>
      if HasData(d) then PdfFrame(DataUrl("application/pdf", d.fileData.value)) else PdfUnavailable
    case TextBranch => TextPane(PaneText(d))
    case WordBranch =>
      if HasData(d) then WordFrame(DataUrl(ContentType(d.fileType), d.fileData.value)) else WordUnavailable
    case ExcelBranch =>
      if HasData(d) then ExcelFrame(DataUrl(ContentType(d.fileType), d.fileData.value)) else ExcelUnavailable
    case NoBranch => Unsupported
  }

  /** The labels uploads receive reach the reader's branches after lower-casing, except '文本'. */
  lemma LowerLabels()
    ensures ToLower(PDF) == "pdf" && ToLower(WORD) == "word" && ToLower(EXCEL) == "excel"
    ensures ToLower(TEXT) == TEXT && ToLower(OTHER) == OTHER
  {
    assert ToLower(PDF) == [LowerChar('P'), LowerChar('D'), LowerChar('F')];
    assert ToLower(WORD) == [LowerChar('W'), 'o', 'r', 'd'];
    assert ToLower(EXCEL) == [LowerChar('E'), 'x', 'c', 'e', 'l'];
  }

  /**
   * As written, an uploaded text file is shown as an unsupported type and
   * `getContentType` gives it `application/octet-stream`: its stored label is
   * '文本', which the reader's switches do not list.
   */
  lemma TextUploadUnreadable(base: string, d: Document)
    requires d.fileType == FileType(base + ".txt")
    ensures d.fileType == TEXT
    ensures RenderView(d) == Unsupported
    ensures ContentType(d.fileType) == OCTET_STREAM
  {
    TxtIsText(base);
    TextLabelUnlisted();
  }

  /** A `.txt` upload is labelled '文本'. */
  lemma TxtIsText(base: string)
    ensures FileType(base + ".txt") == TEXT
  {
    FileTypeByExtension(base, "txt");
    assert base + ".txt" == base + "." + "txt";
    assert ToLower("txt") == "txt";
  }

  /** The label '文本' is in no case group of the reader's switch, nor of its content types. */
  lemma TextLabelUnlisted()
    ensures BranchOf(ToLower(TEXT)) == NoBranch
    ensures ContentType(TEXT) == OCTET_STREAM
  {
    LowerLabels();
  }

  /** The dispatch with the upload label '文本' routed to the text pane, as the upload's stored preview text intends. */
  function IntendedRenderView(d: Document): (v: View)
    ensures d.fileType == TEXT ==> v == TextPane(PaneText(d))
    ensures d.fileType != TEXT ==> v == RenderView(d)
  {
    if d.fileType == TEXT then TextPane(PaneText(d)) else RenderView(d)
  }

  /** With the corrected dispatch, every document an upload classifies as PDF, Word, Excel or text gets a view of its kind. */
  lemma UploadsAreReadable(name: string, d: Document)
    requires d.fileType == FileType(name) && d.fileType != OTHER
    ensures IntendedRenderView(d) != Unsupported
    ensures d.fileType == PDF ==> IntendedRenderView(d).PdfFrame? || IntendedRenderView(d).PdfUnavailable?
    ensures d.fileType == WORD ==> IntendedRenderView(d).WordFrame? || IntendedRenderView(d).WordUnavailable?
    ensures d.fileType == EXCEL ==> IntendedRenderView(d).ExcelFrame? || IntendedRenderView(d).ExcelUnavailable?
    ensures d.fileType == TEXT ==> IntendedRenderView(d) == TextPane(PaneText(d))
  {
    LowerLabels();
  }
}
