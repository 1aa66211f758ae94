/** The PDF packet rules of `src/lib/pdf-utils.ts`: the file classifier, the cover-letter
    mappings and text, and page concatenation. A blob is its MIME type and its bytes; a PDF
    document is its sequence of pages. Rendering, image conversion and PDF parsing are
    collaborators passed in as functions. */
module PdfUtils {

  import opened Wrappers
  import opened Text
  import opened FormTypes

  newtype byte = x: int | 0 <= x < 256

  datatype Blob = Blob(mimeType: string, bytes: seq<byte>)

  /** A page of a loaded PDF document; its content is opaque to the model. */
  datatype Page = Page(content: seq<byte>)

  datatype PdfDocument = PdfDocument(pages: seq<Page>)

  // ---------------------------------------------------------------------------
  // File classifier (`processFileForPDF`)
  // ---------------------------------------------------------------------------

  /** `%PDF`, the file-header marker of section 7.5.2 of ISO 32000-1:2008. */
  const PDF_MAGIC: seq<byte> := [0x25, 0x50, 0x44, 0x46]

  /** Size above which a header-less blob of a PDF-like type is still kept. */
  const HEADERLESS_MIN_SIZE := 1000

  /** The first four bytes are `%PDF` (a shorter blob never matches). */
  predicate HasPdfHeader(bytes: seq<byte>) {
    |bytes| >= 4 && bytes[..4] == PDF_MAGIC
  }

  /** The MIME types handled as PDFs, the empty type included. */
  predicate PdfLikeMime(m: string) {
    m == "application/pdf" || m == "application/octet-stream" || m == "binary/octet-stream" || m == ""
  }

  datatype Disposition = Keep | Convert | Drop

  /** What `processFileForPDF` decides from the MIME type and the bytes. */
  function Classify(b: Blob): (d: Disposition)
    ensures d == Keep <==> PdfLikeMime(b.mimeType) && (HasPdfHeader(b.bytes) || |b.bytes| > HEADERLESS_MIN_SIZE)
    ensures d == Convert <==> !PdfLikeMime(b.mimeType) && StartsWith(b.mimeType, "image/")
  {
    if PdfLikeMime(b.mimeType) then
      if HasPdfHeader(b.bytes) then Keep
      else if |b.bytes| > HEADERLESS_MIN_SIZE then Keep
      else Drop
    else if StartsWith(b.mimeType, "image/") then Convert
    else Drop
  }

  /** `processFileForPDF(blob)`: the blob itself, its conversion to a one-page PDF (`convert`
      gives `None` when conversion fails), or `None`. It never throws. */
  function ProcessFileForPdf(b: Blob, convert: Blob -> Option<Blob>): (r: Option<Blob>)
    ensures Classify(b) == Keep ==> r == Some(b)
    ensures Classify(b) == Convert ==> r == convert(b)
    ensures Classify(b) == Drop ==> r == None
  {
    match Classify(b)
    case Keep => Some(b)
    case Convert => convert(b)
    case Drop => None
  }

  /** The blob a classification keeps is the input, untouched; anything else that comes out is
      a conversion of an image. */
  lemma ProcessedOrigin(b: Blob, convert: Blob -> Option<Blob>)
    ensures ProcessFileForPdf(b, convert) == Some(b) <==>
      Classify(b) == Keep || (Classify(b) == Convert && convert(b) == Some(b))
    ensures PdfLikeMime(b.mimeType) && HasPdfHeader(b.bytes) ==> ProcessFileForPdf(b, convert) == Some(b)
    ensures PdfLikeMime(b.mimeType) && !HasPdfHeader(b.bytes) ==>
      (ProcessFileForPdf(b, convert).Some? <==> |b.bytes| > HEADERLESS_MIN_SIZE)
    ensures !PdfLikeMime(b.mimeType) && !StartsWith(b.mimeType, "image/") ==> ProcessFileForPdf(b, convert) == None
  {
  }

  // ---------------------------------------------------------------------------
  // Status mappings
  // ---------------------------------------------------------------------------

  const DEFAULT_STATUS_COLOR := "#6b7280"

  /** `getStatusColor(status)` */
  function StatusColor(status: string): (c: string)
    ensures !IsStatus(status) ==> c == DEFAULT_STATUS_COLOR
    ensures IsStatus(status) ==> c != DEFAULT_STATUS_COLOR
  {
    if status == "cleared" then "#059669"
    else if status == "pending" then "#d97706"
    else if status == "denied" then "#dc2626"
    else DEFAULT_STATUS_COLOR
  }

  /** Each of the three statuses has a colour of its own. */
  lemma StatusColorsDistinct(s: string, t: string)
    requires IsStatus(s) && IsStatus(t) && s != t
    ensures StatusColor(s) != StatusColor(t)
  {
  }

  /** The status tag the cover letter prints in the status paragraph. */
  function StatusLabel(status: string): (tag: string)
    requires IsStatus(status)
    ensures |tag| == |status| + 1 && tag[|status|] == ':'
    ensures forall k :: 0 <= k < |status| ==> tag[k] == UpperChar(status[k])
  {
    if status == "cleared" then "CLEARED:" else if status == "pending" then "PENDING:" else "DENIED:"
  }

  function StatusParagraph(color: string, tag: string, text: string): (html: string)
    ensures Contains(html, tag) && Contains(html, color) && html != ""
  {
    var open, close := "<p><strong style=\"color: ", "</strong> " + text + "</p>";
    var html := open + color + ";\">" + tag + close;
    ContainsInfix(open + color + ";\">", tag, close);
    assert html == open + color + (";\">" + tag + close);
    ContainsInfix(open, color, ";\">" + tag + close);
    html
  }

  /** The explanation that follows the status tag. */
  function StatusText(status: string): string {
    if status == "cleared" then
      "Your background screening has been completed\n      successfully. All checks have passed the required standards, and no disqualifying information was found.\n      You may proceed with your application process."
    else if status == "pending" then
      "Your background screening is currently in\n      progress. We are awaiting responses from one or more verification sources. We will notify you as soon as\n      the screening is complete."
    else
      "Your background screening has revealed information\n      that does not meet the required standards for this application. If you believe this information is\n      incorrect, please contact us immediately to discuss the dispute process."
  }

  /** `getStatusContent(status)` */
  function StatusContent(status: string): (html: string)
    ensures !IsStatus(status) <==> html == ""
    ensures IsStatus(status) ==> Contains(html, StatusLabel(status))
    ensures IsStatus(status) ==> Contains(html, StatusColor(status))
  {
    if !IsStatus(status) then ""
    else StatusParagraph(StatusColor(status), StatusLabel(status), StatusText(status))
  }

  // ---------------------------------------------------------------------------
  // Cover letter text
  // ---------------------------------------------------------------------------

  /** The client id up to its first '-': `client.split('-', 1)`. */
  function FirstSegment(s: string): (r: string)
    ensures |r| <= |s| && r == s[..|r|]
    ensures '-' !in r
    ensures |r| < |s| ==> s[|r|] == '-'
  {
    if s == [] || s[0] == '-' then [] else [s[0]] + FirstSegment(s[1..])
  }

  /** The reference number `BGC-<first segment of the client id>`. */
  function ReferenceNumber(client: string): (r: string)
    ensures '-' !in client ==> r == "BGC-" + client
  {
    "BGC-" + FirstSegment(client)
  }

  /** The reference number only depends on the client id up to its first '-'. */
  lemma {:induction false} ReferenceIgnoresSuffix(id: string, suffix: string)
    requires '-' !in id
    ensures FirstSegment(id + "-" + suffix) == id
    ensures ReferenceNumber(id + "-" + suffix) == "BGC-" + id
    decreases |id|
  {
    var s := id + "-" + suffix;
    if id != [] {
      assert s[0] == id[0] && s[1..] == id[1..] + "-" + suffix;
      ReferenceIgnoresSuffix(id[1..], suffix);
    }
  }

  /** The parts of the cover letter, in order, each with the text it shows. The markup and its
      styling are not part of the model. */
  datatype Section =
    | Letterhead(color: string, status: string)
    | DateLine(text: string)
    | ReferenceLine(text: string)
    | ApplicantInformation(lines: seq<string>)
    | Greeting(text: string)
    | Introduction(formTypeLower: string)
    | ChecksPerformed(checks: seq<string>)
    | StatusParagraphSection(html: string)
    | AdditionalNotes(memo: string)
    | Closing

  /** The applicant block's lines; the second address line only when it is non-empty. */
  function ApplicantLines(i: Identification, title: string): (lines: seq<string>)
    ensures |lines| == if Truthy(i.streetAddress2) then 6 else 5
    ensures Truthy(i.streetAddress2) ==> lines[4] == i.streetAddress2.value
  {
    ["Name: " + i.firstName + " " + i.lastName,
     "Client: " + i.firstName,
     "Form Type: " + title,
     i.streetAddress]
    + (if Truthy(i.streetAddress2) then [i.streetAddress2.value] else [])
    + [i.city + ", " + i.state + " " + i.postalCode]
  }

  /** Letterhead, date and reference number. */
  function LetterHead(d: FormRecord, date: string): (s: seq<Section>)
    ensures |s| == 3 && s[2] == ReferenceLine("Reference #: " + ReferenceNumber(d.client))
    ensures forall k :: 0 <= k < 3 ==>
      !s[k].ApplicantInformation? && !s[k].ChecksPerformed? && !s[k].StatusParagraphSection? && !s[k].AdditionalNotes?
  {
    [Letterhead(StatusColor(d.status), d.status),
     DateLine("Date: " + date),
     ReferenceLine("Reference #: " + ReferenceNumber(d.client))]
  }

  /** The applicant block, present iff the record has a client. */
  function ApplicantBlock(d: FormRecord, t: FormType): (s: seq<Section>)
    ensures |s| == if d.client != "" then 1 else 0
    ensures d.client != "" ==> s[0] == ApplicantInformation(ApplicantLines(d.identification, Title(t)))
  {
    if d.client != "" then [ApplicantInformation(ApplicantLines(d.identification, Title(t)))] else []
  }

  /** Greeting, introduction, checks performed and the status paragraph. */
  function LetterBody(d: FormRecord, t: FormType): (s: seq<Section>)
    ensures |s| == 4
    ensures s[2] == ChecksPerformed(d.backgroundChecks)
    ensures s[3] == StatusParagraphSection(StatusContent(d.status))
    ensures !s[0].ApplicantInformation? && !s[0].ChecksPerformed? && !s[0].StatusParagraphSection? && !s[0].AdditionalNotes?
    ensures !s[1].ApplicantInformation? && !s[1].ChecksPerformed? && !s[1].StatusParagraphSection? && !s[1].AdditionalNotes?
  {
    var i := d.identification;
    [Greeting("Dear " + i.firstName + " " + i.lastName + ","),
     Introduction(Lower(Title(t))),
     ChecksPerformed(d.backgroundChecks),
     StatusParagraphSection(StatusContent(d.status))]
  }

  /** The additional-notes block, present iff the memo is non-empty. */
  function NotesBlock(d: FormRecord): (s: seq<Section>)
    ensures |s| == if Truthy(d.memo) then 1 else 0
    ensures Truthy(d.memo) ==> s[0] == AdditionalNotes(d.memo.value)
  {
    if Truthy(d.memo) then [AdditionalNotes(d.memo.value)] else []
  }

  /** The cover letter for record `d` dated `date`, or `None` when the record's form type has
      no entry in the form-type table (the builder then throws). */
  function CoverLetter(d: FormRecord, date: string): (r: Option<seq<Section>>)
    ensures r.Some? <==> ParseFormType(d.formType).Some?
  {
    match ParseFormType(d.formType)
    case None => None
    case Some(t) =>
      Some(LetterHead(d, date) + ApplicantBlock(d, t) + LetterBody(d, t) + NotesBlock(d) + [Closing])
  }

  /** The letter's layout: three header sections, the applicant block iff there is a client,
      greeting, introduction, the checks, the status paragraph, the notes iff the memo is
      non-empty, and the closing. */
  lemma {:induction false} CoverLetterLayout(d: FormRecord, date: string)
    requires ParseFormType(d.formType).Some?
    ensures var s := CoverLetter(d, date).value;
      var a := if d.client != "" then 1 else 0;
      var n := if Truthy(d.memo) then 1 else 0;
      && |s| == 8 + a + n
      && s[2] == ReferenceLine("Reference #: " + ReferenceNumber(d.client))
      && (a == 1 ==> s[3] == ApplicantInformation(ApplicantLines(d.identification, Title(ParseFormType(d.formType).value))))
      && s[a + 5] == ChecksPerformed(d.backgroundChecks)
      && s[a + 6] == StatusParagraphSection(StatusContent(d.status))
      && (n == 1 ==> s[a + 7] == AdditionalNotes(d.memo.value))
      && s[a + n + 7] == Closing
  {
    var t := ParseFormType(d.formType).value;
    var head, app, body, notes := LetterHead(d, date), ApplicantBlock(d, t), LetterBody(d, t), NotesBlock(d);
    assert CoverLetter(d, date).value == head + app + body + notes + [Closing];
  }

  /** Section `k` of the letter, read off the part it falls in. */
  lemma {:induction false} SectionAt(d: FormRecord, date: string, k: int)
    requires ParseFormType(d.formType).Some?
    requires 0 <= k < |CoverLetter(d, date).value|
    ensures var t := ParseFormType(d.formType).value;
      var head, app, body, notes := LetterHead(d, date), ApplicantBlock(d, t), LetterBody(d, t), NotesBlock(d);
      var s := CoverLetter(d, date).value;
      s[k] == if k < 3 then head[k] else if k < 3 + |app| then app[k - 3]
              else if k < 7 + |app| then body[k - 3 - |app|]
              else if k < 7 + |app| + |notes| then notes[k - 7 - |app|]
              else Closing
  {
    var t := ParseFormType(d.formType).value;
    var head, app, body, notes := LetterHead(d, date), ApplicantBlock(d, t), LetterBody(d, t), NotesBlock(d);
    assert CoverLetter(d, date).value == head + app + body + notes + [Closing];
  }

  /** No section other than the ones `CoverLetterLayout` places is an applicant block, a checks
      list, a status paragraph or a notes block. */
  lemma {:induction false} CoverLetterUnique(d: FormRecord, date: string)
    requires ParseFormType(d.formType).Some?
    ensures var s := CoverLetter(d, date).value;
      var a := if d.client != "" then 1 else 0;
      var n := if Truthy(d.memo) then 1 else 0;
      && (forall k :: 0 <= k < |s| && s[k].ApplicantInformation? ==> a == 1 && k == 3)
      && (forall k :: 0 <= k < |s| && s[k].ChecksPerformed? ==> k == a + 5)
      && (forall k :: 0 <= k < |s| && s[k].StatusParagraphSection? ==> k == a + 6)
      && (forall k :: 0 <= k < |s| && s[k].AdditionalNotes? ==> n == 1 && k == a + 7)
  {
    var s := CoverLetter(d, date).value;
    var t := ParseFormType(d.formType).value;
    var a := |ApplicantBlock(d, t)|;
    var n := |NotesBlock(d)|;
    forall k | 0 <= k < |s|
      ensures s[k].ApplicantInformation? ==> a == 1 && k == 3
      ensures s[k].ChecksPerformed? ==> k == a + 5
      ensures s[k].StatusParagraphSection? ==> k == a + 6
      ensures s[k].AdditionalNotes? ==> n == 1 && k == a + 7
    {
      SectionAt(d, date, k);
    }
  }

  /** What the letter shows: the checks exactly once and in selection order, the applicant
      block iff there is a client, the notes block iff the memo is non-empty, and the status
      paragraph for the record's status. */
  lemma {:induction false} CoverLetterContents(d: FormRecord, date: string)
    requires ParseFormType(d.formType).Some?
    ensures var s := CoverLetter(d, date).value;
      && (exists k :: 0 <= k < |s| && s[k] == ChecksPerformed(d.backgroundChecks))
      && (forall k :: 0 <= k < |s| && s[k].ChecksPerformed? ==> s[k].checks == d.backgroundChecks)
      && ((exists k :: 0 <= k < |s| && s[k].ApplicantInformation?) <==> d.client != "")
      && ((exists k :: 0 <= k < |s| && s[k].AdditionalNotes?) <==> Truthy(d.memo))
      && (forall k :: 0 <= k < |s| && s[k].AdditionalNotes? ==> s[k].memo == d.memo.value)
      && (forall k :: 0 <= k < |s| && s[k].StatusParagraphSection? ==> s[k].html == StatusContent(d.status))
  {
    CoverLetterLayout(d, date);
    CoverLetterUnique(d, date);
    var s := CoverLetter(d, date).value;
    var a := if d.client != "" then 1 else 0;
    if d.client != "" {
      assert s[3].ApplicantInformation?;
    }
    if Truthy(d.memo) {
      assert s[a + 7].AdditionalNotes?;
    }
  }

  // ---------------------------------------------------------------------------
  // Mounting and cleanup of the rendered letter (`generateCoverLetterPDF`)
  // ---------------------------------------------------------------------------

  /** The DOM nodes the renderer deals with: the `div` holding the letter, the isolating
      container it is placed in, and the page's own nodes. */
  datatype Node = LetterDiv | Container | PageNode(id: nat)

  /** A list of children that holds neither of the renderer's two freshly created nodes. */
  predicate Unmounted(children: seq<Node>) {
    forall k :: 0 <= k < |children| ==> children[k].PageNode?
  }

  /** `parent.removeChild(child)` on a parent with `children`: the remaining children, or
      `None` where the DOM throws because `child` is not a child of `parent`. */
  function RemoveChild(children: seq<Node>, child: Node): (r: Option<seq<Node>>)
    ensures r.Some? <==> child in children
    ensures r.Some? ==> multiset(r.value) + multiset{child} == multiset(children)
  {
    if children == [] then None
    else if children[0] == child then
      assert children == [child] + children[1..];
      Some(children[1..])
    else
      match RemoveChild(children[1..], child)
      case Some(rest) =>
        assert children == [children[0]] + children[1..];
        Some([children[0]] + rest)
      case None => None
  }

  /** The body's children while the letter renders: the letter's `div` goes into the
      container, and the container is appended to the body. */
  function Mounted(body: seq<Node>): (r: seq<Node>)
    ensures LetterDiv !in r <==> LetterDiv !in body
    ensures Container in r
  {
    body + [Container]
  }

  /** What `generateCoverLetterPDF` hands back when its `finally` block removes `removed`
      from the body: `rendered` is what the `try` block returns (`None` where rendering
      throws), and an exception in the `finally` block replaces that result. */
  function CoverOutcome(rendered: Option<Blob>, body: seq<Node>, removed: Node): (r: Option<Blob>)
    ensures r.Some? ==> r == rendered
    ensures r.None? ==> rendered.None? || removed !in Mounted(body)
  {
    match RemoveChild(Mounted(body), removed)
    case None => None
    case Some(_) => rendered
  }

  /** As written, the cleanup removes the letter's `div` from the body, which is not its
      parent: the removal always throws, so no cover letter ever comes back, whatever was
      rendered. */
  lemma CoverCleanupAsWritten(rendered: Option<Blob>, body: seq<Node>)
    requires Unmounted(body)
    ensures RemoveChild(Mounted(body), LetterDiv).None?
    ensures CoverOutcome(rendered, body, LetterDiv).None?
  {
  }

  /** Removing the node the renderer appended to the body leaves that body's children. */
  lemma {:induction false} RemoveAppended(body: seq<Node>, x: Node)
    requires x !in body
    ensures RemoveChild(body + [x], x) == Some(body)
    decreases |body|
  {
    if body == [] {
      assert body + [x] == [x];
    } else {
      assert (body + [x])[1..] == body[1..] + [x];
      RemoveAppended(body[1..], x);
      assert body == [body[0]] + body[1..];
    }
  }

  /** Removing the container instead, which the body does hold, gives the body back as it
      was before rendering and lets the rendered letter through. */
  lemma {:induction false} CoverCleanupCorrected(rendered: Option<Blob>, body: seq<Node>)
    requires Unmounted(body)
    ensures RemoveChild(Mounted(body), Container) == Some(body)
    ensures CoverOutcome(rendered, body, Container) == rendered
  {
    RemoveAppended(body, Container);
  }

  // ---------------------------------------------------------------------------
  // Page concatenation (`mergePDFs`)
  // ---------------------------------------------------------------------------

  predicate AllLoad(blobs: seq<Blob>, load: Blob -> Option<PdfDocument>) {
    forall j :: 0 <= j < |blobs| ==> load(blobs[j]).Some?
  }

  /** The pages of all blobs, in blob order. */
  function AllPages(blobs: seq<Blob>, load: Blob -> Option<PdfDocument>): seq<Page>
    requires AllLoad(blobs, load)
  {
    if blobs == [] then []
    else AllPages(blobs[..|blobs| - 1], load) + load(blobs[|blobs| - 1]).value.pages
  }

  /** The number of pages before blob `i`. */
  function PagesBefore(blobs: seq<Blob>, load: Blob -> Option<PdfDocument>, i: nat): nat
    requires AllLoad(blobs, load) && i <= |blobs|
  {
    if i == 0 then 0 else PagesBefore(blobs, load, i - 1) + |load(blobs[i - 1]).value.pages|
  }

  /** The merged document's page count is the sum of the inputs', and the pages of input `i`
      sit, unchanged and in order, between those of input `i - 1` and input `i + 1`. */
  lemma {:induction false} MergedLayout(blobs: seq<Blob>, load: Blob -> Option<PdfDocument>, i: nat)
    requires AllLoad(blobs, load) && i < |blobs|
    ensures |AllPages(blobs, load)| == PagesBefore(blobs, load, |blobs|)
    ensures PagesBefore(blobs, load, i + 1) <= |AllPages(blobs, load)|
    ensures AllPages(blobs, load)[PagesBefore(blobs, load, i)..PagesBefore(blobs, load, i + 1)]
            == load(blobs[i]).value.pages
    decreases |blobs|
  {
    var n := |blobs| - 1;
    var init := blobs[..n];
    assert AllLoad(init, load);
    PagesBeforePrefix(blobs, init, load, n);
    if i < n {
      MergedLayout(init, load, i);
      PagesBeforePrefix(blobs, init, load, i + 1);
    } else {
      if n > 0 {
        MergedLayout(init, load, 0);
      }
    }
  }

  /** `PagesBefore` only looks at the blobs before the index. */
  lemma {:induction false} PagesBeforePrefix(blobs: seq<Blob>, init: seq<Blob>, load: Blob -> Option<PdfDocument>, i: nat)
    requires AllLoad(blobs, load) && AllLoad(init, load)
    requires i <= |init| <= |blobs| && init == blobs[..|init|]
    ensures PagesBefore(blobs, load, i) == PagesBefore(init, load, i)
  {
    if i > 0 {
      PagesBeforePrefix(blobs, init, load, i - 1);
    }
  }

  /** `mergePDFs(blobs)`: loads each blob (`load` gives `None` when the PDF library cannot
      parse it, which aborts the merge) and appends its pages to the merged document. */
  method MergePdfs(blobs: seq<Blob>, load: Blob -> Option<PdfDocument>) returns (r: Option<PdfDocument>)
    ensures r.Some? <==> AllLoad(blobs, load)
    ensures r.Some? ==> r.value.pages == AllPages(blobs, load)
  {
    var merged: seq<Page> := [];
    var i := 0;
    while i < |blobs|
      invariant 0 <= i <= |blobs|
      invariant AllLoad(blobs[..i], load)
      invariant merged == AllPages(blobs[..i], load)
    {
      var pdf := load(blobs[i]);
      if pdf.None? {
        return None;
      }
      assert blobs[..i + 1][..i] == blobs[..i];
      merged := merged + pdf.value.pages;
      i := i + 1;
    }
    assert blobs[..i] == blobs;
    r := Some(PdfDocument(merged));
  }
}
