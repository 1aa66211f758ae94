/** The report-download panel of `src/components/admin/PDFDownloadSection.tsx`: an ordered
    list of file items that drag and drop reorders, and the download action that turns the
    items into PDFs, skipping the ones that fail, and merges them. Cover rendering, fetching,
    image conversion and PDF loading are collaborators held in an `Env`. */
module PdfDownloadSection {

  import opened Wrappers
  import opened Text
  import opened FormTypes
  import opened PdfUtils

  datatype ItemKind = Cover | Submitted | Uploaded

  /** An entry of the list: the generated cover letter (with the record it is built from) or
      a file reachable at `url`. */
  datatype FileItem = FileItem(id: string, name: string, kind: ItemKind, url: Option<string>, data: Option<FormRecord>)

  /** The collaborators of a download run. Each gives `None` where the real one throws or
      reports failure (a fetch whose response is not ok included). */
  datatype Env = Env(
    renderCover: Option<FormRecord> -> Option<Blob>,
    fetch: string -> Option<Blob>,
    convert: Blob -> Option<Blob>,
    load: Blob -> Option<PdfDocument>)

  // ---------------------------------------------------------------------------
  // Reordering (`handleDragEnd`)
  // ---------------------------------------------------------------------------

  /** `items.splice(i, 1)` */
  function RemoveAt<T>(s: seq<T>, i: nat): (r: seq<T>)
    requires i < |s|
    ensures |r| == |s| - 1
    ensures forall k :: 0 <= k < i ==> r[k] == s[k]
    ensures forall k :: i <= k < |r| ==> r[k] == s[k + 1]
  {
    s[..i] + s[i + 1..]
  }

  /** `items.splice(j, 0, x)` */
  function InsertAt<T>(s: seq<T>, j: nat, x: T): (r: seq<T>)
    requires j <= |s|
    ensures |r| == |s| + 1 && r[j] == x
    ensures forall k :: 0 <= k < j ==> r[k] == s[k]
    ensures forall k :: j < k < |r| ==> r[k] == s[k - 1]
  {
    s[..j] + [x] + s[j..]
  }

  /** The list after the item at `i` is dragged to position `j`. */
  function Moved<T>(s: seq<T>, i: nat, j: nat): seq<T>
    requires i < |s| && j < |s|
  {
    InsertAt(RemoveAt(s, i), j, s[i])
  }

  /** Inserting and then removing at the same place gives the list back. */
  lemma RemoveInserted<T>(s: seq<T>, j: nat, x: T)
    requires j <= |s|
    ensures RemoveAt(InsertAt(s, j, x), j) == s
  {
  }

  /** Removing `s[i]` and putting it back at `i` gives the list back. */
  lemma InsertRemoved<T>(s: seq<T>, i: nat)
    requires i < |s|
    ensures InsertAt(RemoveAt(s, i), i, s[i]) == s
  {
  }

  lemma {:induction false} RemoveAtMultiset<T>(s: seq<T>, i: nat)
    requires i < |s|
    ensures multiset(RemoveAt(s, i)) + multiset{s[i]} == multiset(s)
  {
    assert s == s[..i] + [s[i]] + s[i + 1..];
    assert RemoveAt(s, i) == s[..i] + s[i + 1..];
  }

  lemma {:induction false} InsertAtMultiset<T>(s: seq<T>, j: nat, x: T)
    requires j <= |s|
    ensures multiset(InsertAt(s, j, x)) == multiset(s) + multiset{x}
  {
    assert s == s[..j] + s[j..];
    assert InsertAt(s, j, x) == s[..j] + [x] + s[j..];
  }

  /** A move keeps the length and the multiset of items, puts the moved item at the
      destination, and leaves the other items in their relative order. */
  lemma {:induction false} MovedIsPermutation<T>(s: seq<T>, i: nat, j: nat)
    requires i < |s| && j < |s|
    ensures |Moved(s, i, j)| == |s|
    ensures multiset(Moved(s, i, j)) == multiset(s)
    ensures Moved(s, i, j)[j] == s[i]
    ensures RemoveAt(Moved(s, i, j), j) == RemoveAt(s, i)
  {
    RemoveAtMultiset(s, i);
    InsertAtMultiset(RemoveAt(s, i), j, s[i]);
    RemoveInserted(RemoveAt(s, i), j, s[i]);
  }

  /** Dragging the item back to where it came from undoes a move. */
  lemma {:induction false} MovedBack<T>(s: seq<T>, i: nat, j: nat)
    requires i < |s| && j < |s|
    ensures Moved(Moved(s, i, j), j, i) == s
  {
    var m := Moved(s, i, j);
    MovedIsPermutation(s, i, j);
    assert Moved(m, j, i) == InsertAt(RemoveAt(s, i), i, s[i]);
    InsertRemoved(s, i);
  }

  // ---------------------------------------------------------------------------
  // Collecting PDFs (`handleDownloadPDF`)
  // ---------------------------------------------------------------------------

  /** The PDF an item contributes: a generated cover letter only if its type is
      `application/pdf`; any other item only if it has a url, the fetch succeeds and
      `processFileForPDF` keeps or converts the fetched blob. */
  function ItemPdf(item: FileItem, env: Env): (r: Option<Blob>)
    ensures item.kind == Cover && r.Some? ==> r.value.mimeType == "application/pdf" && env.renderCover(item.data) == r
    ensures item.kind != Cover && r.Some? ==>
      Truthy(item.url) && env.fetch(item.url.value).Some? &&
      r == ProcessFileForPdf(env.fetch(item.url.value).value, env.convert)
    ensures item.kind != Cover && !Truthy(item.url) ==> r.None?
    ensures item.kind == Cover ==>
      (r.Some? <==> env.renderCover(item.data).Some? && env.renderCover(item.data).value.mimeType == "application/pdf")
    ensures item.kind != Cover && Truthy(item.url) && env.fetch(item.url.value).Some? ==>
      r == ProcessFileForPdf(env.fetch(item.url.value).value, env.convert)
    ensures item.kind != Cover && Truthy(item.url) && env.fetch(item.url.value).None? ==> r.None?
  {
    if item.kind == Cover then
      match env.renderCover(item.data)
      case Some(b) => if b.mimeType == "application/pdf" then Some(b) else None
      case None => None
    else if Truthy(item.url) then
      match env.fetch(item.url.value)
      case Some(b) => ProcessFileForPdf(b, env.convert)
      case None => None
    else None
  }

  /** The PDFs collected from `items`, in item order, failures skipped. */
  function Collected(items: seq<FileItem>, env: Env): seq<Blob> {
    if items == [] then []
    else
      var last := ItemPdf(items[|items| - 1], env);
      Collected(items[..|items| - 1], env) + (if last.Some? then [last.value] else [])
  }

  /** Collecting distributes over concatenation: the PDFs of earlier items come first. */
  lemma {:induction false} CollectedAppend(a: seq<FileItem>, b: seq<FileItem>, env: Env)
    ensures Collected(a + b, env) == Collected(a, env) + Collected(b, env)
    decreases |b|
  {
    if b == [] {
      assert a + b == a;
    } else {
      var n := |b| - 1;
      assert (a + b)[..|a + b| - 1] == a + b[..n];
      CollectedAppend(a, b[..n], env);
    }
  }

  /** At most one PDF per item, and every collected PDF is the one some item contributes. */
  lemma {:induction false} CollectedFromItems(items: seq<FileItem>, env: Env)
    ensures |Collected(items, env)| <= |items|
    ensures forall k :: 0 <= k < |Collected(items, env)| ==>
      exists j :: 0 <= j < |items| && ItemPdf(items[j], env) == Some(Collected(items, env)[k])
  {
    if items != [] {
      var n := |items| - 1;
      var init := items[..n];
      CollectedFromItems(init, env);
      var c := Collected(items, env);
      forall k | 0 <= k < |c|
        ensures exists j :: 0 <= j < |items| && ItemPdf(items[j], env) == Some(c[k])
      {
        if k < |Collected(init, env)| {
          var j :| 0 <= j < |init| && ItemPdf(init[j], env) == Some(Collected(init, env)[k]);
          assert items[j] == init[j];
        } else {
          assert ItemPdf(items[n], env) == Some(c[k]);
        }
      }
    }
  }

  /** Nothing is collected iff every item fails. */
  lemma {:induction false} CollectedEmptyIff(items: seq<FileItem>, env: Env)
    ensures Collected(items, env) == [] <==> forall j :: 0 <= j < |items| ==> ItemPdf(items[j], env).None?
  {
    if items != [] {
      var n := |items| - 1;
      CollectedEmptyIff(items[..n], env);
      assert forall j :: 0 <= j < n ==> items[..n][j] == items[j];
    }
  }

  /** The items other than the cover letter, in order. */
  function WithoutCover(items: seq<FileItem>): (r: seq<FileItem>)
    ensures |r| <= |items|
    ensures forall k :: 0 <= k < |r| ==> r[k].kind != Cover
  {
    if items == [] then []
    else
      var last := items[|items| - 1];
      WithoutCover(items[..|items| - 1]) + (if last.kind == Cover then [] else [last])
  }

  /** The collaborators with the cover renderer's cleanup as written: whatever is rendered,
      the `finally` block removes the letter's `div` from `body`. */
  function AsWrittenCover(env: Env, body: seq<Node>): Env {
    env.(renderCover := d => CoverOutcome(env.renderCover(d), body, LetterDiv))
  }

  /** The collaborators with the cleanup corrected to remove the container. */
  function CorrectedCover(env: Env, body: seq<Node>): Env {
    env.(renderCover := d => CoverOutcome(env.renderCover(d), body, Container))
  }

  /** As written, the packet holds exactly what the items other than the cover letter
      contribute: the cover letter never reaches it. */
  lemma {:induction false} CollectedAsWritten(items: seq<FileItem>, env: Env, body: seq<Node>)
    requires Unmounted(body)
    ensures Collected(items, AsWrittenCover(env, body)) == Collected(WithoutCover(items), env)
    decreases |items|
  {
    if items != [] {
      var n := |items| - 1;
      var x := items[n];
      var tail := if x.kind == Cover then [] else [x];
      CollectedAsWritten(items[..n], env, body);
      CollectedAppend(WithoutCover(items[..n]), tail, env);
      if x.kind == Cover {
        CoverCleanupAsWritten(env.renderCover(x.data), body);
        assert ItemPdf(x, AsWrittenCover(env, body)).None?;
      } else {
        assert ItemPdf(x, AsWrittenCover(env, body)) == ItemPdf(x, env);
        assert tail[..0] == [];
      }
    }
  }

  /** With the corrected cleanup every item, the cover letter included, contributes what the
      collaborators give: the packet is the one the rest of this model describes. */
  lemma {:induction false} CollectedCorrected(items: seq<FileItem>, env: Env, body: seq<Node>)
    requires Unmounted(body)
    ensures Collected(items, CorrectedCover(env, body)) == Collected(items, env)
    decreases |items|
  {
    if items != [] {
      var n := |items| - 1;
      var x := items[n];
      CollectedCorrected(items[..n], env, body);
      if x.kind == Cover {
        CoverCleanupCorrected(env.renderCover(x.data), body);
      }
      assert ItemPdf(x, CorrectedCover(env, body)) == ItemPdf(x, env);
    }
  }

  /** How a download run ends. `NoFiles` and `MergeFailed` take the alert path; the other two
      carry the PDF that is offered for download. */
  datatype Outcome =
    | NoFiles
    | Single(pdf: Blob)
    | Merged(doc: PdfDocument)
    | MergeFailed

  /** The outcome of a run over `items`: no PDF is an error, one is used as it is, and two or
      more are merged. */
  function DownloadResult(items: seq<FileItem>, env: Env): (o: Outcome)
    ensures o.NoFiles? <==> forall j :: 0 <= j < |items| ==> ItemPdf(items[j], env).None?
    ensures o.Single? ==> |Collected(items, env)| == 1 && o.pdf == Collected(items, env)[0]
    ensures o.Merged? ==> |Collected(items, env)| >= 2 && AllLoad(Collected(items, env), env.load)
                          && o.doc.pages == AllPages(Collected(items, env), env.load)
    ensures o.MergeFailed? <==> |Collected(items, env)| >= 2 && !AllLoad(Collected(items, env), env.load)
  {
    CollectedEmptyIff(items, env);
    var pdfs := Collected(items, env);
    if |pdfs| == 0 then NoFiles
    else if |pdfs| == 1 then Single(pdfs[0])
    else if AllLoad(pdfs, env.load) then Merged(PdfDocument(AllPages(pdfs, env.load)))
    else MergeFailed
  }

  /** The name the downloaded report is given. */
  function DownloadName(d: FormRecord): (name: string)
    ensures |name| == |d.identification.firstName| + |d.identification.lastName| + 22
    ensures name[..|d.identification.firstName|] == d.identification.firstName
    ensures name[|d.identification.firstName|..|d.identification.firstName| + 1 + |d.identification.lastName|]
      == "_" + d.identification.lastName
    ensures name[|name| - |"_Background_Check.pdf"|..] == "_Background_Check.pdf"
  {
    d.identification.firstName + "_" + d.identification.lastName + "_Background_Check.pdf"
  }

  /** The panel's state: the displayed order of the items and whether a run is in progress. */
  class DownloadSection {
    var fileItems: seq<FileItem>
    var isGenerating: bool

    constructor ()
      ensures fileItems == [] && !isGenerating
    {
      fileItems := [];
      isGenerating := false;
    }

    /** The download button is disabled while a run is in progress or when there is nothing
        to download. */
    predicate ButtonDisabled()
      reads this
    {
      isGenerating || |fileItems| == 0
    }

    /** The resync effect: a new `allFileItems` replaces the displayed order, discarding any
        reordering. */
    method SyncItems(allFileItems: seq<FileItem>)
      modifies this
      ensures fileItems == allFileItems && isGenerating == old(isGenerating)
    {
      fileItems := allFileItems;
    }

    /** `handleDragEnd`: a drop outside the list changes nothing; otherwise the dragged item
        moves from `source` to `destination`. */
    method DragEnd(source: nat, destination: Option<nat>)
      requires source < |fileItems|
      requires destination.Some? ==> destination.value < |fileItems|
      modifies this
      ensures isGenerating == old(isGenerating)
      ensures destination.None? ==> fileItems == old(fileItems)
      ensures destination.Some? ==> fileItems == Moved(old(fileItems), source, destination.value)
      ensures multiset(fileItems) == multiset(old(fileItems))
    {
      if destination.None? {
        return;
      }
      MovedIsPermutation(fileItems, source, destination.value);
      var items := fileItems;
      var reordered := items[source];
      items := items[..source] + items[source + 1..];
      items := items[..destination.value] + [reordered] + items[destination.value..];
      fileItems := items;
    }

    /** `handleDownloadPDF`: collects a PDF from every item in displayed order, skipping the
        ones that fail, then ends in one of the four outcomes. The list is left as it was and
        the in-progress flag is cleared on every path. */
    method DownloadPdf(env: Env) returns (outcome: Outcome)
      modifies this
      ensures outcome == DownloadResult(fileItems, env)
      ensures fileItems == old(fileItems) && !isGenerating
      ensures ButtonDisabled() <==> |fileItems| == 0
    {
      isGenerating := true;
      var pdfFiles: seq<Blob> := [];
      var i := 0;
      while i < |fileItems|
        invariant 0 <= i <= |fileItems| && isGenerating
        invariant fileItems == old(fileItems)
        invariant pdfFiles == Collected(fileItems[..i], env)
      {
        var item := fileItems[i];
        if item.kind == Cover {
          var cover := env.renderCover(item.data);
          if cover.Some? && cover.value.mimeType == "application/pdf" {
            pdfFiles := pdfFiles + [cover.value];
          }
        } else if item.url.Some? && item.url.value != "" {
          var response := env.fetch(item.url.value);
          if response.Some? {
            var processed := ProcessFileForPdf(response.value, env.convert);
            if processed.Some? {
              pdfFiles := pdfFiles + [processed.value];
            }
          }
        }
        assert fileItems[..i + 1][..i] == fileItems[..i];
        i := i + 1;
      }
      assert fileItems[..i] == fileItems;
      if |pdfFiles| == 0 {
        outcome := NoFiles;
      } else if |pdfFiles| == 1 {
        outcome := Single(pdfFiles[0]);
      } else {
        var merged := MergePdfs(pdfFiles, env.load);
        outcome := if merged.Some? then Merged(merged.value) else MergeFailed;
      }
      isGenerating := false;
    }
  }
}
