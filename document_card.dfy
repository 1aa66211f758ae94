/** The document tile of `src/components/shared/DocumentCard.tsx`: its icon and type caption,
    both chosen from the document's type string, and which action buttons it shows. */
module DocumentCard {

  import opened Text

  predicate IsPdfType(t: string) {
    t == "pdf" || t == "application/pdf"
  }

  predicate IsImageType(t: string) {
    StartsWith(t, "image/") || t == "image"
  }

  /** `getTypeLabel()` */
  function TypeLabel(t: string): (caption: string)
    ensures caption == "PDF" <==> IsPdfType(t)
    ensures caption == "Image" <==> !IsPdfType(t) && IsImageType(t)
    ensures caption == "Document" <==> !IsPdfType(t) && !IsImageType(t)
  {
    if IsPdfType(t) then "PDF"
    else if IsImageType(t) then "Image"
    else "Document"
  }

  datatype Icon = FileTextIcon | ImageIcon | FileIcon

  /** `getIcon()` */
  function TypeIcon(t: string): (icon: Icon)
    ensures icon == FileTextIcon <==> IsPdfType(t)
    ensures icon == ImageIcon <==> !IsPdfType(t) && IsImageType(t)
  {
    if IsPdfType(t) then FileTextIcon
    else if IsImageType(t) then ImageIcon
    else FileIcon
  }

  /** The icon and the caption make the same three-way split. */
  lemma IconFollowsLabel(t: string)
    ensures TypeIcon(t) == FileTextIcon <==> TypeLabel(t) == "PDF"
    ensures TypeIcon(t) == ImageIcon <==> TypeLabel(t) == "Image"
    ensures TypeIcon(t) == FileIcon <==> TypeLabel(t) == "Document"
  {
  }

  datatype Variant = Admin | ClientView

  datatype Action = View | Download

  /** The buttons shown: View when a view handler is given, and Download only on the admin
      variant with a download handler. */
  function VisibleActions(variant: Variant, hasView: bool, hasDownload: bool): (actions: seq<Action>)
    ensures View in actions <==> hasView
    ensures Download in actions <==> variant == Admin && hasDownload
    ensures |actions| <= 2 && (|actions| == 2 ==> actions == [View, Download])
  {
    (if hasView then [View] else []) + (if variant == Admin && hasDownload then [Download] else [])
  }
}
