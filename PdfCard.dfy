/** The PDF card: the name and file information it shows and its drag
    handling. */
module PdfCard {
  import opened BoardTypes
  import opened Text
  import opened FileSize
  import BoardStore

  /** The `fileName` metadata string or 'Documento PDF'. */
  function FileName(md: Option<Metadata>): string {
    match MetaString(md, "fileName")
    case Some(s) => s
    case None => "Documento PDF"
  }

  /** The `fileSize` metadata string or ''. */
  function FileSizeText(md: Option<Metadata>): string {
    match MetaString(md, "fileSize")
    case Some(s) => s
    case None => ""
  }

  /** The `pageCount` metadata number, or null. */
  function PageCount(md: Option<Metadata>): (r: Option<int>)
    ensures r.Some? <==> md.Some? && "pageCount" in md.value && md.value["pageCount"].MNum?
    ensures r.Some? ==> md.value["pageCount"] == MNum(r.value)
  {
    if md.Some? && "pageCount" in md.value && md.value["pageCount"].MNum? then Some(md.value["pageCount"].n)
    else None
  }

  /** getDisplayName: the name without one trailing ".pdf" (case counts). */
  function DisplayName(name: string): (r: string)
    ensures EndsWith(name, ".pdf") ==> r + ".pdf" == name
    ensures !EndsWith(name, ".pdf") ==> r == name
  {
    if EndsWith(name, ".pdf") then name[..|name| - 4] else name
  }

  /** Only one suffix is removed, and an upper-case one is kept. */
  lemma DisplayNameExamples()
    ensures DisplayName("relatorio.pdf") == "relatorio"
    ensures DisplayName("a.pdf.pdf") == "a.pdf"
    ensures DisplayName("A.PDF") == "A.PDF"
    ensures DisplayName(".pdf") == ""
  {
    assert EndsWith("relatorio.pdf", ".pdf");
    assert EndsWith("a.pdf.pdf", ".pdf");
    assert "A.PDF"[1..] != ".pdf";
    assert EndsWith(".pdf", ".pdf");
  }

  /** getFileInfo: the parts "PDF" and, when there is a size, the formatted
      size, joined with " | ". */
  method FileInfo(fileSize: string) returns (r: string)
    ensures fileSize == "" ==> r == "PDF"
    ensures fileSize != "" ==> r == "PDF | " + FormatFileSize(fileSize)
  {
    var parts := ["PDF"];
    if fileSize != "" {
      parts := parts + [FormatFileSize(fileSize)];
    }
    r := Join(parts, " | ");
    InfoParts(FormatFileSize(fileSize));
  }

  /** The info line is "PDF" alone, or "PDF | " and the size. */
  lemma InfoParts(shown: string)
    ensures Join(["PDF"], " | ") == "PDF"
    ensures Join(["PDF"] + [shown], " | ") == "PDF | " + shown
  {
    JoinSnoc(["PDF"], " | ", shown);
    assert "PDF" + " | " + shown == "PDF | " + shown;
  }

  /** A card made from an uploaded PDF shows the file's name without its
      extension and "PDF | " with the formatted byte count. */
  lemma UploadedPdfShown(f: BoardStore.FileInfo, url: string, position: Position, id: string)
    ensures var c := BoardStore.NewCard(BoardStore.FileCardDraft(f, url, position), id);
            && DisplayName(FileName(c.metadata)) + (if EndsWith(f.name, ".pdf") then ".pdf" else "") == f.name
            && FileSizeText(c.metadata) != ""
            && FormatFileSize(FileSizeText(c.metadata)) == FormatBytes(f.size)
  {
    var d := BoardStore.FileCardDraft(f, url, position);
    var s := MetaString(d.metadata, "fileSize").value;
    FormatParsed(s, f.size);
  }

  /** The card's drag state: a press marks the card as dragging and, when
      it has a bounding box, records the offset from the box's corner;
      while dragging, listeners report moves and end the drag on release. */
  class PdfDrag {
    var isDragging: bool
    var dragOffset: Position

    constructor()
      ensures !isDragging && dragOffset == Origin
    {
      isDragging := false;
      dragOffset := Origin;
    }

    method MouseDown(client: Position, boxCorner: Option<Position>)
      modifies this
      ensures isDragging
      ensures dragOffset == if boxCorner.Some? then Sub(client, boxCorner.value) else old(dragOffset)
    {
      isDragging := true;
      if boxCorner.Some? {
        dragOffset := Sub(client, boxCorner.value);
      }
    }

    /** handleMouseMove: a position only while dragging a mounted card. */
    method MouseMove(client: Position, mounted: bool) returns (r: Option<Position>)
      ensures r.Some? <==> isDragging && mounted
      ensures r.Some? ==> Add(r.value, dragOffset) == client
    {
      if isDragging && mounted {
        r := Some(Sub(client, dragOffset));
      } else {
        r := None;
      }
    }

    method MouseUp()
      modifies this
      ensures !isDragging && dragOffset == old(dragOffset)
    {
      isDragging := false;
    }
  }
}
