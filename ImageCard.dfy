/** The image card: its displayed size with defaults, the +50 / -50 resize
    buttons with their limits, the file name and size it shows, and its
    drag handling. */
module ImageCard {
  import opened BoardTypes
  import opened Numbers
  import opened FileSize
  import BoardStore

  const DefaultWidth := 200.0
  const DefaultHeight := 150.0
  const MinWidth := 100.0
  const MaxWidth := 800.0
  const MinHeight := 100.0
  const MaxHeight := 600.0
  const Increment := 50.0

  /** `value || fallback` on an optional number: unset and 0 both fall
      back. */
  function OrDefault(v: Option<real>, fallback: real): (r: real)
    ensures v.Some? && v.value != 0.0 ==> r == v.value
    ensures v.None? || v.value == 0.0 ==> r == fallback
  {
    if v.Some? && v.value != 0.0 then v.value else fallback
  }

  /** The dimensions the card is drawn with; never zero. */
  function CardDims(c: Card): (d: Size)
    ensures d.width != 0.0 && d.height != 0.0
  {
    Size(OrDefault(c.width, DefaultWidth), OrDefault(c.height, DefaultHeight))
  }

  function Min(a: real, b: real): real { if a <= b then a else b }
  function Max(a: real, b: real): real { if a >= b then a else b }

  function Increase(d: Size): Size {
    Size(Min(MaxWidth, d.width + Increment), Min(MaxHeight, d.height + Increment))
  }

  function Decrease(d: Size): Size {
    Size(Max(MinWidth, d.width - Increment), Max(MinHeight, d.height - Increment))
  }

  /** handleIncreaseSize: the size passed to onSizeChange, or nothing when
      the card has no such callback. */
  function IncreaseSize(c: Card, hasSizeCallback: bool): (r: Option<Size>)
    ensures r.None? <==> !hasSizeCallback
    ensures r.Some? ==> r.value.width <= MaxWidth && r.value.height <= MaxHeight
    ensures r.Some? ==> r.value == Increase(CardDims(c))
  {
    if !hasSizeCallback then None else Some(Increase(CardDims(c)))
  }

  /** handleDecreaseSize: likewise, shrinking. */
  function DecreaseSize(c: Card, hasSizeCallback: bool): (r: Option<Size>)
    ensures r.None? <==> !hasSizeCallback
    ensures r.Some? ==> r.value.width >= MinWidth && r.value.height >= MinHeight
    ensures r.Some? ==> r.value == Decrease(CardDims(c))
  {
    if !hasSizeCallback then None else Some(Decrease(CardDims(c)))
  }

  predicate InBounds(d: Size) {
    MinWidth <= d.width <= MaxWidth && MinHeight <= d.height <= MaxHeight
  }

  predicate IncreaseDisabled(d: Size) {
    d.width >= MaxWidth && d.height >= MaxHeight
  }

  predicate DecreaseDisabled(d: Size) {
    d.width <= MinWidth && d.height <= MinHeight
  }

  /** Resizing never leaves the limits, each step changes a side by at most
      the increment, and one step up is undone by one step down (and the
      reverse) away from the limits. */
  lemma ResizeLaws(d: Size)
    ensures InBounds(d) ==> InBounds(Increase(d)) && InBounds(Decrease(d))
    ensures d.width <= Increase(d).width <= d.width + Increment || d.width > MaxWidth
    ensures d.width - Increment <= Decrease(d).width <= d.width || d.width < MinWidth
    ensures MinWidth <= d.width <= MaxWidth - Increment && MinHeight <= d.height <= MaxHeight - Increment
            ==> Decrease(Increase(d)) == d
    ensures MinWidth + Increment <= d.width <= MaxWidth && MinHeight + Increment <= d.height <= MaxHeight
            ==> Increase(Decrease(d)) == d
  {
  }

  /** Within the limits, a button is disabled exactly when pressing it would
      change nothing. */
  lemma DisabledIffNoChange(d: Size)
    requires InBounds(d)
    ensures IncreaseDisabled(d) <==> Increase(d) == d
    ensures DecreaseDisabled(d) <==> Decrease(d) == d
  {
  }

  /** The board stores the size the card reports, after which a card of
      positive size is drawn at exactly that size. */
  lemma ResizeShown(cards: seq<Card>, i: int, grow: bool)
    requires 0 <= i < |cards|
    requires CardDims(cards[i]).width > 0.0 && CardDims(cards[i]).height > 0.0
    ensures var r := (if grow then IncreaseSize(cards[i], true) else DecreaseSize(cards[i], true)).value;
            var updated := BoardStore.UpdateCardSize(cards, cards[i].id, r.width, r.height);
            CardDims(updated[i]) == r
  {
  }

  /** The file name shown: the `fileName` metadata string or 'Imagem'. */
  function FileName(md: Option<Metadata>): string {
    match MetaString(md, "fileName")
    case Some(s) => s
    case None => "Imagem"
  }

  /** The `fileSize` metadata string or ''. */
  function FileSizeText(md: Option<Metadata>): string {
    match MetaString(md, "fileSize")
    case Some(s) => s
    case None => ""
  }

  /** The size label under the image. */
  function SizeLabel(c: Card): string {
    FormatFileSize(FileSizeText(c.metadata))
  }

  /** A card made from an uploaded image shows the file's name and its byte
      count formatted with its unit. */
  lemma UploadedImageShown(f: BoardStore.FileInfo, url: string, position: Position, id: string)
    ensures var c := BoardStore.NewCard(BoardStore.FileCardDraft(f, url, position), id);
            FileName(c.metadata) == f.name && SizeLabel(c) == FormatBytes(f.size)
  {
    var d := BoardStore.FileCardDraft(f, url, position);
    FormatParsed(MetaString(d.metadata, "fileSize").value, f.size);
  }

  /** The card's own drag: a press on a resize button is ignored; any other
      press marks the card as dragging and, when the card has a bounding
      box, attaches move and release listeners holding the offset from the
      box's corner. */
  class ImageDrag {
    var isDragging: bool
    /** The offset held by the attached listeners, if any are attached. */
    var listening: Option<Position>

    constructor()
      ensures !isDragging && listening.None?
    {
      isDragging := false;
      listening := None;
    }

    method MouseDown(onResizeButton: bool, client: Position, boxCorner: Option<Position>)
      modifies this
      ensures onResizeButton ==> isDragging == old(isDragging) && listening == old(listening)
      ensures !onResizeButton ==> isDragging
      ensures !onResizeButton && boxCorner.Some? ==> listening == Some(Sub(client, boxCorner.value))
      ensures !onResizeButton && boxCorner.None? ==> listening == old(listening)
    {
      if onResizeButton {
        return;
      }
      isDragging := true;
      if boxCorner.Some? {
        listening := Some(Sub(client, boxCorner.value));
      }
    }

    /** The position reported to onPositionChange for a pointer move. */
    method MouseMove(client: Position) returns (r: Option<Position>)
      ensures r.Some? <==> listening.Some?
      ensures r.Some? ==> Add(r.value, listening.value) == client
    {
      if listening.None? {
        return None;
      }
      r := Some(Sub(client, listening.value));
    }

    /** The release listener ends the drag and detaches both listeners. */
    method MouseUp()
      modifies this
      ensures old(listening).Some? ==> !isDragging && listening.None?
      ensures old(listening).None? ==> isDragging == old(isDragging) && listening.None?
    {
      if listening.Some? {
        isDragging := false;
        listening := None;
      }
    }
  }
}
