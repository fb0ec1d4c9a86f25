/** The board screen: the pan/zoom viewport, the selection of cards, and the
    handlers that turn pointer, wheel, key and drop events into viewport
    changes or store updates. */
module BoardView {
  import opened BoardTypes
  import opened Seqs
  import opened BoardStore
  import UseBoard
  import Minimap
  import CanvasContext

  const MinScale := 0.1
  const MaxScale := 2.0

  /** The bounds the board passes to the minimap. */
  const BoardBounds := Size(1920.0, 1080.0)

  predicate ScaleOk(v: Viewport) {
    MinScale <= v.scale <= MaxScale
  }

  const InitialViewport := Viewport(0.0, 0.0, 1.0)

  // ---------------------------------------------------------------------
  // Coordinates

  /** The world point shown at screen point p: `(p - (x, y)) / scale`. */
  function ScreenToWorld(v: Viewport, p: Position): Position
    requires v.scale != 0.0
  {
    Position((p.x - v.x) / v.scale, (p.y - v.y) / v.scale)
  }

  /** Where a world point appears on screen under the CSS transform
      `translate(x, y) scale(s)` with origin (0, 0). */
  function WorldToScreen(v: Viewport, w: Position): Position {
    Position(w.x * v.scale + v.x, w.y * v.scale + v.y)
  }

  /** Converting a screen point to the world and back gives the point again,
      and the other way round. */
  lemma ScreenWorldRoundTrip(v: Viewport, p: Position, w: Position)
    requires v.scale > 0.0
    ensures WorldToScreen(v, ScreenToWorld(v, p)) == p
    ensures ScreenToWorld(v, WorldToScreen(v, w)) == w
  {
    var q := ScreenToWorld(v, p);
    DivTimes(p.x - v.x, v.scale);
    DivTimes(p.y - v.y, v.scale);
    assert WorldToScreen(v, q) == Position(q.x * v.scale + v.x, q.y * v.scale + v.y);
    assert (w.x * v.scale + v.x - v.x) / v.scale == w.x;
    assert (w.y * v.scale + v.y - v.y) / v.scale == w.y;
  }

  lemma DivTimes(a: real, s: real)
    requires s > 0.0
    ensures a / s * s == a
  {
  }

  function Center(r: Size): Position {
    Position(r.width / 2.0, r.height / 2.0)
  }

  /** The patch the board sends to the canvas context whenever its viewport
      changes: the scale as zoom, the translation as both position and
      scroll position. */
  function CanvasSync(v: Viewport): CanvasContext.CanvasPatch {
    CanvasContext.CanvasPatch(Some(v.scale), Some(Position(v.x, v.y)), Some(Position(v.x, v.y)))
  }

  /** After the sync, whatever the canvas state was, it mirrors the
      viewport. */
  lemma CanvasMirrorsViewport(s: CanvasContext.CanvasState, v: Viewport)
    ensures var r := CanvasContext.Overlay(s, CanvasSync(v));
            r.zoom == v.scale && r.position == Position(v.x, v.y) && r.scrollPosition == r.position
  {
  }

  // ---------------------------------------------------------------------
  // Zoom

  function Clamp(x: real): (r: real)
    ensures MinScale <= r <= MaxScale
    ensures MinScale <= x <= MaxScale ==> r == x
  {
    if x > MaxScale then MaxScale else if x < MinScale then MinScale else x
  }

  /** The viewport at scale s2, translated so that the screen point m keeps
      showing the same world point: `t' = m - (m - t) * (s2 / s)`. */
  function ZoomAbout(v: Viewport, m: Position, s2: real): Viewport
    requires v.scale != 0.0
  {
    Viewport(m.x - (m.x - v.x) * (s2 / v.scale), m.y - (m.y - v.y) * (s2 / v.scale), s2)
  }

  /** The anchor is a fixed point of the zoom. */
  lemma ZoomAboutFixesAnchor(v: Viewport, m: Position, s2: real)
    requires v.scale > 0.0 && s2 > 0.0
    ensures ScreenToWorld(ZoomAbout(v, m, s2), m) == ScreenToWorld(v, m)
  {
    RatioCancels(m.x - v.x, v.scale, s2);
    RatioCancels(m.y - v.y, v.scale, s2);
  }

  lemma RatioCancels(d: real, s: real, s2: real)
    requires s > 0.0 && s2 > 0.0
    ensures d * (s2 / s) / s2 == d / s
  {
    assert d * (s2 / s) == (d / s) * s2;
  }

  /** Zooming to the scale the viewport already has changes nothing. */
  lemma ZoomAboutSameScale(v: Viewport, m: Position)
    requires v.scale > 0.0
    ensures ZoomAbout(v, m, v.scale) == v
  {
  }

  /** The board's container: where it sits in the window and how large it
      is. The board element fills it (`absolute inset-0`), and the
      viewport's translation is measured from its corner. */
  datatype Frame = Frame(origin: Position, size: Size)

  /** A box as getBoundingClientRect reports it. */
  datatype Rect = Rect(left: real, top: real, width: real, height: real)

  /** The board element's bounding box. The element carries
      `translate(x, y) scale(s)` with origin 0 0, so its corner is the
      container's corner moved by the translation and its size is the
      container's size times the scale. */
  function BoardRect(v: Viewport, f: Frame): Rect {
    Rect(f.origin.x + v.x, f.origin.y + v.y, f.size.width * v.scale, f.size.height * v.scale)
  }

  /** The box a handler reads: none while the element is not mounted. */
  function MountedRect(v: Viewport, f: Option<Frame>): Option<Rect> {
    if f.None? then None else Some(BoardRect(v, f.value))
  }

  /** A client point in the container's coordinates, the ones the viewport
      is measured in. */
  function Local(f: Frame, client: Position): Position {
    Sub(client, f.origin)
  }

  function Translation(v: Viewport): Position {
    Position(v.x, v.y)
  }

  /** The point the button and drop handlers take as the centre:
      `(rect.width / 2, rect.height / 2)`. */
  function HalfSize(r: Rect): Position {
    Position(r.width / 2.0, r.height / 2.0)
  }

  /** Zooming about m keeps the world point under a screen point p exactly
      when p is m or the scale does not change. */
  lemma ZoomAboutKeeps(v: Viewport, m: Position, s2: real, p: Position)
    requires v.scale > 0.0 && s2 > 0.0
    ensures ScreenToWorld(ZoomAbout(v, m, s2), p) == ScreenToWorld(v, p) <==> p == m || s2 == v.scale
  {
    var r := ZoomAbout(v, m, s2);
    AxisKeeps(v.x, v.scale, m.x, s2, p.x, r.x);
    AxisKeeps(v.y, v.scale, m.y, s2, p.y, r.y);
  }

  /** One axis of ZoomAboutKeeps, for the new translation t2. */
  lemma AxisKeeps(t: real, s: real, m: real, s2: real, p: real, t2: real)
    requires s > 0.0 && s2 > 0.0 && t2 == m - (m - t) * (s2 / s)
    ensures (p - t2) / s2 == (p - t) / s <==> p == m || s2 == s
  {
    var d := p - m;
    RatioCancels(m - t, s, s2);
    assert (p - t2) / s2 == d / s2 + (m - t) / s;
    assert (p - t) / s == d / s + (m - t) / s;
    if d != 0.0 && d / s2 == d / s {
      assert d / s2 * (s * s2) == d * s;
      assert d / s * (s * s2) == d * s2;
      assert d * s == d * s2;
    }
  }

  datatype WheelEvent = WheelEvent(deltaY: real, ctrlKey: bool, metaKey: bool, client: Position)

  function Abs(x: real): real { if x < 0.0 then -x else x }

  /** The scale after one wheel step: 10 % out for a downward scroll, 10 %
      in otherwise, clamped to the allowed range. */
  function WheelScale(s: real, deltaY: real): (r: real)
    ensures MinScale <= r <= MaxScale
  {
    var delta := if deltaY > 0.0 then 0.9 else 1.1;
    Clamp(s * delta)
  }

  /** Browser zoom gestures (ctrl/meta) and small trackpad deltas, which the
      wheel handler swallows. */
  predicate QuietWheel(e: WheelEvent) {
    e.ctrlKey || e.metaKey || -10.0 < e.deltaY < 10.0
  }

  /** The wheel handler as written: any other scroll zooms about
      `client - (rect.left, rect.top)`, with rect the board element's box. */
  function Wheel(v: Viewport, e: WheelEvent, rect: Rect): (r: Viewport)
    requires v.scale != 0.0
    ensures QuietWheel(e) ==> r == v
    ensures !QuietWheel(e) ==> r.scale == WheelScale(v.scale, e.deltaY)
  {
    if e.ctrlKey || e.metaKey then v
    else if Abs(e.deltaY) < 10.0 then v
    else ZoomAbout(v, Sub(e.client, Position(rect.left, rect.top)), WheelScale(v.scale, e.deltaY))
  }

  /** What a wheel event does to the board. Gestures and small deltas change
      nothing. Any other scroll moves the scale by the wheel factor within the
      bounds. Because the element's box already includes the translation,
      the point held still is the pointer moved back by the translation, and
      the world point under the pointer itself stays put only when the
      translation is zero or the scale is already at its bound. */
  lemma WheelSpec(v: Viewport, e: WheelEvent, f: Frame)
    requires v.scale > 0.0
    ensures QuietWheel(e) ==> Wheel(v, e, BoardRect(v, f)) == v
    ensures !QuietWheel(e) ==>
              var r := Wheel(v, e, BoardRect(v, f));
              var p := Local(f, e.client);
              && (e.deltaY > 0.0 ==> r.scale == Clamp(v.scale * 0.9))
              && (e.deltaY <= 0.0 ==> r.scale == Clamp(v.scale * 1.1))
              && ScreenToWorld(r, Sub(p, Translation(v))) == ScreenToWorld(v, Sub(p, Translation(v)))
              && (ScreenToWorld(r, p) == ScreenToWorld(v, p) <==> Translation(v) == Origin || r.scale == v.scale)
  {
    if !QuietWheel(e) {
      var p := Local(f, e.client);
      var m := Sub(p, Translation(v));
      var s2 := WheelScale(v.scale, e.deltaY);
      assert Sub(e.client, Position(BoardRect(v, f).left, BoardRect(v, f).top)) == m;
      ZoomAboutFixesAnchor(v, m, s2);
      ZoomAboutKeeps(v, m, s2, p);
      assert p == m <==> Translation(v) == Origin;
    }
  }

  /** A downward scroll at client (300, 0) over a board translated 100 to
      the right at scale 1, so the pointer is on the world point x = 200:
      after the zoom another world point is under the pointer. */
  lemma WheelDriftExample()
    ensures var v, f := Viewport(100.0, 0.0, 1.0), Frame(Origin, Size(1000.0, 600.0));
            var e := WheelEvent(100.0, false, false, Position(300.0, 0.0));
            ScreenToWorld(Wheel(v, e, BoardRect(v, f)), e.client) != ScreenToWorld(v, e.client)
  {
    var v, f := Viewport(100.0, 0.0, 1.0), Frame(Origin, Size(1000.0, 600.0));
    var e := WheelEvent(100.0, false, false, Position(300.0, 0.0));
    WheelDriftAnchor();
    ZoomAboutKeeps(v, Position(200.0, 0.0), 0.9, e.client);
  }

  /** In that example the handler zooms to 0.9 about x = 200, the pointer
      moved back by the translation. */
  lemma WheelDriftAnchor()
    ensures var v, f := Viewport(100.0, 0.0, 1.0), Frame(Origin, Size(1000.0, 600.0));
            var e := WheelEvent(100.0, false, false, Position(300.0, 0.0));
            Wheel(v, e, BoardRect(v, f)) == ZoomAbout(v, Position(200.0, 0.0), 0.9)
  {
    var v, f := Viewport(100.0, 0.0, 1.0), Frame(Origin, Size(1000.0, 600.0));
    assert BoardRect(v, f) == Rect(100.0, 0.0, 1000.0, 600.0);
    assert WheelScale(1.0, 100.0) == 0.9;
  }

  /** The wheel zoom as evidently intended: about the pointer in the
      container's coordinates. */
  function WheelAtPointer(v: Viewport, e: WheelEvent, f: Frame): Viewport
    requires v.scale != 0.0
  {
    if QuietWheel(e) then v else ZoomAbout(v, Local(f, e.client), WheelScale(v.scale, e.deltaY))
  }

  /** The intended wheel zoom changes the scale as the handler does and keeps
      the world point under the pointer; it agrees with the handler as
      written whenever the board is not translated. */
  lemma WheelAtPointerSpec(v: Viewport, e: WheelEvent, f: Frame)
    requires v.scale > 0.0
    ensures WheelAtPointer(v, e, f).scale == Wheel(v, e, BoardRect(v, f)).scale
    ensures ScreenToWorld(WheelAtPointer(v, e, f), Local(f, e.client)) == ScreenToWorld(v, Local(f, e.client))
    ensures Translation(v) == Origin ==> WheelAtPointer(v, e, f) == Wheel(v, e, BoardRect(v, f))
  {
    if !QuietWheel(e) {
      ZoomAboutFixesAnchor(v, Local(f, e.client), WheelScale(v.scale, e.deltaY));
    }
  }

  function Min(a: real, b: real): real { if a <= b then a else b }
  function Max(a: real, b: real): real { if a >= b then a else b }

  /** handleZoomIn: 20 % in, capped at the maximum, about half the board
      element's box; nothing without an element. */
  function ZoomIn(v: Viewport, rect: Option<Rect>): (r: Viewport)
    requires v.scale != 0.0
    ensures rect.None? ==> r == v
    ensures rect.Some? ==> r.scale == Min(MaxScale, v.scale * 1.2)
  {
    if rect.None? then v else ZoomAbout(v, HalfSize(rect.value), Min(MaxScale, v.scale * 1.2))
  }

  /** handleZoomOut: 20 % out, floored at the minimum. */
  function ZoomOut(v: Viewport, rect: Option<Rect>): (r: Viewport)
    requires v.scale != 0.0
    ensures rect.None? ==> r == v
    ensures rect.Some? ==> r.scale == Max(MinScale, v.scale * 0.8)
  {
    if rect.None? then v else ZoomAbout(v, HalfSize(rect.value), Max(MinScale, v.scale * 0.8))
  }

  /** Half the board element's box is the visible centre only at scale 1. */
  lemma HalfSizeIsCentre(v: Viewport, f: Frame)
    requires f.size.width > 0.0
    ensures HalfSize(BoardRect(v, f)) == Center(f.size) <==> v.scale == 1.0
  {
    var w, h, k := f.size.width, f.size.height, v.scale;
    assert HalfSize(BoardRect(v, f)) == Position(w * k / 2.0, h * k / 2.0);
    assert Center(f.size) == Position(w / 2.0, h / 2.0);
    HalvesEqual(w, h, k);
  }

  lemma HalvesEqual(w: real, h: real, k: real)
    requires w != 0.0
    ensures Position(w * k / 2.0, h * k / 2.0) == Position(w / 2.0, h / 2.0) <==> k == 1.0
  {
    if w * k / 2.0 == w / 2.0 {
      assert w * (k - 1.0) == 0.0;
    }
  }

  /** The zoom buttons as written hold still the world point at half the
      element's box, (W·s/2, H·s/2); the world point at the visible centre
      stays put only at scale 1 or where the button does not change the
      scale (zoom in at the maximum, zoom out at the minimum). */
  lemma ZoomButtonsKeepCentre(v: Viewport, f: Frame)
    requires v.scale > 0.0 && f.size.width > 0.0
    ensures var h := HalfSize(BoardRect(v, f));
            && ScreenToWorld(ZoomIn(v, Some(BoardRect(v, f))), h) == ScreenToWorld(v, h)
            && ScreenToWorld(ZoomOut(v, Some(BoardRect(v, f))), h) == ScreenToWorld(v, h)
    ensures var c := Center(f.size);
            && (ScreenToWorld(ZoomIn(v, Some(BoardRect(v, f))), c) == ScreenToWorld(v, c) <==>
                  v.scale == 1.0 || v.scale == MaxScale)
            && (ScreenToWorld(ZoomOut(v, Some(BoardRect(v, f))), c) == ScreenToWorld(v, c) <==>
                  v.scale == 1.0 || v.scale == MinScale)
  {
    var h, c := HalfSize(BoardRect(v, f)), Center(f.size);
    var up, down := Min(MaxScale, v.scale * 1.2), Max(MinScale, v.scale * 0.8);
    ZoomAboutFixesAnchor(v, h, up);
    ZoomAboutFixesAnchor(v, h, down);
    ZoomAboutKeeps(v, h, up, c);
    ZoomAboutKeeps(v, h, down, c);
    HalfSizeIsCentre(v, f);
    assert up == v.scale <==> v.scale == MaxScale;
    assert down == v.scale <==> v.scale == MinScale;
  }

  /** The zoom buttons as evidently intended: about the visible centre of
      the container. */
  function ZoomAtCentre(v: Viewport, f: Option<Frame>, s2: real): Viewport
    requires v.scale != 0.0
  {
    if f.None? then v else ZoomAbout(v, Center(f.value.size), s2)
  }

  /** The intended buttons change the scale as the handlers do and keep the
      world point at the visible centre; at scale 1 they agree with the
      handlers as written. */
  lemma ZoomAtCentreSpec(v: Viewport, f: Frame)
    requires v.scale > 0.0 && f.size.width > 0.0
    ensures var up, down := Min(MaxScale, v.scale * 1.2), Max(MinScale, v.scale * 0.8);
            var c := Center(f.size);
            && ScreenToWorld(ZoomAtCentre(v, Some(f), up), c) == ScreenToWorld(v, c)
            && ScreenToWorld(ZoomAtCentre(v, Some(f), down), c) == ScreenToWorld(v, c)
            && (v.scale == 1.0 ==> ZoomAtCentre(v, Some(f), up) == ZoomIn(v, Some(BoardRect(v, f))))
            && (v.scale == 1.0 ==> ZoomAtCentre(v, Some(f), down) == ZoomOut(v, Some(BoardRect(v, f))))
  {
    var up, down := Min(MaxScale, v.scale * 1.2), Max(MinScale, v.scale * 0.8);
    ZoomAboutFixesAnchor(v, Center(f.size), up);
    ZoomAboutFixesAnchor(v, Center(f.size), down);
    HalfSizeIsCentre(v, f);
  }

  // ---------------------------------------------------------------------
  // Panning and centring

  /** The offset captured when panning starts: `client - (x, y)`. */
  function PanStart(v: Viewport, client: Position): Position {
    Sub(client, Position(v.x, v.y))
  }

  function PanTo(v: Viewport, panStart: Position, client: Position): Viewport {
    v.(x := client.x - panStart.x, y := client.y - panStart.y)
  }

  /** While panning, the board follows the pointer: it is translated by the
      pointer's displacement since the press, at the same scale, so
      returning the pointer to where it was pressed restores the viewport. */
  lemma PanFollowsPointer(v: Viewport, press: Position, client: Position)
    ensures var r := PanTo(v, PanStart(v, press), client);
            && r.scale == v.scale
            && r.x == v.x + (client.x - press.x) && r.y == v.y + (client.y - press.y)
    ensures PanTo(v, PanStart(v, press), press) == v
  {
  }

  /** The half size of a paper card, added to its position to find its
      centre. */
  const PaperHalf := Position(75.0, 50.0)

  /** centerOnPaper: place the paper's centre in the middle of the window;
      an unknown id changes nothing. */
  function CenterOnPaper(v: Viewport, cards: seq<Card>, paperId: string, window: Size): (r: Viewport)
    ensures r.scale == v.scale
    ensures !HasId(cards, paperId) ==> r == v
  {
    match FindCard(cards, paperId)
    case None => v
    case Some(paper) => CenterView(v, Add(paper.position, PaperHalf), window)
  }

  /** The viewport at the same scale that shows the world point c at the
      window's centre. */
  function CenterView(v: Viewport, c: Position, window: Size): (r: Viewport)
    ensures r.scale == v.scale
  {
    v.(x := window.width / 2.0 - c.x * v.scale, y := window.height / 2.0 - c.y * v.scale)
  }

  lemma CenterOnPaperSpec(v: Viewport, cards: seq<Card>, paperId: string, window: Size)
    ensures var r := CenterOnPaper(v, cards, paperId, window);
            && r.scale == v.scale
            && (!HasId(cards, paperId) ==> r == v)
            && (HasId(cards, paperId) ==>
                  WorldToScreen(r, Add(FindCard(cards, paperId).value.position, PaperHalf)) == Center(window))
  {
    var found := FindCard(cards, paperId);
    if found.Some? {
      CenteredOn(v, Add(found.value.position, PaperHalf), window);
    }
  }

  /** The centring viewport puts the point at the window's centre. */
  lemma CenteredOn(v: Viewport, c: Position, window: Size)
    ensures WorldToScreen(CenterView(v, c, window), c) == Center(window)
  {
    var r := CenterView(v, c, window);
    assert r.scale == v.scale;
    assert c.x * r.scale + r.x == window.width / 2.0;
    assert c.y * r.scale + r.y == window.height / 2.0;
  }

  /** Every viewport operation keeps the scale within [0.1, 2]. */
  lemma ScaleStaysInRange(v: Viewport, e: WheelEvent, o: Rect, rect: Option<Rect>,
                          press: Position, client: Position, cards: seq<Card>, paperId: string,
                          window: Size, b: Minimap.Bounds, s: real, click: Position)
    requires ScaleOk(v) && s > 0.0
    ensures ScaleOk(Wheel(v, e, o))
    ensures ScaleOk(ZoomIn(v, rect)) && ScaleOk(ZoomOut(v, rect)) && ScaleOk(InitialViewport)
    ensures ScaleOk(PanTo(v, PanStart(v, press), client))
    ensures ScaleOk(CenterOnPaper(v, cards, paperId, window))
    ensures var m := Minimap.MinimapClick(v, BoardBounds, b, s, click); m.Some? ==> ScaleOk(m.value)
  {
  }

  // ---------------------------------------------------------------------
  // Selection

  /** handleCardSelect: with ctrl or meta the card's membership flips;
      without, the card becomes the whole selection. */
  function SelectCard(sel: set<string>, id: string, ctrl: bool): (r: set<string>)
    ensures ctrl ==> (id in r <==> id !in sel)
    ensures ctrl ==> forall o :: o != id ==> (o in r <==> o in sel)
    ensures !ctrl ==> id in r && forall o :: o in r ==> o == id
  {
    if ctrl then (if id in sel then sel - {id} else sel + {id}) else {id}
  }

  /** Two ctrl-clicks on the same card leave the selection as it was. */
  lemma SelectTwice(sel: set<string>, id: string)
    ensures SelectCard(SelectCard(sel, id, true), id, true) == sel
  {
  }

  /** The cards whose id is not in a set. */
  function NotIn(ids: set<string>): Card -> bool {
    (c: Card) => c.id !in ids
  }

  /** Removing one more id from cards already filtered by a set is filtering
      by the larger set. */
  lemma RemoveAfterFilter(cards: seq<Card>, ids: set<string>, id: string)
    ensures RemoveCard(Filter(cards, NotIn(ids)), id) == Filter(cards, NotIn(ids + {id}))
  {
    FilterFilter(cards, NotIn(ids), NotId(id), NotIn(ids + {id}));
  }

  /** After a bulk delete no selected card is left and every other card is
      kept exactly as often as before. */
  lemma BulkDeleteSpec(cards: seq<Card>, ids: set<string>)
    ensures forall c :: multiset(Filter(cards, NotIn(ids)))[c] == if c.id in ids then 0 else multiset(cards)[c]
    ensures forall c :: c in Filter(cards, NotIn(ids)) ==> c.id !in ids
  {
    forall c ensures multiset(Filter(cards, NotIn(ids)))[c] == if c.id in ids then 0 else multiset(cards)[c] {
      FilterCount(cards, NotIn(ids), c);
    }
  }

  /** The colour update a bulk colour change makes to each card. */
  function RecolorIn(ids: set<string>, color: Option<CardColor>): Card -> Card {
    (c: Card) => if c.id in ids then c.(color := color) else c
  }

  /** Recolouring one more id after a set is recolouring the larger set. */
  lemma RecolorStep(cards: seq<Card>, ids: set<string>, id: string, color: Option<CardColor>)
    ensures UpdateCardColor(Map(cards, RecolorIn(ids, color)), id, color) == Map(cards, RecolorIn(ids + {id}, color))
  {
  }

  // ---------------------------------------------------------------------
  // Dropping files

  /** The point 20 right and 20 down per file before it. */
  function Offset(at: Position, i: nat): Position {
    Add(at, Position(20.0 * i as real, 20.0 * i as real))
  }

  /** A card moved by (20i, 20i) in the world is shown 20i·s further right
      and down on screen. */
  lemma OffsetShown(v: Viewport, at: Position, i: nat)
    ensures WorldToScreen(v, Offset(at, i))
              == Add(WorldToScreen(v, at), Position(20.0 * i as real * v.scale, 20.0 * i as real * v.scale))
  {
    var d := 20.0 * i as real;
    var ds := 20.0 * i as real * v.scale;
    var w := WorldToScreen(v, at);
    assert Offset(at, i) == Position(at.x + d, at.y + d);
    ShiftScaled(at.x, d, v.scale, v.x, ds);
    ShiftScaled(at.y, d, v.scale, v.y, ds);
    assert WorldToScreen(v, Offset(at, i)) == Position(w.x + ds, w.y + ds);
  }

  lemma ShiftScaled(a: real, d: real, s: real, t: real, ds: real)
    requires ds == d * s
    ensures (a + d) * s + t == (a * s + t) + ds
  {
  }

  /** handleDrop as written: file i goes to the world point under half the
      board element's box, moved by (20i, 20i). */
  function DropPosition(v: Viewport, rect: Rect, i: nat): (r: Position)
    requires v.scale != 0.0
    ensures v.scale > 0.0 && i == 0 ==> WorldToScreen(v, r) == HalfSize(rect)
    ensures v.scale > 0.0 ==>
              WorldToScreen(v, r) == Add(HalfSize(rect), Position(20.0 * i as real * v.scale, 20.0 * i as real * v.scale))
  {
    var at := ScreenToWorld(v, HalfSize(rect));
    assert Offset(at, 0) == at;
    if v.scale > 0.0 then
      ScreenWorldRoundTrip(v, HalfSize(rect), Origin);
      OffsetShown(v, at, i);
      Offset(at, i)
    else Offset(at, i)
  }

  /** The drop as evidently intended, which the comment above the handler
      describes: at the world point under the visible centre. */
  function DropAtCentre(v: Viewport, f: Frame, i: nat): (r: Position)
    requires v.scale != 0.0
    ensures v.scale > 0.0 && i == 0 ==> WorldToScreen(v, r) == Center(f.size)
    ensures v.scale > 0.0 ==>
              WorldToScreen(v, r) == Add(Center(f.size), Position(20.0 * i as real * v.scale, 20.0 * i as real * v.scale))
  {
    var at := ScreenToWorld(v, Center(f.size));
    assert Offset(at, 0) == at;
    if v.scale > 0.0 then
      ScreenWorldRoundTrip(v, Center(f.size), Origin);
      OffsetShown(v, at, i);
      Offset(at, i)
    else Offset(at, i)
  }

  /** The drop point as written, shown at half the element's box, is the
      visible centre's world point, where the intended one is shown, only
      at scale 1. */
  lemma DropAnchor(v: Viewport, f: Frame)
    requires v.scale > 0.0 && f.size.width > 0.0
    ensures DropPosition(v, BoardRect(v, f), 0) == DropAtCentre(v, f, 0) <==> v.scale == 1.0
  {
    var h, c := HalfSize(BoardRect(v, f)), Center(f.size);
    ScreenWorldRoundTrip(v, h, Origin);
    ScreenWorldRoundTrip(v, c, Origin);
    HalfSizeIsCentre(v, f);
    assert Offset(ScreenToWorld(v, h), 0) == ScreenToWorld(v, h);
    assert Offset(ScreenToWorld(v, c), 0) == ScreenToWorld(v, c);
  }

  /** A dropped file with what its upload takes from outside: the ids the
      clock supplies and whether creating its object URL threw. */
  datatype DroppedFile = DroppedFile(file: FileInfo, uploadId: string, cardId: string, objectUrl: ObjectUrl)

  /** The cards after uploading the dropped files one after the other,
      file i at Offset(at, i). */
  function DropCards(cards: seq<Card>, drops: seq<DroppedFile>, at: Position): seq<Card>
    decreases |drops|
  {
    if drops == [] then cards
    else
      var n := |drops| - 1;
      UploadCards(DropCards(cards, drops[..n], at), drops[n].file, Offset(at, n), drops[n].cardId, drops[n].objectUrl)
  }

  /** The upload list after uploading the dropped files one after the
      other. */
  function DropUploads(uploads: seq<Upload>, drops: seq<DroppedFile>): seq<Upload>
    decreases |drops|
  {
    if drops == [] then uploads
    else
      var n := |drops| - 1;
      UploadEntries(DropUploads(uploads, drops[..n]), drops[n].file, drops[n].uploadId, drops[n].objectUrl)
  }

  /** The cards the dropped files add, in drop order: one per file whose
      object URL was created. */
  function DroppedCards(drops: seq<DroppedFile>, at: Position): seq<Card>
    decreases |drops|
  {
    if drops == [] then []
    else
      var n := |drops| - 1;
      var d := drops[n];
      DroppedCards(drops[..n], at) + (if d.objectUrl.Url? then [DroppedCard(d, at, n)] else [])
  }

  /** The card of the i-th dropped file, whose object URL was created. */
  function DroppedCard(d: DroppedFile, at: Position, i: nat): (c: Card)
    requires d.objectUrl.Url?
    ensures c.id == d.cardId && c.position == Offset(at, i)
  {
    NewCard(FileCardDraft(d.file, d.objectUrl.url, Offset(at, i)), d.cardId)
  }

  /** A drop keeps the board's cards in front and appends the cards of the
      files that uploaded, in drop order. */
  lemma {:induction false} DropCardsSpec(cards: seq<Card>, drops: seq<DroppedFile>, at: Position)
    ensures DropCards(cards, drops, at) == cards + DroppedCards(drops, at)
    decreases |drops|
  {
    if drops != [] {
      var n := |drops| - 1;
      DropCardsSpec(cards, drops[..n], at);
    }
  }

  /** When every upload succeeds, file i's card has the id given to it and
      sits at Offset(at, i). */
  lemma {:induction false} DroppedCardsPlaced(drops: seq<DroppedFile>, at: Position)
    requires forall i :: 0 <= i < |drops| ==> drops[i].objectUrl.Url?
    ensures |DroppedCards(drops, at)| == |drops|
    ensures forall i :: 0 <= i < |drops| ==>
              DroppedCards(drops, at)[i].id == drops[i].cardId && DroppedCards(drops, at)[i].position == Offset(at, i)
    decreases |drops|
  {
    if drops != [] {
      var n := |drops| - 1;
      var d := drops[n];
      var prefix := drops[..n];
      assert prefix + [d] == drops;
      DroppedCardsPlaced(prefix, at);
      PlacedStep(prefix, d, at, DroppedCards(prefix, at), DroppedCard(d, at, n));
    }
  }

  /** One step of DroppedCardsPlaced: the card c for d appended after the
      cards of prefix. */
  lemma PlacedStep(prefix: seq<DroppedFile>, d: DroppedFile, at: Position, prev: seq<Card>, c: Card)
    requires |prev| == |prefix|
    requires forall i :: 0 <= i < |prefix| ==> prev[i].id == prefix[i].cardId && prev[i].position == Offset(at, i)
    requires c.id == d.cardId && c.position == Offset(at, |prefix|)
    ensures var drops, r := prefix + [d], prev + [c];
            forall i :: 0 <= i < |drops| ==> r[i].id == drops[i].cardId && r[i].position == Offset(at, i)
  {
    var drops, r := prefix + [d], prev + [c];
    forall i | 0 <= i < |drops|
      ensures r[i].id == drops[i].cardId && r[i].position == Offset(at, i)
    {
      if i < |prefix| {
        assert r[i] == prev[i] && drops[i] == prefix[i];
      }
    }
  }

  /** A drop registers one upload entry per file, in drop order. */
  lemma {:induction false} DropUploadsIds(uploads: seq<Upload>, drops: seq<DroppedFile>)
    ensures var r := DropUploads(uploads, drops);
            && |r| == |uploads| + |drops|
            && (forall i :: 0 <= i < |uploads| ==> r[i].id == uploads[i].id)
            && (forall i :: 0 <= i < |drops| ==> r[|uploads| + i].id == drops[i].uploadId)
    decreases |drops|
  {
    if drops != [] {
      var n := |drops| - 1;
      var prefix := drops[..n];
      assert prefix + [drops[n]] == drops;
      DropUploadsIds(uploads, prefix);
      var prev := DropUploads(uploads, prefix);
      UploadEntriesSpec(prev, drops[n].file, drops[n].uploadId, drops[n].objectUrl);
      IdsStep(uploads, prefix, drops[n], prev, DropUploads(uploads, drops));
    }
  }

  /** One step of DropUploadsIds: an entry appended for d after the entries
      of prefix. */
  lemma IdsStep(uploads: seq<Upload>, prefix: seq<DroppedFile>, d: DroppedFile, prev: seq<Upload>, r: seq<Upload>)
    requires |prev| == |uploads| + |prefix|
    requires forall i :: 0 <= i < |uploads| ==> prev[i].id == uploads[i].id
    requires forall i :: 0 <= i < |prefix| ==> prev[|uploads| + i].id == prefix[i].uploadId
    requires |r| == |prev| + 1 && r[|prev|].id == d.uploadId
    requires forall i :: 0 <= i < |prev| ==> r[i].id == prev[i].id
    ensures var drops := prefix + [d];
            && |r| == |uploads| + |drops|
            && (forall i :: 0 <= i < |uploads| ==> r[i].id == uploads[i].id)
            && (forall i :: 0 <= i < |drops| ==> r[|uploads| + i].id == drops[i].uploadId)
  {
    var drops := prefix + [d];
    forall i | 0 <= i < |drops|
      ensures r[|uploads| + i].id == drops[i].uploadId
    {
      if i < |prefix| {
        assert drops[i] == prefix[i];
        assert r[|uploads| + i].id == prev[|uploads| + i].id;
      }
    }
  }

  /** A drop leaves every earlier upload entry whose id no dropped file
      reuses as it was. */
  lemma {:induction false} DropUploadsKeep(uploads: seq<Upload>, drops: seq<DroppedFile>, i: nat)
    requires i < |uploads| && forall k :: 0 <= k < |drops| ==> drops[k].uploadId != uploads[i].id
    ensures i < |DropUploads(uploads, drops)| && DropUploads(uploads, drops)[i] == uploads[i]
    decreases |drops|
  {
    if drops != [] {
      var n := |drops| - 1;
      var prefix := drops[..n];
      assert forall k :: 0 <= k < n ==> prefix[k] == drops[k];
      DropUploadsKeep(uploads, prefix, i);
      var prev := DropUploads(uploads, prefix);
      assert DropUploads(uploads, drops) == UploadEntries(prev, drops[n].file, drops[n].uploadId, drops[n].objectUrl);
      UploadEntriesSpec(prev, drops[n].file, drops[n].uploadId, drops[n].objectUrl);
    }
  }

  // ---------------------------------------------------------------------
  // The board component's state

  class BoardController {
    var viewport: Viewport
    var isPanning: bool
    var panStart: Position
    var selected: set<string>
    const store: UseBoard.BoardHook

    predicate Valid()
      reads this
    {
      ScaleOk(viewport)
    }

    constructor(store: UseBoard.BoardHook)
      ensures Valid()
      ensures viewport == InitialViewport && !isPanning && panStart == Origin && selected == {}
      ensures this.store == store
    {
      viewport := InitialViewport;
      isPanning := false;
      panStart := Origin;
      selected := {};
      this.store := store;
    }

    method CardSelect(id: string, ctrl: bool)
      requires Valid()
      modifies this
      ensures Valid()
      ensures selected == SelectCard(old(selected), id, ctrl)
      ensures viewport == old(viewport) && isPanning == old(isPanning) && panStart == old(panStart)
    {
      selected := SelectCard(selected, id, ctrl);
    }

    method ClearSelection()
      requires Valid()
      modifies this
      ensures Valid()
      ensures selected == {}
      ensures viewport == old(viewport) && isPanning == old(isPanning) && panStart == old(panStart)
    {
      selected := {};
    }

    /** Escape clears the selection; other keys do nothing. */
    method KeyDown(key: string)
      requires Valid()
      modifies this
      ensures Valid()
      ensures selected == if key == "Escape" then {} else old(selected)
      ensures viewport == old(viewport) && isPanning == old(isPanning) && panStart == old(panStart)
    {
      if key == "Escape" {
        ClearSelection();
      }
    }

    /** A press outside the board clears the selection, unless it lands on
        a toolbar. */
    method DocumentMouseDown(onToolbar: bool, insideBoard: bool)
      requires Valid()
      modifies this
      ensures Valid()
      ensures selected == if !onToolbar && !insideBoard then {} else old(selected)
      ensures viewport == old(viewport) && isPanning == old(isPanning) && panStart == old(panStart)
    {
      if onToolbar {
        return;
      }
      if !insideBoard {
        ClearSelection();
      }
    }

    /** A click on the canvas itself, not on a card, clears the selection. */
    method CanvasClick(onCanvasItself: bool)
      requires Valid()
      modifies this
      ensures Valid()
      ensures selected == if onCanvasItself then {} else old(selected)
      ensures viewport == old(viewport) && isPanning == old(isPanning) && panStart == old(panStart)
    {
      if onCanvasItself {
        ClearSelection();
      }
    }

    /** handleBulkDelete: remove each selected card from the store, then
        empty the selection. */
    method BulkDelete()
      requires Valid()
      modifies this, store
      ensures Valid()
      ensures store.board == old(store.board).(cards := Filter(old(store.board.cards), NotIn(old(selected))))
      ensures store.search == old(store.search) && store.uploads == old(store.uploads)
      ensures selected == {}
      ensures viewport == old(viewport) && isPanning == old(isPanning) && panStart == old(panStart)
    {
      var cards0 := store.board.cards;
      var rest := selected;
      ghost var done: set<string> := {};
      FilterAll(cards0, NotIn({}));
      while rest != {}
        invariant done + rest == old(selected) && done !! rest
        invariant store.board == old(store.board).(cards := Filter(cards0, NotIn(done)))
        invariant store.search == old(store.search) && store.uploads == old(store.uploads)
        invariant viewport == old(viewport) && isPanning == old(isPanning) && panStart == old(panStart)
        invariant selected == old(selected)
        decreases rest
      {
        var id :| id in rest;
        RemoveAfterFilter(cards0, done, id);
        store.RemoveCard(id);
        done := done + {id};
        rest := rest - {id};
      }
      selected := {};
    }

    /** handleBulkColorChange: recolour each selected card in the store. */
    method BulkColorChange(color: Option<CardColor>)
      requires Valid()
      modifies store
      ensures store.board == old(store.board).(cards := Map(old(store.board.cards), RecolorIn(selected, color)))
      ensures store.search == old(store.search) && store.uploads == old(store.uploads)
    {
      var cards0 := store.board.cards;
      var rest := selected;
      ghost var done: set<string> := {};
      assert Map(cards0, RecolorIn({}, color)) == cards0;
      while rest != {}
        invariant done + rest == selected && done !! rest
        invariant store.board == old(store.board).(cards := Map(cards0, RecolorIn(done, color)))
        invariant store.search == old(store.search) && store.uploads == old(store.uploads)
        decreases rest
      {
        var id :| id in rest;
        RecolorStep(cards0, done, id, color);
        store.UpdateCardColor(id, color);
        done := done + {id};
        rest := rest - {id};
      }
    }

    /** handlePositionChange: a card dragged to screen point p is stored at
        the world point under p. */
    method PositionChange(id: string, p: Position)
      requires Valid()
      modifies store
      ensures store.board == old(store.board).(cards := UpdateCardPosition(old(store.board.cards), id, ScreenToWorld(viewport, p)))
      ensures store.search == old(store.search) && store.uploads == old(store.uploads)
    {
      store.UpdateCardPosition(id, ScreenToWorld(viewport, p));
    }

    /** handleFileUpload: upload a file to the world point under screen
        point p. */
    method FileUpload(f: FileInfo, p: Position, uploadId: string, cardId: string, objectUrl: ObjectUrl)
      returns (progress: seq<real>)
      requires Valid()
      modifies store
      ensures objectUrl.Url? ==>
                store.board == old(store.board).(cards := AddCard(old(store.board.cards),
                                                   FileCardDraft(f, objectUrl.url, ScreenToWorld(viewport, p)), cardId))
      ensures objectUrl.Thrown? ==> store.board == old(store.board)
      ensures store.uploads == UploadEntries(old(store.uploads), f, uploadId, objectUrl)
      ensures store.search == old(store.search)
      ensures |progress| == ProgressSteps + 1
      ensures forall i :: 0 <= i < |progress| ==> progress[i] == Progress(i)
    {
      progress := store.AddFileCard(f, ScreenToWorld(viewport, p), uploadId, cardId, objectUrl);
    }

    /** handleDrop: nothing for an empty drop or a missing element;
        otherwise each file is uploaded, in the order dropped, to
        DropPosition of the element's box. */
    method Drop(drops: seq<DroppedFile>, f: Option<Frame>)
      requires Valid()
      modifies store
      ensures |drops| == 0 || f.None? ==> store.board == old(store.board) && store.uploads == old(store.uploads)
      ensures |drops| > 0 && f.Some? ==>
                var at := DropPosition(viewport, BoardRect(viewport, f.value), 0);
                && store.board == old(store.board).(cards := DropCards(old(store.board.cards), drops, at))
                && store.uploads == DropUploads(old(store.uploads), drops)
      ensures store.search == old(store.search)
    {
      if |drops| == 0 || f.None? {
        return;
      }
      var world := ScreenToWorld(viewport, HalfSize(BoardRect(viewport, f.value)));
      assert world == DropPosition(viewport, BoardRect(viewport, f.value), 0);
      var i := 0;
      while i < |drops|
        invariant 0 <= i <= |drops|
        invariant store.board == old(store.board).(cards := DropCards(old(store.board.cards), drops[..i], world))
        invariant store.uploads == DropUploads(old(store.uploads), drops[..i])
        invariant store.search == old(store.search)
      {
        var d := drops[i];
        assert drops[..i + 1][..i] == drops[..i];
        var progress := store.AddFileCard(d.file, Offset(world, i), d.uploadId, d.cardId, d.objectUrl);
        i := i + 1;
      }
      assert drops[..|drops|] == drops;
    }

    /** handleMouseDown: the middle and right buttons are ignored; a press on
        the board element itself starts panning. */
    method MouseDown(button: int, onBoard: bool, client: Position)
      requires Valid()
      modifies this
      ensures Valid()
      ensures button == 1 || button == 2 || !onBoard ==>
                isPanning == old(isPanning) && panStart == old(panStart)
      ensures button != 1 && button != 2 && onBoard ==>
                isPanning && panStart == PanStart(viewport, client)
      ensures viewport == old(viewport) && selected == old(selected)
    {
      if button == 1 || button == 2 {
        return;
      }
      if onBoard {
        isPanning := true;
        panStart := PanStart(viewport, client);
      }
    }

    method MouseMove(client: Position)
      requires Valid()
      modifies this
      ensures Valid()
      ensures viewport == if old(isPanning) then PanTo(old(viewport), panStart, client) else old(viewport)
      ensures isPanning == old(isPanning) && panStart == old(panStart) && selected == old(selected)
    {
      if isPanning {
        viewport := PanTo(viewport, panStart, client);
      }
    }

    method MouseUp()
      requires Valid()
      modifies this
      ensures Valid()
      ensures !isPanning
      ensures viewport == old(viewport) && panStart == old(panStart) && selected == old(selected)
    {
      isPanning := false;
    }

    /** The wheel listener, reading the box of the board element inside
        the container f. */
    method WheelZoom(e: WheelEvent, f: Frame)
      requires Valid()
      modifies this
      ensures Valid()
      ensures viewport == Wheel(old(viewport), e, BoardRect(old(viewport), f))
      ensures isPanning == old(isPanning) && panStart == old(panStart) && selected == old(selected)
    {
      viewport := Wheel(viewport, e, BoardRect(viewport, f));
    }

    method ZoomInButton(f: Option<Frame>)
      requires Valid()
      modifies this
      ensures Valid()
      ensures viewport == ZoomIn(old(viewport), MountedRect(old(viewport), f))
      ensures isPanning == old(isPanning) && panStart == old(panStart) && selected == old(selected)
    {
      viewport := ZoomIn(viewport, MountedRect(viewport, f));
    }

    method ZoomOutButton(f: Option<Frame>)
      requires Valid()
      modifies this
      ensures Valid()
      ensures viewport == ZoomOut(old(viewport), MountedRect(old(viewport), f))
      ensures isPanning == old(isPanning) && panStart == old(panStart) && selected == old(selected)
    {
      viewport := ZoomOut(viewport, MountedRect(viewport, f));
    }

    method ZoomReset()
      requires Valid()
      modifies this
      ensures Valid()
      ensures viewport == InitialViewport
      ensures isPanning == old(isPanning) && panStart == old(panStart) && selected == old(selected)
    {
      viewport := InitialViewport;
    }

    /** The centerOnPaper window event. */
    method CenterOn(paperId: string, window: Size)
      requires Valid()
      modifies this
      ensures Valid()
      ensures viewport == CenterOnPaper(old(viewport), store.board.cards, paperId, window)
      ensures isPanning == old(isPanning) && panStart == old(panStart) && selected == old(selected)
    {
      viewport := CenterOnPaper(viewport, store.board.cards, paperId, window);
    }

    /** A click on the minimap, which receives the board's cards, the
        viewport and the fixed board bounds. */
    method MinimapClick(click: Position)
      requires Valid()
      modifies this
      ensures Valid()
      ensures var cards := store.board.cards;
              var m := Minimap.MinimapClick(old(viewport), BoardBounds, Minimap.ContentBoundsOf(cards),
                                            Minimap.CardsScale(cards), click);
              viewport == if m.Some? then m.value else old(viewport)
      ensures isPanning == old(isPanning) && panStart == old(panStart) && selected == old(selected)
    {
      var cards := store.board.cards;
      var m := Minimap.MinimapClick(viewport, BoardBounds, Minimap.ContentBoundsOf(cards),
                                    Minimap.CardsScale(cards), click);
      if m.Some? {
        viewport := m.value;
      }
    }
  }
}
