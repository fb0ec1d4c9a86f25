/** The minimap: a 120 x 100 picture of the board in which every card is a
    dot, the visible part of the board is a rectangle, and a click moves the
    viewport so that the clicked world point is centred. */
module Minimap {
  import opened BoardTypes
  import opened Seqs

  const MinimapWidth := 120.0
  const MinimapHeight := 100.0
  const Margin := 500.0

  /** The world rectangle the minimap shows. */
  datatype Bounds = Bounds(minX: real, maxX: real, minY: real, maxY: real)

  const EmptyBounds := Bounds(-1000.0, 1000.0, -1000.0, 1000.0)

  function Min(a: real, b: real): real { if a <= b then a else b }
  function Max(a: real, b: real): real { if a >= b then a else b }

  /** The box widened, where needed, to take in p. */
  function Grow(b: Bounds, p: Position): Bounds {
    Bounds(Min(b.minX, p.x), Max(b.maxX, p.x), Min(b.minY, p.y), Max(b.maxY, p.y))
  }

  /** The smallest box around the card positions, folded from the left as
      the forEach does it. */
  function Box(cards: seq<Card>): Bounds
    requires |cards| > 0
  {
    var p := cards[|cards| - 1].position;
    if |cards| == 1 then Bounds(p.x, p.x, p.y, p.y) else Grow(Box(cards[..|cards| - 1]), p)
  }

  predicate Holds(b: Bounds, p: Position) {
    b.minX <= p.x <= b.maxX && b.minY <= p.y <= b.maxY
  }

  /** Some card lies on each edge of the box. */
  predicate Tight(b: Bounds, cards: seq<Card>) {
    && (exists i :: 0 <= i < |cards| && cards[i].position.x == b.minX)
    && (exists i :: 0 <= i < |cards| && cards[i].position.x == b.maxX)
    && (exists i :: 0 <= i < |cards| && cards[i].position.y == b.minY)
    && (exists i :: 0 <= i < |cards| && cards[i].position.y == b.maxY)
  }

  /** The folded box holds every card and is tight. */
  lemma {:induction false} BoxSpec(cards: seq<Card>)
    requires |cards| > 0
    ensures forall i :: 0 <= i < |cards| ==> Holds(Box(cards), cards[i].position)
    ensures Tight(Box(cards), cards)
  {
    var n := |cards| - 1;
    if n > 0 {
      var init := cards[..n];
      BoxSpec(init);
      assert forall i :: 0 <= i < n ==> init[i] == cards[i];
      TightGrow(Box(init), init, cards);
    }
  }

  lemma TightGrow(b: Bounds, init: seq<Card>, cards: seq<Card>)
    requires |cards| == |init| + 1 && init == cards[..|init|]
    requires Tight(b, init)
    ensures Tight(Grow(b, cards[|init|].position), cards)
  {
    var g, p := Grow(b, cards[|init|].position), cards[|init|].position;
    var i1 :| 0 <= i1 < |init| && init[i1].position.x == b.minX;
    var i2 :| 0 <= i2 < |init| && init[i2].position.x == b.maxX;
    var i3 :| 0 <= i3 < |init| && init[i3].position.y == b.minY;
    var i4 :| 0 <= i4 < |init| && init[i4].position.y == b.maxY;
    var n := |init|;
    assert cards[if g.minX == p.x then n else i1].position.x == g.minX;
    assert cards[if g.maxX == p.x then n else i2].position.x == g.maxX;
    assert cards[if g.minY == p.y then n else i3].position.y == g.minY;
    assert cards[if g.maxY == p.y then n else i4].position.y == g.maxY;
  }

  /** contentBounds: the fixed square for an empty board, otherwise the
      box around the card positions widened by the margin on every side. */
  function ContentBoundsOf(cards: seq<Card>): (r: Bounds)
    ensures forall i :: 0 <= i < |cards| ==> Holds(r, cards[i].position)
  {
    if |cards| == 0 then EmptyBounds
    else
      BoxSpec(cards);
      var b := Box(cards);
      Bounds(b.minX - Margin, b.maxX + Margin, b.minY - Margin, b.maxY + Margin)
  }

  /** The forEach that computes the box: each card lowers the minima and
      raises the maxima. The running values start at the first card, which
      is what the first step yields from the infinite start values. */
  method ContentBounds(cards: seq<Card>) returns (b: Bounds)
    ensures b == ContentBoundsOf(cards)
  {
    if |cards| == 0 {
      return EmptyBounds;
    }
    var p := cards[0].position;
    var minX, maxX, minY, maxY := p.x, p.x, p.y, p.y;
    var i := 0;
    while i < |cards|
      invariant 0 <= i <= |cards|
      invariant i > 0 ==> Bounds(minX, maxX, minY, maxY) == Box(cards[..i])
      invariant i == 0 ==> Bounds(minX, maxX, minY, maxY) == Bounds(p.x, p.x, p.y, p.y)
    {
      var q := cards[i].position;
      minX := Min(minX, q.x);
      maxX := Max(maxX, q.x);
      minY := Min(minY, q.y);
      maxY := Max(maxY, q.y);
      assert cards[..i + 1][..i] == cards[..i];
      i := i + 1;
    }
    assert cards[..|cards|] == cards;
    b := Bounds(minX - Margin, maxX + Margin, minY - Margin, maxY + Margin);
  }

  /** The box holds every card at least a margin inside each edge, some
      card touches each inner edge, and it is at least 1000 wide and high. */
  lemma ContentBoundsSpec(cards: seq<Card>)
    ensures var b := ContentBoundsOf(cards);
            && b.maxX - b.minX >= 1000.0 && b.maxY - b.minY >= 1000.0
            && (forall i :: 0 <= i < |cards| ==>
                  b.minX + Margin <= cards[i].position.x <= b.maxX - Margin
                  && b.minY + Margin <= cards[i].position.y <= b.maxY - Margin)
            && (|cards| > 0 ==> Tight(Box(cards), cards))
  {
    if |cards| > 0 {
      BoxSpec(cards);
      assert Holds(Box(cards), cards[0].position);
    }
  }

  /** The projection scale: one factor for both axes, the largest that
      fits the content into the minimap. */
  function ProjectionScale(b: Bounds): (s: real)
    requires b.maxX - b.minX > 0.0 && b.maxY - b.minY > 0.0
    ensures s > 0.0
    ensures (b.maxX - b.minX) * s <= MinimapWidth && (b.maxY - b.minY) * s <= MinimapHeight
    ensures (b.maxX - b.minX) * s == MinimapWidth || (b.maxY - b.minY) * s == MinimapHeight
  {
    var w, h := b.maxX - b.minX, b.maxY - b.minY;
    Min(MinimapWidth / w, MinimapHeight / h)
  }

  /** The scale the minimap uses for a board's cards. */
  function CardsScale(cards: seq<Card>): (s: real)
    ensures s > 0.0
  {
    ContentBoundsSpec(cards);
    ProjectionScale(ContentBoundsOf(cards))
  }

  function WorldToMinimap(b: Bounds, s: real, p: Position): Position {
    Position((p.x - b.minX) * s, (p.y - b.minY) * s)
  }

  function MinimapToWorld(b: Bounds, s: real, q: Position): Position
    requires s != 0.0
  {
    Position(q.x / s + b.minX, q.y / s + b.minY)
  }

  /** The two maps are exact inverses of each other. */
  lemma MinimapRoundTrip(b: Bounds, s: real, p: Position, q: Position)
    requires s > 0.0
    ensures MinimapToWorld(b, s, WorldToMinimap(b, s, p)) == p
    ensures WorldToMinimap(b, s, MinimapToWorld(b, s, q)) == q
  {
    assert (p.x - b.minX) * s / s == p.x - b.minX;
    assert (p.y - b.minY) * s / s == p.y - b.minY;
  }

  datatype Rect = Rect(x: real, y: real, width: real, height: real)

  /** viewportRect: the visible part of the board drawn in the minimap,
      pushed inside it and cut to its size. */
  function ViewportRect(v: Viewport, board: Size, b: Bounds, s: real): (r: Rect)
    requires v.scale > 0.0
    ensures 0.0 <= r.x && 0.0 <= r.y && r.width <= MinimapWidth && r.height <= MinimapHeight
  {
    var corner := WorldToMinimap(b, s, Position(-v.x / v.scale, -v.y / v.scale));
    var width := board.width / v.scale * s;
    var height := board.height / v.scale * s;
    Rect(Max(0.0, Min(corner.x, MinimapWidth - width)),
         Max(0.0, Min(corner.y, MinimapHeight - height)),
         Min(width, MinimapWidth),
         Min(height, MinimapHeight))
  }

  /** The indicator always lies inside the minimap. */
  lemma ViewportRectInside(v: Viewport, board: Size, b: Bounds, s: real)
    requires v.scale > 0.0 && s > 0.0 && board.width >= 0.0 && board.height >= 0.0
    ensures var r := ViewportRect(v, board, b, s);
            && 0.0 <= r.x && 0.0 <= r.y
            && 0.0 <= r.width <= MinimapWidth && 0.0 <= r.height <= MinimapHeight
            && r.x + r.width <= MinimapWidth && r.y + r.height <= MinimapHeight
  {
    NonNegQuotientTimes(board.width, v.scale, s);
    NonNegQuotientTimes(board.height, v.scale, s);
  }

  lemma NonNegQuotientTimes(a: real, d: real, s: real)
    requires a >= 0.0 && d > 0.0 && s > 0.0
    ensures a / d * s >= 0.0
  {
    assert a / d >= 0.0;
  }

  /** handleMinimapClick: a click outside the minimap is ignored; otherwise
      the viewport keeps its scale and moves the clicked world point to the
      centre of the board. */
  function MinimapClick(v: Viewport, board: Size, b: Bounds, s: real, click: Position): (r: Option<Viewport>)
    requires s != 0.0
    ensures r.None? <==> !(0.0 <= click.x <= MinimapWidth && 0.0 <= click.y <= MinimapHeight)
    ensures r.Some? ==> r.value.scale == v.scale
  {
    if click.x < 0.0 || click.x > MinimapWidth || click.y < 0.0 || click.y > MinimapHeight then None
    else
      var w := MinimapToWorld(b, s, click);
      Some(Viewport(-w.x * v.scale + board.width / 2.0, -w.y * v.scale + board.height / 2.0, v.scale))
  }

  lemma MinimapClickSpec(v: Viewport, board: Size, b: Bounds, s: real, click: Position)
    requires s > 0.0
    ensures var r := MinimapClick(v, board, b, s, click);
            && (r.None? <==> !(0.0 <= click.x <= MinimapWidth && 0.0 <= click.y <= MinimapHeight))
            && (r.Some? ==>
                  var w := MinimapToWorld(b, s, click);
                  && r.value.scale == v.scale
                  && w.x * r.value.scale + r.value.x == board.width / 2.0
                  && w.y * r.value.scale + r.value.y == board.height / 2.0)
  {
  }

  /** A dot is drawn when its projection lies at most 5 outside the map. */
  predicate DotVisible(q: Position) {
    -5.0 <= q.x <= MinimapWidth + 5.0 && -5.0 <= q.y <= MinimapHeight + 5.0
  }

  /** With the bounds and scale the minimap computes from the cards, every
      card's dot falls inside the map, so the culling never hides one. */
  lemma EveryDotVisible(cards: seq<Card>, i: int)
    requires 0 <= i < |cards|
    ensures DotVisible(WorldToMinimap(ContentBoundsOf(cards), CardsScale(cards), cards[i].position))
  {
    var b := ContentBoundsOf(cards);
    BoxSpec(cards);
    assert Holds(Box(cards), cards[i].position);
    PointInside(b, cards[i].position);
  }

  /** A point of the shown box projects into the minimap. */
  lemma PointInside(b: Bounds, p: Position)
    requires b.minX <= p.x <= b.maxX && b.minY <= p.y <= b.maxY
    requires b.maxX - b.minX > 0.0 && b.maxY - b.minY > 0.0
    ensures var q := WorldToMinimap(b, ProjectionScale(b), p);
            0.0 <= q.x <= MinimapWidth && 0.0 <= q.y <= MinimapHeight
  {
    var s := ProjectionScale(b);
    ScaledWithin(p.x - b.minX, b.maxX - b.minX, s, MinimapWidth);
    ScaledWithin(p.y - b.minY, b.maxY - b.minY, s, MinimapHeight);
  }

  lemma ScaledWithin(a: real, w: real, s: real, limit: real)
    requires 0.0 <= a <= w && s > 0.0 && w * s <= limit
    ensures 0.0 <= a * s <= limit
  {
    assert a * s <= w * s;
  }
}
