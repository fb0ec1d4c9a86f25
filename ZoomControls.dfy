/** The zoom control bar: the zoom percentage and whether the zoom-in and
    zoom-out buttons are enabled. */
module ZoomControls {
  import opened BoardTypes
  import opened Numbers
  import BoardView

  /** The optional `minZoom` and `maxZoom` props. */
  datatype ZoomBounds = ZoomBounds(minZoom: Option<real>, maxZoom: Option<real>)

  const DefaultMinZoom := 0.1
  const DefaultMaxZoom := 2.0

  function MinZoom(b: ZoomBounds): real {
    if b.minZoom.Some? then b.minZoom.value else DefaultMinZoom
  }

  function MaxZoom(b: ZoomBounds): real {
    if b.maxZoom.Some? then b.maxZoom.value else DefaultMaxZoom
  }

  /** The bounds the board passes, which are the board's own scale limits. */
  const BoardZoomBounds := ZoomBounds(Some(0.1), Some(2.0))

  /** The label: the scale as a whole percentage, rounded to nearest. */
  function Percentage(scale: real): (r: int)
    ensures r as real - 0.5 <= scale * 100.0 < r as real + 0.5
  {
    JsRound(scale * 100.0)
  }

  predicate CanZoomIn(scale: real, b: ZoomBounds) {
    scale < MaxZoom(b)
  }

  predicate CanZoomOut(scale: real, b: ZoomBounds) {
    scale > MinZoom(b)
  }

  /** What the bar shows: the percentage label and which buttons are
      disabled. */
  datatype Controls = Controls(percentage: int, zoomInDisabled: bool, zoomOutDisabled: bool)

  function Render(scale: real, b: ZoomBounds): (r: Controls)
    ensures r.zoomInDisabled <==> scale >= MaxZoom(b)
    ensures r.zoomOutDisabled <==> scale <= MinZoom(b)
    ensures r.percentage as real - 0.5 <= scale * 100.0 < r.percentage as real + 0.5
  {
    Controls(Percentage(scale), !CanZoomIn(scale, b), !CanZoomOut(scale, b))
  }

  /** Omitted bounds are the board's own, and the board passes those same
      bounds. */
  lemma DefaultsAreBoardLimits()
    ensures MinZoom(ZoomBounds(None, None)) == BoardView.MinScale
    ensures MaxZoom(ZoomBounds(None, None)) == BoardView.MaxScale
    ensures MinZoom(BoardZoomBounds) == BoardView.MinScale && MaxZoom(BoardZoomBounds) == BoardView.MaxScale
  {
  }

  /** Within the board's limits the label runs from 10 to 200, and the
      reset scale reads 100. */
  lemma PercentageRange(scale: real)
    requires BoardView.MinScale <= scale <= BoardView.MaxScale
    ensures 10 <= Percentage(scale) <= 200
    ensures scale == 1.0 ==> Percentage(scale) == 100
  {
  }

  /** With the board's bounds, each button is enabled exactly when its
      handler would change the viewport: the zoom-in handler is a no-op at
      the maximum scale and moves the viewport below it, and likewise for
      zoom-out at the minimum. */
  lemma ButtonsMatchHandlers(v: Viewport, rect: BoardView.Rect)
    requires BoardView.ScaleOk(v)
    ensures CanZoomIn(v.scale, BoardZoomBounds) <==> BoardView.ZoomIn(v, Some(rect)) != v
    ensures CanZoomOut(v.scale, BoardZoomBounds) <==> BoardView.ZoomOut(v, Some(rect)) != v
  {
    var c := BoardView.HalfSize(rect);
    if !CanZoomIn(v.scale, BoardZoomBounds) {
      BoardView.ZoomAboutSameScale(v, c);
    } else {
      assert BoardView.ZoomIn(v, Some(rect)).scale > v.scale;
    }
    if !CanZoomOut(v.scale, BoardZoomBounds) {
      BoardView.ZoomAboutSameScale(v, c);
    } else {
      assert BoardView.ZoomOut(v, Some(rect)).scale < v.scale;
    }
  }
}
