/** The grid overlay: vertical and horizontal lines, one grid cell apart on
    screen, laid out from the viewport's offset across the board. */
module GridOverlay {
  import opened BoardTypes
  import opened Numbers

  /** An SVG line from (x1, y1) to (x2, y2), in screen coordinates. */
  datatype Line = Line(x1: real, y1: real, x2: real, y2: real)

  function VerticalLine(x: real, board: Size): Line {
    Line(x, 0.0, x, board.height)
  }

  function HorizontalLine(y: real, board: Size): Line {
    Line(0.0, y, board.width, y)
  }

  /** The k-th coordinate of a run that starts at `start`, reached by adding
      the step k times as the loops do. */
  function Tick(start: real, step: real, k: nat): real {
    if k == 0 then start else Tick(start, step, k - 1) + step
  }

  /** A run of n steps stops at the first coordinate that reaches the bound. */
  predicate Stops(n: nat, start: real, step: real, bound: real) {
    Tick(start, step, n) >= bound && (n > 0 ==> Tick(start, step, n - 1) < bound)
  }

  /** ls are the vertical lines at offsetX, offsetX + step, … up to, not
      including, the first that reaches the board's width; each spans the
      board's height. */
  predicate VerticalRun(ls: seq<Line>, offsetX: real, step: real, board: Size) {
    && Stops(|ls|, offsetX, step, board.width)
    && forall k :: 0 <= k < |ls| ==> ls[k] == VerticalLine(Tick(offsetX, step, k), board)
  }

  /** The same for horizontal lines, which span the board's width. */
  predicate HorizontalRun(ls: seq<Line>, offsetY: real, step: real, board: Size) {
    && Stops(|ls|, offsetY, step, board.height)
    && forall k :: 0 <= k < |ls| ==> ls[k] == HorizontalLine(Tick(offsetY, step, k), board)
  }

  /** All vertical lines, then all horizontal ones. */
  predicate GridLines(lines: seq<Line>, offsetX: real, offsetY: real, step: real, board: Size) {
    exists nv :: 0 <= nv <= |lines|
      && VerticalRun(lines[..nv], offsetX, step, board)
      && HorizontalRun(lines[nv..], offsetY, step, board)
  }

  /** scaledGridSize: one grid cell on screen. */
  function ScaledGridSize(gridSize: real, v: Viewport): real {
    gridSize * v.scale
  }

  /** generateGridLines: the vertical loop, then the horizontal loop, both
      pushing onto one list. They end only for a positive step. */
  method GenerateGridLines(offsetX: real, offsetY: real, step: real, board: Size) returns (lines: seq<Line>)
    requires step > 0.0
    ensures GridLines(lines, offsetX, offsetY, step, board)
  {
    var vertical := VerticalLines(offsetX, step, board);
    var horizontal := HorizontalLines(offsetY, step, board);
    lines := vertical + horizontal;
    assert lines[..|vertical|] == vertical && lines[|vertical|..] == horizontal;
  }

  /** The first loop: x runs from offsetX in steps while below the width. */
  method VerticalLines(offsetX: real, step: real, board: Size) returns (lines: seq<Line>)
    requires step > 0.0
    ensures VerticalRun(lines, offsetX, step, board)
  {
    lines := [];
    var x := offsetX;
    ghost var bound := ((board.width - offsetX) / step).Floor + 1;
    while x < board.width
      invariant x == Tick(offsetX, step, |lines|)
      invariant |lines| > 0 ==> Tick(offsetX, step, |lines| - 1) < board.width
      invariant forall j :: 0 <= j < |lines| ==> lines[j] == VerticalLine(Tick(offsetX, step, j), board)
      decreases bound - |lines|
    {
      BelowBound(offsetX, step, |lines|, board.width);
      lines := lines + [VerticalLine(x, board)];
      x := x + step;
    }
  }

  /** The second loop: y runs from offsetY in steps while below the height. */
  method HorizontalLines(offsetY: real, step: real, board: Size) returns (lines: seq<Line>)
    requires step > 0.0
    ensures HorizontalRun(lines, offsetY, step, board)
  {
    lines := [];
    var y := offsetY;
    ghost var bound := ((board.height - offsetY) / step).Floor + 1;
    while y < board.height
      invariant y == Tick(offsetY, step, |lines|)
      invariant |lines| > 0 ==> Tick(offsetY, step, |lines| - 1) < board.height
      invariant forall j :: 0 <= j < |lines| ==> lines[j] == HorizontalLine(Tick(offsetY, step, j), board)
      decreases bound - |lines|
    {
      BelowBound(offsetY, step, |lines|, board.height);
      lines := lines + [HorizontalLine(y, board)];
      y := y + step;
    }
  }

  /** A coordinate still below the bound has an index below the loop's
      bound, so the loops terminate. */
  lemma BelowBound(start: real, step: real, k: nat, bound: real)
    requires step > 0.0 && Tick(start, step, k) < bound
    ensures k <= ((bound - start) / step).Floor
  {
    TickClosed(start, step, k);
    assert k as real * step < bound - start;
    assert k as real < (bound - start) / step;
  }

  /** The loops end: a positive cell; a zero cell, whose NaN offsets fail
      the loop tests at once; or a negative cell whose offsets already lie
      at or past the board's edges. A negative cell with an offset below
      its bound steps away from the bound for ever. */
  predicate Ends(step: real, v: Viewport, board: Size) {
    step >= 0.0 || (JsRem(v.x, step) >= board.width && JsRem(v.y, step) >= board.height)
  }

  /** The overlay: nothing when hidden; otherwise the grid lines from the
      offsets, which are the viewport's position modulo one cell, with the
      sign of the position as JavaScript's `%` gives it. */
  method Render(isVisible: bool, gridSize: real, v: Viewport, board: Size) returns (r: Option<seq<Line>>)
    requires isVisible ==> Ends(ScaledGridSize(gridSize, v), v, board)
    ensures r.None? <==> !isVisible
    ensures r.Some? && ScaledGridSize(gridSize, v) <= 0.0 ==> r.value == []
    ensures r.Some? && ScaledGridSize(gridSize, v) > 0.0 ==>
              var step := ScaledGridSize(gridSize, v);
              GridLines(r.value, JsRem(v.x, step), JsRem(v.y, step), step, board)
  {
    if !isVisible {
      return None;
    }
    var step := ScaledGridSize(gridSize, v);
    if step <= 0.0 {
      // A zero cell makes both offsets NaN and a negative one, under Ends,
      // starts both loops at their bound: neither loop runs.
      return Some([]);
    }
    var offsetX := JsRem(v.x, step);
    var offsetY := JsRem(v.y, step);
    var lines := GenerateGridLines(offsetX, offsetY, step, board);
    r := Some(lines);
  }

  /** The k-th coordinate is the start plus k steps. */
  lemma {:induction false} TickClosed(start: real, step: real, k: nat)
    ensures Tick(start, step, k) == start + k as real * step
  {
    if k > 0 {
      TickClosed(start, step, k - 1);
    }
  }

  /** The stopping index of a run is unique. */
  lemma StopsUnique(n1: nat, n2: nat, start: real, step: real, bound: real)
    requires step > 0.0 && Stops(n1, start, step, bound) && Stops(n2, start, step, bound)
    ensures n1 == n2
  {
    if n1 < n2 {
      TickMonotone(start, step, n1, n2 - 1);
    } else if n2 < n1 {
      TickMonotone(start, step, n2, n1 - 1);
    }
  }

  lemma {:induction false} TickMonotone(start: real, step: real, i: nat, j: nat)
    requires step > 0.0 && i <= j
    ensures Tick(start, step, i) <= Tick(start, step, j)
  {
    if i < j {
      TickMonotone(start, step, i, j - 1);
    }
  }

  lemma VerticalRunUnique(a: seq<Line>, b: seq<Line>, offsetX: real, step: real, board: Size)
    requires step > 0.0 && VerticalRun(a, offsetX, step, board) && VerticalRun(b, offsetX, step, board)
    ensures a == b
  {
    StopsUnique(|a|, |b|, offsetX, step, board.width);
  }

  lemma HorizontalRunUnique(a: seq<Line>, b: seq<Line>, offsetY: real, step: real, board: Size)
    requires step > 0.0 && HorizontalRun(a, offsetY, step, board) && HorizontalRun(b, offsetY, step, board)
    ensures a == b
  {
    StopsUnique(|a|, |b|, offsetY, step, board.height);
  }

  /** The generated lines are fully determined by the offsets, the step and
      the board. */
  lemma {:induction false} GridLinesUnique(l1: seq<Line>, l2: seq<Line>, offsetX: real, offsetY: real, step: real, board: Size)
    requires step > 0.0
    requires GridLines(l1, offsetX, offsetY, step, board) && GridLines(l2, offsetX, offsetY, step, board)
    ensures l1 == l2
  {
    var n1 :| 0 <= n1 <= |l1| && VerticalRun(l1[..n1], offsetX, step, board) && HorizontalRun(l1[n1..], offsetY, step, board);
    var n2 :| 0 <= n2 <= |l2| && VerticalRun(l2[..n2], offsetX, step, board) && HorizontalRun(l2[n2..], offsetY, step, board);
    VerticalRunUnique(l1[..n1], l2[..n2], offsetX, step, board);
    HorizontalRunUnique(l1[n1..], l2[n2..], offsetY, step, board);
    SplitEqual(l1, l2, n1, n2);
  }

  lemma SplitEqual(l1: seq<Line>, l2: seq<Line>, n1: nat, n2: nat)
    requires n1 <= |l1| && n2 <= |l2|
    requires l1[..n1] == l2[..n2] && l1[n1..] == l2[n2..]
    ensures l1 == l2
  {
    assert l1 == l1[..n1] + l1[n1..];
    assert l2 == l2[..n2] + l2[n2..];
  }

  /** Every vertical line sits on a world x that is a whole multiple of the
      grid size, so the grid stays fixed to the board as the viewport pans
      and zooms; likewise for horizontal lines and world y. */
  lemma GridAligned(gridSize: real, v: Viewport, k: nat)
    requires v.scale > 0.0 && gridSize > 0.0
    ensures (Tick(JsRem(v.x, ScaledGridSize(gridSize, v)), ScaledGridSize(gridSize, v), k) - v.x) / v.scale
            == (k - Trunc(v.x / ScaledGridSize(gridSize, v))) as real * gridSize
    ensures (Tick(JsRem(v.y, ScaledGridSize(gridSize, v)), ScaledGridSize(gridSize, v), k) - v.y) / v.scale
            == (k - Trunc(v.y / ScaledGridSize(gridSize, v))) as real * gridSize
  {
    MulPos(gridSize, v.scale);
    Aligned(v.x, gridSize, v, k);
    Aligned(v.y, gridSize, v, k);
  }

  lemma Aligned(a: real, gridSize: real, v: Viewport, k: nat)
    requires v.scale > 0.0 && ScaledGridSize(gridSize, v) != 0.0
    ensures (Tick(JsRem(a, ScaledGridSize(gridSize, v)), ScaledGridSize(gridSize, v), k) - a) / v.scale
            == (k - Trunc(a / ScaledGridSize(gridSize, v))) as real * gridSize
  {
    var b := ScaledGridSize(gridSize, v);
    var t := Trunc(a / b);
    TickClosed(JsRem(a, b), b, k);
    ShiftedMultiple(a, b, t, k);
    CancelScale((k - t) as real, gridSize, v.scale);
  }

  lemma ShiftedMultiple(a: real, b: real, t: int, k: int)
    ensures (a - b * t as real + k as real * b) - a == (k - t) as real * b
  {
  }

  lemma CancelScale(x: real, g: real, s: real)
    requires s > 0.0
    ensures x * (g * s) / s == x * g
  {
    assert x * (g * s) == (x * g) * s;
  }
}
