/** The canvas context: one record of zoom, position and scroll position,
    changed by merging in the fields a caller supplies. */
module CanvasContext {
  import opened BoardTypes

  datatype CanvasState = CanvasState(zoom: real, position: Position, scrollPosition: Position)

  /** `Partial<CanvasState>`: each field is present or absent. */
  datatype CanvasPatch = CanvasPatch(zoom: Option<real>, position: Option<Position>, scrollPosition: Option<Position>)

  const DefaultCanvasState := CanvasState(1.0, Origin, Origin)

  const NoFields := CanvasPatch(None, None, None)

  /** `{ ...state, ...patch }`: the fields the patch supplies replace those
      of the state; the others are kept. */
  function Overlay(s: CanvasState, p: CanvasPatch): (r: CanvasState)
    ensures r.zoom == (if p.zoom.Some? then p.zoom.value else s.zoom)
    ensures r.position == (if p.position.Some? then p.position.value else s.position)
    ensures r.scrollPosition == (if p.scrollPosition.Some? then p.scrollPosition.value else s.scrollPosition)
  {
    CanvasState(
      if p.zoom.Some? then p.zoom.value else s.zoom,
      if p.position.Some? then p.position.value else s.position,
      if p.scrollPosition.Some? then p.scrollPosition.value else s.scrollPosition)
  }

  /** A whole state as a patch that supplies every field. */
  function Full(s: CanvasState): CanvasPatch {
    CanvasPatch(Some(s.zoom), Some(s.position), Some(s.scrollPosition))
  }

  /** Two patches in turn: the later one's fields win. */
  function Then(p: CanvasPatch, q: CanvasPatch): CanvasPatch {
    CanvasPatch(
      if q.zoom.Some? then q.zoom else p.zoom,
      if q.position.Some? then q.position else p.position,
      if q.scrollPosition.Some? then q.scrollPosition else p.scrollPosition)
  }

  /** An empty patch changes nothing, a full one replaces everything, a
      patch applied twice acts once, and two patches in turn act as their
      combination. */
  lemma OverlayLaws(s: CanvasState, t: CanvasState, p: CanvasPatch, q: CanvasPatch)
    ensures Overlay(s, NoFields) == s
    ensures Overlay(s, Full(t)) == t
    ensures Overlay(Overlay(s, p), p) == Overlay(s, p)
    ensures Overlay(Overlay(s, p), q) == Overlay(s, Then(p, q))
  {
  }

  class CanvasProvider {
    var canvasState: CanvasState

    /** The provider starts from the default overlaid with initialState. */
    constructor(initialState: CanvasPatch)
      ensures canvasState == Overlay(DefaultCanvasState, initialState)
    {
      canvasState := Overlay(DefaultCanvasState, initialState);
    }

    method UpdateCanvasState(p: CanvasPatch)
      modifies this
      ensures canvasState == Overlay(old(canvasState), p)
    {
      canvasState := Overlay(canvasState, p);
    }

    method SetZoom(zoom: real)
      modifies this
      ensures canvasState == old(canvasState).(zoom := zoom)
    {
      UpdateCanvasState(CanvasPatch(Some(zoom), None, None));
    }

    method SetPosition(position: Position)
      modifies this
      ensures canvasState == old(canvasState).(position := position)
    {
      UpdateCanvasState(CanvasPatch(None, Some(position), None));
    }

    method SetScrollPosition(scrollPosition: Position)
      modifies this
      ensures canvasState == old(canvasState).(scrollPosition := scrollPosition)
    {
      UpdateCanvasState(CanvasPatch(None, None, Some(scrollPosition)));
    }

    method ResetCanvasState()
      modifies this
      ensures canvasState == DefaultCanvasState
    {
      canvasState := DefaultCanvasState;
    }

    /** restoreCanvasState (from useCanvasForPaper): a saved state, merged
        in whole, becomes the state. */
    method RestoreCanvasState(saved: CanvasState)
      modifies this
      ensures canvasState == saved
    {
      UpdateCanvasState(Full(saved));
    }
  }
}
