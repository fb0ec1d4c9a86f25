/** The `useDragAndDrop` hook: which card is being dragged and the offset
    between the pointer and the card captured when the drag started. */
module DragAndDrop {
  import opened BoardTypes

  /** The offset captured at the start: pointer minus card position. */
  function Offset(initial: Position, mouse: Position): Position {
    Sub(mouse, initial)
  }

  /** The card position for a pointer position: pointer minus offset. */
  function MovedTo(offset: Position, mouse: Position): Position {
    Sub(mouse, offset)
  }

  /** No drift: the card moves by exactly the pointer's displacement since
      the start, whatever path the pointer took, so returning the pointer to
      its start returns the card to its initial position. */
  lemma DragWithoutDrift(initial: Position, start: Position, mouse: Position)
    ensures MovedTo(Offset(initial, start), mouse) == Add(initial, Sub(mouse, start))
    ensures MovedTo(Offset(initial, start), start) == initial
  {
  }

  /** `!draggedCardId`: no id, or the empty string, means no drag. */
  predicate Dragging(id: Option<string>) {
    id.Some? && id.value != ""
  }

  class DragSession {
    var draggedCardId: Option<string>
    var dragOffset: Position

    constructor()
      ensures draggedCardId.None? && dragOffset == Origin
    {
      draggedCardId := None;
      dragOffset := Origin;
    }

    method DragStart(cardId: string, initial: Position, mouse: Position)
      modifies this
      ensures draggedCardId == Some(cardId)
      ensures dragOffset == Offset(initial, mouse)
    {
      draggedCardId := Some(cardId);
      dragOffset := Offset(initial, mouse);
    }

    /** handleDragMove: nothing when no card is dragged; otherwise the
        position that keeps the captured offset to the pointer. It reads the
        state and changes nothing. */
    method DragMove(mouse: Position) returns (r: Option<Position>)
      ensures r.None? <==> !Dragging(draggedCardId)
      ensures r.Some? ==> Add(r.value, dragOffset) == mouse
    {
      if !Dragging(draggedCardId) {
        return None;
      }
      r := Some(MovedTo(dragOffset, mouse));
    }

    /** handleDragEnd: back to the idle state, whatever the state was, so a
        second call changes nothing. */
    method DragEnd()
      modifies this
      ensures draggedCardId.None? && dragOffset == Origin
    {
      draggedCardId := None;
      dragOffset := Origin;
    }
  }
}
