# Whiteboard board core in Dafny

This project models the core of a React whiteboard in Dafny. Users place
sticky notes, papers, images, PDFs and links on a board they can pan and
zoom. The model covers:

- **The board store** (`useBoard`): the card and tag lists, the search and
  filter state, the highlighted ids and the simulated file upload with its
  progress list.
- **The board screen** (`Board`): the pan/zoom viewport, card selection and
  the bulk actions, the wheel and button zoom, file drops, and the
  "centre on paper" event.
- **The minimap**: content bounds, the projection, the viewport indicator
  and click-to-jump.
- **The drag-and-drop hook**: the drag offset and the move.
- **The canvas context**: a record merged with partial updates.
- **The grid overlay**: the two stepping loops that lay out the lines.
- **The image and PDF cards**: the size buttons, file name and size labels,
  and the cards' own drag handling.
- **The zoom control bar**.
- **The header bar**: search, type filters, and adding sticky, paper and link
  cards.
- **The chat panel**: sessions, history, the context line for the selected
  cards, the simulated reply, and turning text into cards.

How the source maps onto Dafny:

- **Pure helpers become functions.** Each pure update of the store (a
  `cards.map` / `cards.filter` inside `setBoardState`) is a function on
  values in module `BoardStore`.
- **State becomes classes.** Component or hook state that the source
  updates in place is a class whose fields are that state:
  - `UseBoard.BoardHook`, `BoardView.BoardController`,
    `CanvasContext.CanvasProvider`, `DragAndDrop.DragSession`,
    `ImageCard.ImageDrag`, `PdfCard.PdfDrag`, `Header.HeaderBar` and
    `ChatPanel.ChatPanelState`.
  - Each method states the whole new state.
  - A component that calls the store holds the `BoardHook` it updates.
- **Loops stay loops.** The source's loops are methods with loop
  invariants:
  - the upload progress loop;
  - the minimap bounds loop;
  - the two grid loops;
  - the bulk delete and bulk recolour over the selection;
  - the upload of dropped files, one after the other.
- **JavaScript semantics are written out:**
  - `Math.round` (halves up);
  - `%` truncating toward zero;
  - `parseInt` with no radix (leading white space, a sign, `0x`);
  - `String(n)`;
  - `trim` with the ECMAScript white-space set;
  - `||` truthiness on metadata values;
  - `join`.
- **Coordinates are exact reals.**

Outside inputs become parameters of the operations:

- ids from `Date.now()`;
- positions from `Math.random()`;
- object URLs;
- bounding rectangles;
- window sizes;
- key and mouse events.

Timers become explicit steps: `BoardHook.ExpireUpload` and
`ChatPanelState.DeliverReply`.

## Model

| member | source | states |
|---|---|---|
| BoardStore.InitialCardsUnique | src/hooks/useBoard.ts:5-59 | The six sample cards carry six distinct ids. |
| BoardStore.MapWhereSpec | src/hooks/useBoard.ts:231-244 | The per-id update shape: one result per card in order, a matching card replaced by f of it, every other card kept, and no change when the id is absent. |
| BoardStore.MapWhereKeepsIds | src/hooks/useBoard.ts:231-244 | An update that keeps ids keeps the id list. |
| BoardStore.UpdateCardPosition | src/hooks/useBoard.ts:231-244 | Same length and ids; the matching card gets the new position and nothing else changes; no change for an absent id. |
| BoardStore.UpdateCardSize | src/hooks/useBoard.ts:246-258 | The matching card gets width and height; other cards are untouched; ids are kept; no change for an absent id. |
| BoardStore.UpdateCardContent | src/hooks/useBoard.ts:267-276 | The matching card gets the content; other cards are untouched; ids are kept; no change for an absent id. |
| BoardStore.UpdateCardColor | src/hooks/useBoard.ts:452-459 | The matching card gets the colour (undefined clears it); other cards are untouched; no change for an absent id. |
| BoardStore.MergeMetadata | src/hooks/useBoard.ts:289-298 | Object spread: every update key is present with its new value; any other key is present iff it was in the old metadata, with its old value; absent metadata contributes nothing. |
| BoardStore.UpdateCardTitle | src/hooks/useBoard.ts:278-287 | The matching card's metadata gains title = the new title and keeps every other key with its value (absent metadata gives just the title); the rest of that card is unchanged; other cards are untouched. |
| BoardStore.UpdateCardMetadata | src/hooks/useBoard.ts:289-298 | The matching card's metadata becomes the merge of old and updates; other cards are untouched; ids are kept. |
| BoardStore.AddCard | src/hooks/useBoard.ts:89-101 | The old cards are kept as a prefix, and one card is appended with the new id and every draft field; colour defaults to yellow and size to md. |
| BoardStore.RemoveCard | src/hooks/useBoard.ts:260-265 | No card with the id is left, and the list does not grow. |
| BoardStore.RemoveCardSpec | src/hooks/useBoard.ts:260-265 | Every other card is kept exactly as often as before; order is kept (the removal splits over concatenation); nothing changes for an absent id. |
| BoardStore.DuplicateCard | src/hooks/useBoard.ts:437-450 | Appends a copy under the new id, moved by (+20, +20), identical to the original in every other field. |
| BoardStore.AddTag | src/hooks/useBoard.ts:342-354 | The old tags are kept as a prefix, and the new tag with the new id is appended. |
| BoardStore.StripTag | src/hooks/useBoard.ts:356-365 | An absent tag list stays absent; a present one no longer holds the tag id. |
| BoardStore.RemoveTag | src/hooks/useBoard.ts:356-365 | Card ids are kept, and each card's tag list is stripped of the tag id. |
| BoardStore.RemoveTagSpec | src/hooks/useBoard.ts:356-365 | No tag has the id and no card lists it; every other tag and every other card tag id keeps its count. |
| BoardStore.AddTagToCard | src/hooks/useBoard.ts:367-376 | The matching card's tags become the old tags (or []) followed by the tag id; all else is unchanged. |
| BoardStore.RemoveTagFromCard | src/hooks/useBoard.ts:378-387 | The matching card's tags are stripped of the tag id; other cards are untouched. |
| BoardStore.AddThenRemoveTag | src/hooks/useBoard.ts:367-387 | Tagging appends the id even when it is already there (length + 1, the id last); removing it afterwards leaves no occurrence. |
| BoardStore.SearchCards | src/hooks/useBoard.ts:322-339 | A blank query returns all cards; otherwise every result matches the lowercased query in content, string title or string fileName. |
| BoardStore.SearchCardsSpec | src/hooks/useBoard.ts:322-339 | For a non-blank query each card is kept exactly as often as it occurs iff it matches, and in board order. |
| BoardStore.BlankQuery | src/hooks/useBoard.ts:323 | `!query.trim()` holds exactly when the query is all white space. |
| BoardStore.FilterCardsByTags | src/hooks/useBoard.ts:389-394 | No tag ids returns all cards; otherwise every result has a tag list sharing an id with the filter. |
| BoardStore.FilterCardsByType | src/hooks/useBoard.ts:396-399 | No types returns all cards; otherwise every result's type is listed. |
| BoardStore.FilterCardsSpec | src/hooks/useBoard.ts:389-399 | Membership in each filter's result, both directions: a card is there iff it is on the board and passes; a card without tags never passes a non-empty tag filter. |
| BoardStore.FilteredCardsSpec | src/hooks/useBoard.ts:405-425 | The query, type and tag filters applied in turn equal one filter by their conjunction, each criterion switched off when empty. |
| BoardStore.FilteredCardsNoCriteria | src/hooks/useBoard.ts:405-425 | With no criterion every card is returned. |
| BoardStore.HighlightWriteSpec | src/hooks/useBoard.ts:427-431 | For plain ids (non-empty, comma-free) the joined-string comparison writes the highlighted ids exactly when the id lists differ. |
| BoardStore.JoinInjective | src/hooks/useBoard.ts:429 | Comma-joining plain ids is injective. |
| BoardStore.ApplySearchUpdate | src/hooks/useBoard.ts:401-403 | Each supplied field replaces the old one, and each absent field is kept. |
| BoardStore.SearchUpdateIdempotent | src/hooks/useBoard.ts:401-403 | An empty update changes nothing, and applying an update twice equals applying it once. |
| BoardStore.StartDragging | src/hooks/useBoard.ts:302-312 | Unknown id gives (0, 0); otherwise the card position plus the offset is the pointer. |
| BoardStore.DragWithoutMoving | src/hooks/useBoard.ts:302-320 | On a board with distinct ids, moving with the captured offset at the same pointer leaves the board unchanged. |
| BoardStore.DraggedPosition | src/hooks/useBoard.ts:314-320 | The dragged card's new position plus the offset is the pointer. |
| BoardStore.UploadDuration | src/hooks/useBoard.ts:120 | The simulated duration is within [0.5, 3] seconds and equals the size in MB when that lies in the range. |
| BoardStore.FileCardDraft | src/hooks/useBoard.ts:139-173 | image/* gives an image card and application/pdf a PDF card (content = URL); anything else gives a sticky "Arquivo: name". The metadata records fileName, fileType and a fileSize string that parseInt reads back as the byte count. |
| BoardStore.LinkCardDraft | src/hooks/useBoard.ts:213-227 | A link card with the URL as content and metadata url, title "Link", description "Clique para abrir". |
| BoardStore.SetProgress | src/hooks/useBoard.ts:129-133 | Only the entry with the upload id gets the progress; the others are unchanged. |
| BoardStore.SetProgressTwice | src/hooks/useBoard.ts:124-133 | Only the last progress written survives. |
| BoardStore.SetStatus | src/hooks/useBoard.ts:192-202 | On a throw, only the entries with the upload id get the failed status and the error message; every other entry is kept. |
| BoardStore.MarkCompleted | src/hooks/useBoard.ts:175-180 | On completion, only the entries with the upload id change, and only in their status; an error recorded earlier under that id stays, as the object spread keeps it. |
| BoardStore.UploadEntriesSpec | src/hooks/useBoard.ts:109-200 | One upload adds one entry at the end, with its id, the file's name and progress 100, completed with no error when the object URL was created and failed with the thrown message when it threw; every entry of another id is untouched and every id is kept; an older entry under a reused id is brought to 100 % and given the same status, and on completion keeps its own error. |
| BoardStore.ReusedIdKeepsError | src/hooks/useBoard.ts:175-180 | An id reused after a failed upload: after the new upload completes, the old entry reads completed and still carries "Erro no upload". |
| BoardStore.UploadedListSpec | src/hooks/useBoard.ts:109-133 | After registration and the loop, the new entry is at 100 % and still uploading; entries of other ids are untouched, and older entries under the same id only have their progress set to 100. |
| BoardStore.ProgressSpec | src/hooks/useBoard.ts:124-127 | The loop's progress values run from 0 to 100 in steps of 5. |
| UseBoard.BoardHook.constructor | src/hooks/useBoard.ts:62-87 | The six sample cards, no tags, viewport (0, 0, 1), an empty search and no uploads. |
| UseBoard.BoardHook.AddCard | src/hooks/useBoard.ts:89-101 | The cards become AddCard of the old cards; search and uploads are unchanged. |
| UseBoard.BoardHook.AddFileCard | src/hooks/useBoard.ts:103-211 | Writes progress 0, 5, …, 100 in order. With a URL: the card from FileCardDraft is added and the entries with the upload id are marked completed, with nothing else changed (MarkCompleted). On a throw: the board is unchanged and the upload is marked failed with the Error's message or "Erro no upload". |
| UseBoard.BoardHook.ExpireUpload | src/hooks/useBoard.ts:186-190 | The timer drops every entry of the upload id and keeps the rest. |
| UseBoard.BoardHook.AddLinkCard | src/hooks/useBoard.ts:213-227 | The board gains the link card. |
| UseBoard.BoardHook.UpdateCardPosition | src/hooks/useBoard.ts:231-244 | The board's cards become UpdateCardPosition of the old ones; nothing else changes. |
| UseBoard.BoardHook.UpdateCardSize | src/hooks/useBoard.ts:246-258 | Likewise for the size. |
| UseBoard.BoardHook.RemoveCard | src/hooks/useBoard.ts:260-265 | Likewise for removal. |
| UseBoard.BoardHook.UpdateCardContent | src/hooks/useBoard.ts:267-276 | Likewise for the content. |
| UseBoard.BoardHook.UpdateCardTitle | src/hooks/useBoard.ts:278-287 | Likewise for the title. |
| UseBoard.BoardHook.UpdateCardMetadata | src/hooks/useBoard.ts:289-298 | Likewise for the metadata merge. |
| UseBoard.BoardHook.UpdateDraggedPosition | src/hooks/useBoard.ts:314-320 | The card moves to pointer minus offset. |
| UseBoard.BoardHook.AddTag | src/hooks/useBoard.ts:342-354 | Returns the new tag and appends it to the tags. |
| UseBoard.BoardHook.RemoveTag | src/hooks/useBoard.ts:356-365 | The board becomes RemoveTag of the old board (tags and card tag lists). |
| UseBoard.BoardHook.AddTagToCard | src/hooks/useBoard.ts:367-376 | The board's cards become AddTagToCard of the old ones. |
| UseBoard.BoardHook.RemoveTagFromCard | src/hooks/useBoard.ts:378-387 | The board's cards become RemoveTagFromCard of the old ones. |
| UseBoard.BoardHook.UpdateSearchState | src/hooks/useBoard.ts:401-403 | The search state merges the update; the board is unchanged. |
| UseBoard.BoardHook.GetFilteredAndHighlightedCards | src/hooks/useBoard.ts:405-434 | Returns the cards meeting every active criterion, in board order, and writes their ids as highlighted iff the joined ids differ. |
| UseBoard.BoardHook.DuplicateCard | src/hooks/useBoard.ts:437-450 | The board gains the shifted copy under the new id. |
| UseBoard.BoardHook.UpdateCardColor | src/hooks/useBoard.ts:452-459 | The board's cards become UpdateCardColor of the old ones. |
| BoardView.ScreenWorldRoundTrip | src/components/board/Board.tsx:162-169 | Screen-to-world and the CSS transform are inverse in both directions for a positive scale. |
| BoardView.CanvasMirrorsViewport | src/components/board/Board.tsx:59-65 | After the sync effect the canvas zoom is the viewport scale, and both position and scroll position are its translation, whatever the canvas held. |
| BoardView.Clamp | src/components/board/Board.tsx:440 | The clamped scale lies in [0.1, 2] and equals the input inside it. |
| BoardView.ZoomAboutFixesAnchor | src/components/board/Board.tsx:448-453 | Zooming about a screen point keeps the world point under it. |
| BoardView.ZoomAboutKeeps | src/components/board/Board.tsx:448-453 | Zooming about m to a new scale keeps the world point under a screen point p iff p is m or the scale is unchanged. |
| BoardView.ZoomAboutSameScale | src/components/board/Board.tsx:474-478 | Zooming to the current scale is the identity. |
| BoardView.WheelScale | src/components/board/Board.tsx:439-440 | The wheel scale stays in [0.1, 2]. |
| BoardView.Wheel | src/components/board/Board.tsx:421-456 | ctrl/meta or a delta of magnitude under 10 leaves the viewport as it was; any other scroll sets the scale to the wheel scale. |
| BoardView.WheelSpec | src/components/board/Board.tsx:421-456 | Quiet events change nothing. Otherwise the scale is clamp(s·0.9) for a positive delta and clamp(s·1.1) otherwise. The world point held still is the one under the pointer moved back by the translation, because the element's box already includes the translation. The world point under the pointer itself stays put iff the translation is zero or the scale does not change. |
| BoardView.WheelDriftExample | src/components/board/Board.tsx:443-453 | A scroll at client x = 300 over a board translated 100 at scale 1 moves a different world point under the pointer. |
| BoardView.WheelDriftAnchor | src/components/board/Board.tsx:443-453 | In that example the handler zooms to 0.9 about x = 200 rather than about the pointer at 300. |
| BoardView.WheelAtPointerSpec | src/components/board/Board.tsx:443-453 | The corrected wheel zoom, about the pointer in container coordinates, sets the same scale, keeps the world point under the pointer, and equals the handler as written when the board is not translated. |
| BoardView.ZoomIn | src/components/board/Board.tsx:467-480 | No element, no change; otherwise the scale becomes min(2, s·1.2). |
| BoardView.ZoomOut | src/components/board/Board.tsx:482-495 | No element, no change; otherwise the scale becomes max(0.1, s·0.8). |
| BoardView.HalfSizeIsCentre | src/components/board/Board.tsx:471-472 | Half the element's box, (W·s/2, H·s/2), is the container's visible centre iff the scale is 1. |
| BoardView.ZoomButtonsKeepCentre | src/components/board/Board.tsx:467-495 | Both buttons keep the world point at half the element's box. The world point at the visible centre stays put iff the scale is 1 or the button does not change the scale (zoom in at 2, zoom out at 0.1). |
| BoardView.ZoomAtCentreSpec | src/components/board/Board.tsx:467-495 | The corrected buttons, zooming about the visible centre, keep the world point there at every scale, and equal the buttons as written at scale 1. |
| BoardView.PanFollowsPointer | src/components/board/Board.tsx:390-411 | Panning translates by the pointer's displacement since the press, at the same scale; returning to the press point restores the viewport. |
| BoardView.CenterOnPaper | src/components/board/Board.tsx:68-94 | The scale is kept, and an unknown paper id leaves the viewport as it was. |
| BoardView.CenterOnPaperSpec | src/components/board/Board.tsx:68-94 | An unknown id changes nothing; otherwise the paper's centre (position + (75, 50)) appears at the window's centre, at the same scale. |
| BoardView.ScaleStaysInRange | src/components/board/Board.tsx:417-499 | Wheel, zoom buttons, reset, pan, centring and minimap clicks all keep the scale in [0.1, 2]. |
| BoardView.DropPosition | src/components/board/Board.tsx:219-233 | File i lands on the world point shown at half the element's box moved by 20i·s right and down on screen, that is 20i further in the world; the first file is shown at half the box. |
| BoardView.DropAtCentre | src/components/board/Board.tsx:219-233 | The corrected drop point: file i is shown at the container's visible centre moved by 20i·s right and down; the first file is shown at the visible centre. |
| BoardView.DropAnchor | src/components/board/Board.tsx:219-227 | The drop point as written equals the corrected one iff the scale is 1. |
| BoardView.DropCardsSpec | src/components/board/Board.tsx:232-239 | Uploading the dropped files in order keeps the board's cards in front and appends one card per file whose object URL was created, in drop order. |
| BoardView.DroppedCardsPlaced | src/components/board/Board.tsx:232-239 | When every object URL is created, file i's card has its own id and sits at the drop point plus (20i, 20i). |
| BoardView.DropUploadsIds | src/components/board/Board.tsx:232-239 | The drop adds one upload entry per file, in drop order, after the existing entries, and keeps every existing entry's id. |
| BoardView.DropUploadsKeep | src/components/board/Board.tsx:232-239 | An existing upload entry whose id no dropped file reuses is left as it was. |
| BoardView.SelectCard | src/components/board/Board.tsx:97-120 | With ctrl the card's membership flips and all other membership is kept; without ctrl the selection is exactly that card. |
| BoardView.SelectTwice | src/components/board/Board.tsx:103-115 | Two ctrl-clicks on one card restore the selection. |
| BoardView.RemoveAfterFilter | src/components/board/Board.tsx:126-133 | One more removal after removing a set of ids is removing the larger set. |
| BoardView.BulkDeleteSpec | src/components/board/Board.tsx:126-133 | After a bulk delete no selected card remains, and every other card keeps its count. |
| BoardView.RecolorStep | src/components/board/Board.tsx:135-141 | Recolouring one more id is recolouring the larger set. |
| BoardView.BoardController.constructor | src/components/board/Board.tsx:42-46 | Viewport (0, 0, 1), not panning, pan start (0, 0), nothing selected. |
| BoardView.BoardController.CardSelect | src/components/board/Board.tsx:97-120 | The selection becomes SelectCard of the old selection; the viewport is unchanged. |
| BoardView.BoardController.ClearSelection | src/components/board/Board.tsx:122-124 | The selection empties. |
| BoardView.BoardController.KeyDown | src/components/board/Board.tsx:567-576 | Escape clears the selection; other keys change nothing. |
| BoardView.BoardController.DocumentMouseDown | src/components/board/Board.tsx:579-593 | A press outside the board and off any toolbar clears the selection; any other press changes nothing. |
| BoardView.BoardController.CanvasClick | src/components/board/Board.tsx:680-684 | A click on the canvas itself clears the selection. |
| BoardView.BoardController.BulkDelete | src/components/board/Board.tsx:126-133 | The store keeps exactly the cards whose id is not selected, in order, and the selection empties. |
| BoardView.BoardController.BulkColorChange | src/components/board/Board.tsx:135-141 | Every selected card gets the colour and every other card is unchanged. |
| BoardView.BoardController.PositionChange | src/components/board/Board.tsx:162-169 | The card is stored at the world point under the screen point. |
| BoardView.BoardController.FileUpload | src/components/board/Board.tsx:173-180 | With a URL, the board gains the file's card at the world point under the screen point; on a throw the board is unchanged. The upload list becomes UploadEntries of the old one, the search state is kept, and progress 0, 5, …, 100 is written in order. |
| BoardView.BoardController.Drop | src/components/board/Board.tsx:209-240 | An empty drop or a missing element changes neither the board nor the upload list. Otherwise each file goes through the store's addFileCard in drop order, at DropPosition of the element's box plus (20i, 20i). The search state is kept. |
| BoardView.BoardController.MouseDown | src/components/board/Board.tsx:390-400 | Middle and right buttons are ignored; a press on the board element starts panning with pan start = client − translation. |
| BoardView.BoardController.MouseMove | src/components/board/Board.tsx:402-411 | While panning, the translation becomes client − pan start; otherwise nothing changes. |
| BoardView.BoardController.MouseUp | src/components/board/Board.tsx:412-414 | Panning stops. |
| BoardView.BoardController.WheelZoom | src/components/board/Board.tsx:421-456 | The viewport becomes the wheel result for the element's box, which is the container moved by the translation and sized by the scale; the scale invariant is kept. |
| BoardView.BoardController.ZoomInButton | src/components/board/Board.tsx:467-480 | The viewport becomes ZoomIn for the element's box when the element is mounted, and stays as it was otherwise. |
| BoardView.BoardController.ZoomOutButton | src/components/board/Board.tsx:482-495 | The viewport becomes ZoomOut for the element's box when the element is mounted, and stays as it was otherwise. |
| BoardView.BoardController.ZoomReset | src/components/board/Board.tsx:497-499 | The viewport returns to (0, 0, 1). |
| BoardView.BoardController.CenterOn | src/components/board/Board.tsx:68-94 | The viewport becomes CenterOnPaper for the store's cards. |
| BoardView.BoardController.MinimapClick | src/components/board/Board.tsx:729-733 | The minimap, fed the store's cards and bounds 1920×1080, sets the viewport on a click inside it. |
| Minimap.BoxSpec | src/components/board/Minimap.tsx:30-40 | The folded box holds every card position, and some card lies on each of its four edges. |
| Minimap.ContentBoundsOf | src/components/board/Minimap.tsx:25-50 | The content bounds hold every card position. |
| Minimap.ContentBounds | src/components/board/Minimap.tsx:25-50 | The forEach loop computes the box around the cards widened by the 500 margin, or ±1000 for an empty board. |
| Minimap.ContentBoundsSpec | src/components/board/Minimap.tsx:25-50 | The bounds are at least 1000 wide and high, each card lies at least the margin inside every edge, and the inner box is tight. |
| Minimap.ProjectionScale | src/components/board/Minimap.tsx:52-59 | The scale is positive, fits the content into 120×100, and fills one of the two sides exactly. |
| Minimap.CardsScale | src/components/board/Minimap.tsx:56-59 | The scale computed from any board's cards is positive. |
| Minimap.MinimapRoundTrip | src/components/board/Minimap.tsx:62-75 | worldToMinimap and minimapToWorld are inverse in both directions. |
| Minimap.ViewportRect | src/components/board/Minimap.tsx:78-97 | The indicator starts at a non-negative corner and is no larger than the minimap. |
| Minimap.ViewportRectInside | src/components/board/Minimap.tsx:78-97 | The viewport indicator always lies inside the 120×100 minimap. |
| Minimap.MinimapClick | src/components/board/Minimap.tsx:99-119 | A click is ignored iff it falls outside the 120×100 minimap; otherwise the scale is kept. |
| Minimap.MinimapClickSpec | src/components/board/Minimap.tsx:99-119 | A click outside the minimap is ignored (iff); otherwise the scale is kept and the clicked world point lands at the board's centre. |
| Minimap.EveryDotVisible | src/components/board/Minimap.tsx:141-147 | With the computed bounds and scale no card dot is ever culled. |
| Minimap.PointInside | src/components/board/Minimap.tsx:62-67 | A point of the shown box projects into the minimap. |
| DragAndDrop.DragWithoutDrift | src/hooks/useDragAndDrop.ts:9-27 | The card moves by exactly the pointer's displacement since the start; back at the start it is at its initial position. |
| DragAndDrop.DragSession.constructor | src/hooks/useDragAndDrop.ts:6-7 | No dragged card, offset (0, 0). |
| DragAndDrop.DragSession.DragStart | src/hooks/useDragAndDrop.ts:9-15 | Records the card id and offset = pointer − initial position. |
| DragAndDrop.DragSession.DragMove | src/hooks/useDragAndDrop.ts:17-27 | Returns nothing iff no card (or the empty id) is dragged; otherwise the position plus the offset is the pointer. |
| DragAndDrop.DragSession.DragEnd | src/hooks/useDragAndDrop.ts:29-32 | Back to no card and offset (0, 0). |
| CanvasContext.Overlay | src/contexts/CanvasContext.tsx:38-43 | Object spread of a partial state: each supplied field replaces the old one, and each absent field is kept. |
| CanvasContext.OverlayLaws | src/contexts/CanvasContext.tsx:38-43 | An empty patch is the identity, a full patch replaces all, a patch is idempotent, and two patches compose. |
| CanvasContext.CanvasProvider.constructor | src/contexts/CanvasContext.tsx:32-36 | The state is the default (zoom 1, origin, origin) overlaid with initialState. |
| CanvasContext.CanvasProvider.UpdateCanvasState | src/contexts/CanvasContext.tsx:38-43 | The state becomes the overlay of the patch. |
| CanvasContext.CanvasProvider.SetZoom | src/contexts/CanvasContext.tsx:45-47 | Only the zoom changes. |
| CanvasContext.CanvasProvider.SetPosition | src/contexts/CanvasContext.tsx:49-51 | Only the position changes. |
| CanvasContext.CanvasProvider.SetScrollPosition | src/contexts/CanvasContext.tsx:53-55 | Only the scroll position changes. |
| CanvasContext.CanvasProvider.ResetCanvasState | src/contexts/CanvasContext.tsx:57-59 | The state returns to the default. |
| CanvasContext.CanvasProvider.RestoreCanvasState | src/contexts/CanvasContext.tsx:89-91 | A saved state merged in whole becomes the state. |
| GridOverlay.GenerateGridLines | src/components/ui/GridOverlay.tsx:33-65 | The list is the vertical run followed by the horizontal run, and both loops end for a positive step. |
| GridOverlay.VerticalLines | src/components/ui/GridOverlay.tsx:37-47 | x runs from offsetX in steps up to, but not including, the first value that reaches the width; each line spans the height. |
| GridOverlay.HorizontalLines | src/components/ui/GridOverlay.tsx:51-61 | y runs from offsetY in steps up to, but not including, the first value that reaches the height; each line spans the width. |
| GridOverlay.Render | src/components/ui/GridOverlay.tsx:25-65 | Hidden gives nothing (iff). With a positive cell, visible gives the grid lines from offsets x % cell and y % cell, with JavaScript's truncating remainder. A zero cell (NaN offsets), or a negative one whose loops end at once, gives no lines. |
| GridOverlay.TickClosed | src/components/ui/GridOverlay.tsx:37 | The k-th loop coordinate is start + k·step. |
| GridOverlay.TickMonotone | src/components/ui/GridOverlay.tsx:37 | Loop coordinates increase with a positive step. |
| GridOverlay.StopsUnique | src/components/ui/GridOverlay.tsx:37 | A run's stopping index is unique. |
| GridOverlay.GridLinesUnique | src/components/ui/GridOverlay.tsx:33-65 | The generated lines are fully determined by the offsets, step and board. |
| GridOverlay.GridAligned | src/components/ui/GridOverlay.tsx:28-30 | Every line's world coordinate is a whole multiple of the grid size, so the grid stays fixed to the board under pan and zoom. |
| Numbers.JsRemSpec | src/components/ui/GridOverlay.tsx:29-30 | JavaScript `%`: the remainder has the dividend's sign, is smaller than the divisor in magnitude, and differs from the dividend by the truncated quotient times the divisor. |
| Numbers.JsRound | src/components/board/ZoomControls.tsx:22 | Math.round lands within half a unit: r − 0.5 ≤ x < r + 0.5. |
| Numbers.ParseIntToString | src/hooks/useBoard.ts:169 | parseInt reads back every non-negative integer that String() writes. |
| ZoomControls.Percentage | src/components/board/ZoomControls.tsx:22 | The label is the scale × 100 rounded to nearest. |
| ZoomControls.Render | src/components/board/ZoomControls.tsx:19-24 | Zoom-in is disabled iff scale ≥ max, zoom-out iff scale ≤ min, with defaults 0.1 and 2; the percentage is the rounded scale. |
| ZoomControls.DefaultsAreBoardLimits | src/components/board/ZoomControls.tsx:19-20 | The default bounds and the bounds the board passes are both the board's own limits 0.1 and 2. |
| ZoomControls.PercentageRange | src/components/board/ZoomControls.tsx:22 | Within the board's limits the label runs from 10 to 200, and scale 1 reads 100. |
| ZoomControls.ButtonsMatchHandlers | src/components/board/ZoomControls.tsx:23-24 | With the board's bounds each button is enabled exactly when its handler would change the viewport. |
| FileSize.FormatFileSizeCases | src/components/board/ImageCard.tsx:132-140 | "" gives ""; unparsable text is shown as is; otherwise the unit is decided by the byte count (B below 1024, KB below 1024², MB above) and the shown number is within half a unit of it. |
| FileSize.FormatBytesShown | src/components/board/ImageCard.tsx:137-139 | Every byte count is shown as B below 1024, as 1 to 1024 KB below 1024², and as MB from there on, with the shown number within half a unit of the count. |
| FileSize.KilobytesShown | src/components/board/ImageCard.tsx:138 | A count from 1024 up to 1024² is shown in KB as its rounded quotient by 1024, within half a KB of the count. |
| FileSize.MegabytesShown | src/components/board/ImageCard.tsx:139 | A count of 1024² or more is shown in MB as its rounded quotient by 1024², within half an MB of the count. |
| FileSize.RoundedQuotient | src/components/board/ImageCard.tsx:138-139 | Rounding b/d to k puts b within d/2 of k·d, with k ≥ 1. |
| FileSize.FormatParsed | src/components/board/PDFCard.tsx:97-105 | A string parseInt reads as n is not empty and is shown as n with its unit. |
| FileSize.FormatStoredSize | src/components/board/PDFCard.tsx:97-105 | The size string an upload stores is shown as the exact byte count with its unit. |
| ImageCard.OrDefault | src/components/board/ImageCard.tsx:49-50 | `value || fallback`: unset and 0 both fall back. |
| ImageCard.CardDims | src/components/board/ImageCard.tsx:46-50 | The drawn dimensions are never zero. |
| ImageCard.IncreaseSize | src/components/board/ImageCard.tsx:99-111 | Nothing iff there is no size callback; otherwise Increase of the drawn size, which is within the maxima. |
| ImageCard.DecreaseSize | src/components/board/ImageCard.tsx:114-126 | Nothing iff there is no size callback; otherwise Decrease of the drawn size, which is within the minima. |
| ImageCard.ResizeLaws | src/components/board/ImageCard.tsx:99-126 | Both steps keep a size within limits; each side changes by at most 50; away from the limits one step up is undone by one step down, and the reverse. |
| ImageCard.DisabledIffNoChange | src/components/board/ImageCard.tsx:196-206 | Within the limits each button is disabled exactly when pressing it changes nothing. |
| ImageCard.ResizeShown | src/components/board/ImageCard.tsx:99-126 | After the board stores the reported size, the card is drawn at exactly that size. |
| ImageCard.UploadedImageShown | src/components/board/ImageCard.tsx:61-62 | A card from an uploaded image shows the file's name and its byte count formatted with its unit. |
| ImageCard.ImageDrag.constructor | src/components/board/ImageCard.tsx:64-96 | Not dragging, no listeners. |
| ImageCard.ImageDrag.MouseDown | src/components/board/ImageCard.tsx:64-96 | A press on a resize button changes nothing; any other press sets dragging and, with a bounding box, attaches listeners holding client − corner. |
| ImageCard.ImageDrag.MouseMove | src/components/board/ImageCard.tsx:78-84 | A position is reported iff listeners are attached, and it plus the held offset is the pointer. |
| ImageCard.ImageDrag.MouseUp | src/components/board/ImageCard.tsx:86-90 | The release listener ends dragging and detaches; with no listener nothing changes. |
| PdfCard.PageCount | src/components/board/PDFCard.tsx:39 | A number exactly when the pageCount metadata is a number, and then that number. |
| PdfCard.DisplayName | src/components/board/PDFCard.tsx:107-112 | A name ending in ".pdf" loses exactly that suffix (name = r + ".pdf"); any other name is unchanged. |
| PdfCard.DisplayNameExamples | src/components/board/PDFCard.tsx:107-112 | Only one suffix is removed, the check is case-sensitive, and ".pdf" gives "". |
| PdfCard.FileInfo | src/components/board/PDFCard.tsx:114-121 | "PDF" for an empty size, else "PDF &#124; " + the formatted size. |
| PdfCard.UploadedPdfShown | src/components/board/PDFCard.tsx:37-38 | A card from an uploaded PDF shows the file's name minus ".pdf" and a non-empty size formatted as the exact byte count. |
| PdfCard.PdfDrag.constructor | src/components/board/PDFCard.tsx:23-24 | Not dragging, offset (0, 0). |
| PdfCard.PdfDrag.MouseDown | src/components/board/PDFCard.tsx:51-61 | Always sets dragging; the offset becomes client − corner only with a bounding box. |
| PdfCard.PdfDrag.MouseMove | src/components/board/PDFCard.tsx:63-71 | A position iff dragging a mounted card, and it plus the offset is the pointer. |
| PdfCard.PdfDrag.MouseUp | src/components/board/PDFCard.tsx:73-75 | Dragging ends and the offset is kept. |
| Header.ToggleTypeSpec | src/components/layout/Header.tsx:70-75 | After a toggle the type is present iff it was absent; every other type keeps its count; an absent type is appended. |
| Header.ToggleTwice | src/components/layout/Header.tsx:70-75 | Toggling an absent type twice restores the filters. |
| Header.StickyDraft | src/components/layout/Header.tsx:15-27 | A sticky "Nova ideia..." with the given colour and size at the position. |
| Header.PaperDraft | src/components/layout/Header.tsx:29-42 | A paper "Escreva suas notas aqui..." titled "Novo Paper". |
| Header.ClearShowsAll | src/components/layout/Header.tsx:77-79 | After clearing, every card passes the search. |
| Header.HeaderBar.constructor | src/components/layout/Header.tsx:10-13 | All panels closed, link URL "". |
| Header.HeaderBar.AddSticky | src/components/layout/Header.tsx:15-27 | The store gains the sticky and the menu collapses. |
| Header.HeaderBar.AddPaper | src/components/layout/Header.tsx:29-42 | The store gains the paper and the menu collapses. |
| Header.HeaderBar.AddLink | src/components/layout/Header.tsx:44-54 | A blank URL changes nothing; otherwise the trimmed URL becomes a link card, the input is cleared and hidden, and the menu collapses. |
| Header.HeaderBar.LinkKeyPress | src/components/layout/Header.tsx:56-64 | Enter adds the link; Escape hides and clears without adding; other keys change nothing. |
| Header.HeaderBar.Search | src/components/layout/Header.tsx:66-68 | Only the query changes. |
| Header.HeaderBar.TypeFilterToggle | src/components/layout/Header.tsx:70-75 | The type filters become the toggled list; nothing else changes. |
| Header.HeaderBar.ClearTypeFilters | src/components/layout/Header.tsx:77-79 | Query, type filters and tag filters are emptied; highlighted ids are kept. |
| Header.HeaderBar.ToggleExpanded | src/components/layout/Header.tsx:81-83 | The menu flips. |
| Header.HeaderBar.ToggleTypeFilterPanel | src/components/layout/Header.tsx:102 | The filter panel flips. |
| Header.HeaderBar.CloseTypeFilterPanel | src/components/layout/Header.tsx:149 | The filter panel closes. |
| Header.HeaderBar.OpenLinkInput | src/components/layout/Header.tsx:190 | The URL input shows. |
| Header.HeaderBar.SetLinkUrl | src/components/layout/Header.tsx:243 | The URL text is replaced. |
| ChatPanel.ContextAsWritten | src/components/board/ChatPanel.tsx:64-87 | The context as written: the fixed no-selection message for no cards, otherwise a line that starts "Cards selecionados: ". |
| ChatPanel.GenerateContext | src/components/board/ChatPanel.tsx:64-87 | The corrected context, which reads `fileName`: the same two shapes. |
| ChatPanel.ContextSnoc | src/components/board/ChatPanel.tsx:64-87 | One more selected card appends ", " and its part. |
| ChatPanel.ContextSingle | src/components/board/ChatPanel.tsx:64-87 | One card gives "Cards selecionados: " and its part. |
| ChatPanel.UploadedParts | src/components/board/ChatPanel.tsx:75-80 | For an uploaded image or PDF, the part read by `filename` is "sem nome"; read by `fileName` it is the file's name. |
| ChatPanel.AsWrittenLosesName | src/components/board/ChatPanel.tsx:76 | As written, the context of an uploaded image or PDF calls it "sem nome", whatever the file is called. |
| ChatPanel.ContextNamesUpload | src/components/board/ChatPanel.tsx:75-80 | With the `fileName` key the context names the uploaded file. |
| ChatPanel.SampleImageCounterexample | src/components/board/ChatPanel.tsx:76 | The sample image card reads "sem nome" as written and "imagem-exemplo.jpg" when corrected. |
| ChatPanel.FullChatSnoc | src/components/board/ChatPanel.tsx:152-154 | One more message appends a blank line and "role: content". |
| ChatPanel.SendEnabledMeansText | src/components/board/ChatPanel.tsx:347 | Send is enabled iff the input is not blank and no reply is pending. |
| ChatPanel.ChatPanelState.constructor | src/components/board/ChatPanel.tsx:36-41 | No chat, empty history, empty input and selection, not loading, history closed. |
| ChatPanel.ChatPanelState.OpenEffect | src/components/board/ChatPanel.tsx:45-56 | Opening without a chat starts an empty one whose context is the selected cards' context as written (files named by `filename`); otherwise nothing changes. |
| ChatPanel.ChatPanelState.SetInputMessage | src/components/board/ChatPanel.tsx:340 | Only the input text changes. |
| ChatPanel.ChatPanelState.SendMessage | src/components/board/ChatPanel.tsx:90-108 | Blank input or no chat changes nothing. Otherwise the user message is appended, the input cleared, loading set and a reply timer queued with that chat. |
| ChatPanel.ChatPanelState.DeliverReply | src/components/board/ChatPanel.tsx:110-124 | The oldest timer fires: its captured chat plus the reply becomes current and loading ends. |
| ChatPanel.ChatPanelState.SaveCurrentChat | src/components/board/ChatPanel.tsx:128-134 | Closes iff the chat has messages; then it is pushed to the front of the history and the current chat cleared; otherwise nothing changes. |
| ChatPanel.ChatPanelState.OpenChatFromHistory | src/components/board/ChatPanel.tsx:137-140 | The chat becomes current and the history panel closes. |
| ChatPanel.ChatPanelState.ToggleHistory | src/components/board/ChatPanel.tsx:186 | The history panel flips. |
| ChatPanel.ChatPanelState.SelectText | src/components/board/ChatPanel.tsx:165-170 | A non-blank selection is kept; a blank one changes nothing. |
| ChatPanel.ChatPanelState.ClearSelectedText | src/components/board/ChatPanel.tsx:308 | The selection empties. |
| ChatPanel.ChatPanelState.CreateSticker | src/components/board/ChatPanel.tsx:143-149 | Passes the selected text iff it is not blank, then clears it. |
| ChatPanel.ChatPanelState.CreatePaper | src/components/board/ChatPanel.tsx:152-162 | Passes the whole chat ("role: content" joined by blank lines) or the selection iff it is not blank; only the selection path clears it. |
| Seqs.FilterCount | src/hooks/useBoard.ts:260-265 | Filtering keeps each passing element exactly as often as it occurs, and drops the others. |
| Seqs.FilterConcat | src/hooks/useBoard.ts:260-265 | Filtering splits over concatenation, which preserves relative order. |
| Seqs.FilterFilter | src/hooks/useBoard.ts:405-425 | Filtering twice is filtering once by the conjunction. |
| Text.TrimSpec | src/components/layout/Header.tsx:45-49 | trim() returns a contiguous piece of the string with no white space at either end, cuts off only white space, and returns "" iff the string is blank. |
| Text.TrimIdempotent | src/components/layout/Header.tsx:45-49 | Trimming twice is trimming once. |
| Text.ContainsSpec | src/hooks/useBoard.ts:327 | includes() holds iff the needle occurs at some offset. |
| Text.JoinSnoc | src/components/board/PDFCard.tsx:114-121 | Joining one more part appends the separator and the part. |
| BoardTypes.FindCard | src/components/board/Board.tsx:71 | find(): none iff no card has the id; otherwise the first card with it. |

## Left out

Outside the logic:

- Rendering, animation (framer-motion), CSS classes, icons, tooltips and the
  lightbox: these are presentation only.
- Console logging has no effect on state.
- DOM listeners and `requestAnimationFrame`:
  - Each handler is a method, called when its event fires.
  - The frame delay before a wheel or pan update is not modelled. The update
    uses the state of the event, as in the source's closures.

Values and time:

- Numbers are exact reals. The model has no IEEE rounding, NaN or Infinity.
  - The minimap's `±Infinity` start values are replaced by the first card's
    position, which is what the first step yields.
- Metadata numbers are integers.
- `Date.now()`, `Math.random()`, `URL.createObjectURL`,
  `getBoundingClientRect` and `window.getSelection` become parameters.
- Timers (`setTimeout`) become explicit steps:
  - `ExpireUpload` removes the entry 2 or 5 seconds after an upload.
  - `DeliverReply` fires the one-second chat reply, oldest first.
  - The upload loop's `await` pauses are not modelled.
  - Interleavings beyond "timers fire in the order they were set" are not
    modelled.

Cards, the board and the panels:

- Link cards, sticky notes and paper cards as components, `BoardContext`,
  `useBoardContext` and the tag UI are not part of this model. Only the
  calls that the modelled components make into the store are modelled.
- Text.Lower: lowers ASCII letters only, unlike the full Unicode
  `toLowerCase`.
- The board's `renderCard` switch is presentation.
  - The `default` branch of the chat context switch cannot be reached,
    because the card type is a closed datatype.
- `useCanvas` throws outside a provider. The model always has a provider.
- A canvas patch whose field is an explicit `undefined` is modelled as
  absent. The source would overwrite that field with `undefined`.
- BoardView.BoardController.BulkColorChange and `BulkDelete`:
  - They visit the selection in an arbitrary order; the result is the same
    for every order.
  - The source's bulk duplicate is not modelled. It depends on `Set`
    iteration order and on fresh `Date.now()` ids for each copy.
    `BoardStore.DuplicateCard` models one copy.
- ImageCard.ImageDrag:
  - It holds one listener pair.
  - In the source, a press while a pair is attached attaches a second pair.
  - A press without a bounding box sets dragging but attaches no listener,
    so that drag only ends on the next release after a later press.
- The chat message timestamps and `createdAt` are left out. The title and
  the ids are parameters.
- The `onCreateSticker` and `onCreatePaper` callbacks that the board passes
  only log to the console.
  - The model returns the content the panel hands to them.
  - It does not add a card.
- BoardView.BoardController.Drop: runs the uploads one after another. The
  source starts them all at once (`forEach` with async callbacks), so
  their progress steps interleave and they finish in order of file size;
  it also takes every id from `Date.now()`, which can repeat within one
  drop. The model takes the ids as parameters and states the
  drop-order result; a reused id is handled as the source handles it
  (BoardStore.UploadEntriesSpec).
- The chat input's Enter key sends even while a reply is loading. The model
  allows this, as the source does: `SendMessage` does not test `isLoading`.

Weaker or narrower contracts:

- GridOverlay.Render: requires, when visible, that the loops end. A zero
  cell makes both offsets NaN, so no line is drawn, and the model returns
  no lines. A negative cell ends only when both offsets already lie at or
  past the board's edges. Otherwise the source's loops never end.
- ImageCard.ResizeShown: stated for cards drawn at a positive size. A
  negative stored width plus 50 can be 0, which then falls back to the
  default.
- Numbers.ParseIntToString: covers the decimal strings that `String()`
  writes for non-negative integers, which is what an upload stores as its
  byte count. Negative numbers, and the fractional and exponent forms of
  non-integer numbers, are not covered.

## Findings

| source | as written | input that shows it | evidently intended | confidence | as-written member | corrected member |
|---|---|---|---|---|---|---|
| src/components/board/Board.tsx:443-453 | The wheel zooms about `clientX - rect.left`, with rect the bounding box of the board element. That element carries the viewport's own translation (Board.tsx:669-677), so the anchor is the pointer moved back by the translation, not the pointer. | A scroll down at client x = 300 over a board translated 100 at scale 1: the pointer shows world x = 200, and the zoom holds world x = 100 still, so world x ≈ 211 ends up under the pointer. | Zoom about the pointer in the container's coordinates, keeping the world point under it. | high; not executed | BoardView.WheelDriftExample | BoardView.WheelAtPointerSpec |
| src/components/board/Board.tsx:467-495 | The zoom buttons take `rect.width / 2` as the centre of the visible board. That box is scaled by the viewport, so half of it is (W·s/2, H·s/2), which is the visible centre only at scale 1. | At scale 0.5 on a 1000×600 board the buttons hold still the point shown at (250, 150), not the one at the centre (500, 300). | Zoom about the container's visible centre. | high; not executed | BoardView.ZoomButtonsKeepCentre | BoardView.ZoomAtCentreSpec |
| src/components/board/Board.tsx:219-227 | The drop takes the same half box as the centre of the visible screen, as its comment says it means to. | At scale 0.5 on a 1000×600 board the first file lands on world (500, 300), shown at (250, 150), instead of world (1000, 600) at the centre. | Drop at the world point shown at the container's visible centre. | high; not executed | BoardView.DropAnchor | BoardView.DropAtCentre |
| src/components/board/ChatPanel.tsx:76 | The chat context names image and PDF cards by `card.metadata?.filename`. Uploads write `fileName` (useBoard.ts:145), and the cards and the search read `fileName` (ImageCard.tsx:61, PDFCard.tsx:37, useBoard.ts:334). So every such card shows as "sem nome". | The sample image card `"6"` with `fileName: "imagem-exemplo.jpg"` gives `Imagem "sem nome"`. | Read `fileName`, giving `Imagem "imagem-exemplo.jpg"`. | high; not executed | ChatPanel.AsWrittenLosesName | ChatPanel.ContextNamesUpload |

`ChatPanel.ContextAsWritten` models the context as written, and
`ChatPanel.ChatPanelState.OpenEffect` uses it. `ChatPanel.GenerateContext`
is the corrected form.

The wheel and zoom rows come from the board element's transform. The
element carries `translate(x, y) scale(s)` with origin 0 0 (Board.tsx:669-677),
so its bounding box starts at the container's corner plus the translation
and measures the container's size times the scale (`BoardView.BoardRect`).
The handlers, as modelled in `BoardView.BoardController`, run as written.
The corrected functions beside them are proved to keep the intended point.
