/**
 * The whiteboard canvas: its own pointer state (drawing, dragging, resizing,
 * connecting, the freehand stroke in progress) and the pointer handlers that
 * edit the store's scene. Pointer positions arrive already converted to canvas
 * coordinates (the client position divided by the zoom factor).
 */
module WhiteboardCanvas {
  import opened Js
  import opened WhiteboardScene
  import opened WhiteboardStore

  /** A JavaScript truthiness test on an optional string: present and non-empty. */
  predicate Truthy(s: Option<string>)
  {
    s.Some? && s.value != ""
  }

  class Canvas {
    const store: Store
    var isDrawing: bool
    var startPoint: Point
    var isDragging: bool
    var dragOffset: Point
    var resizeHandle: Option<string>
    var connectionStart: Option<string>
    var freehandPoints: seq<Point>
    var isRotating: bool
    var editingText: Option<string>

    constructor (store: Store)
      ensures this.store == store
      ensures !isDrawing && startPoint == Point(0, 0) && !isDragging && dragOffset == Point(0, 0)
      ensures resizeHandle == None && connectionStart == None && freehandPoints == []
      ensures !isRotating && editingText == None
    {
      this.store := store;
      isDrawing, startPoint := false, Point(0, 0);
      isDragging, dragOffset := false, Point(0, 0);
      resizeHandle, connectionStart := None, None;
      freehandPoints := [];
      isRotating := false;
      editingText := None;
    }

    /**
     * `handleMouseDown` at (x, y). `freshId` is the id `generateId()` would
     * return for a new text shape.
     */
    method MouseDown(x: int, y: int, shift: bool, freshId: string)
      modifies this`isDrawing, this`startPoint, this`isDragging, this`dragOffset, this`connectionStart,
               this`freehandPoints, store`shapes, store`selectedShapes, store`tool
      ensures old(store.tool) == "select" ==>
        var hit := ShapeAt(old(store.shapes), x, y, store.activeLayer);
        && store.selectedShapes == SelectionAfterClick(old(store.selectedShapes), hit, shift)
        && (hit.Some? ==> isDragging && dragOffset == Point(x - hit.value.x, y - hit.value.y))
        && (hit.None? ==> isDragging == old(isDragging) && dragOffset == old(dragOffset))
        && store.shapes == old(store.shapes)
      ensures old(store.tool) == "connection" ==>
        var hit := ShapeAt(old(store.shapes), x, y, store.activeLayer);
        && connectionStart == (if hit.Some? then Some(hit.value.id) else old(connectionStart))
        && store.shapes == old(store.shapes) && store.tool == old(store.tool)
      ensures old(store.tool) == "freehand" ==>
        isDrawing && freehandPoints == [Point(x, y)] && store.shapes == old(store.shapes)
      ensures old(store.tool) == "eraser" ==>
        store.shapes == EraseAt(old(store.shapes), x, y, store.activeLayer)
      ensures old(store.tool) == "text" ==>
        && store.shapes == old(store.shapes) + [NewTextShape(freshId, x, y, store.color, store.textStyle,
                                                             |old(store.shapes)|, store.activeLayer)]
        && store.tool == "select"
      ensures old(store.tool) !in ["select", "connection", "freehand", "eraser", "text"] ==>
        isDrawing && startPoint == Point(x, y) && store.shapes == old(store.shapes) && store.tool == old(store.tool)
      ensures old(store.tool) != "select" ==> store.selectedShapes == old(store.selectedShapes)
      ensures old(store.tool) != "text" ==> store.tool == old(store.tool)
      ensures old(store.tool) != "select" ==> isDragging == old(isDragging) && dragOffset == old(dragOffset)
      ensures old(store.tool) != "connection" ==> connectionStart == old(connectionStart)
      ensures old(store.tool) != "freehand" ==> freehandPoints == old(freehandPoints)
      ensures old(store.tool) in ["select", "connection", "eraser", "text"] ==> isDrawing == old(isDrawing)
      ensures old(store.tool) in ["select", "connection", "freehand", "eraser", "text"] ==> startPoint == old(startPoint)
    {
      var tool := store.tool;
      if tool == "select" {
        ClickSelect(x, y, shift);
      } else if tool == "connection" {
        var hit := ShapeAt(store.shapes, x, y, store.activeLayer);
        if hit.Some? {
          connectionStart := Some(hit.value.id);
        }
      } else if tool == "freehand" {
        isDrawing := true;
        freehandPoints := [Point(x, y)];
      } else if tool == "eraser" {
        store.shapes := EraseAt(store.shapes, x, y, store.activeLayer);
      } else if tool == "text" {
        PlaceText(x, y, freshId);
      } else {
        isDrawing := true;
        startPoint := Point(x, y);
      }
    }

    /** The select tool's half of `handleMouseDown`: update the selection, and start dragging a hit shape. */
    method ClickSelect(x: int, y: int, shift: bool)
      modifies this`isDragging, this`dragOffset, store`selectedShapes
      ensures var hit := ShapeAt(store.shapes, x, y, store.activeLayer);
        && store.selectedShapes == SelectionAfterClick(old(store.selectedShapes), hit, shift)
        && (hit.Some? ==> isDragging && dragOffset == Point(x - hit.value.x, y - hit.value.y))
        && (hit.None? ==> isDragging == old(isDragging) && dragOffset == old(dragOffset))
    {
      var hit := ShapeAt(store.shapes, x, y, store.activeLayer);
      store.selectedShapes := SelectionAfterClick(store.selectedShapes, hit, shift);
      if hit.Some? {
        isDragging := true;
        dragOffset := Point(x - hit.value.x, y - hit.value.y);
      }
    }

    /**
     * The click event of an unlocked shape's element (`onSelect`): the
     * selection becomes that shape alone, whatever the tool. Which shape gets
     * the click is decided by the browser (the topmost element under the
     * pointer, locked shapes letting it through), so it is a parameter.
     */
    method ShapeClicked(id: string)
      modifies store`selectedShapes
      ensures store.selectedShapes == [id]
    {
      store.selectedShapes := [id];
    }

    /**
     * A whole click with the select tool: the canvas's mouse-down selection,
     * then, when the click lands on a shape's element (`target`), that
     * shape's own click handler. A click on a shape therefore ends with that
     * shape selected alone, shift or not; only a click on empty canvas keeps
     * the mouse-down result.
     */
    method SelectClick(x: int, y: int, shift: bool, target: Option<string>)
      modifies this`isDragging, this`dragOffset, store`selectedShapes
      ensures target.Some? ==> store.selectedShapes == [target.value]
      ensures target.None? ==>
        store.selectedShapes == SelectionAfterClick(old(store.selectedShapes), ShapeAt(store.shapes, x, y, store.activeLayer), shift)
      ensures var hit := ShapeAt(store.shapes, x, y, store.activeLayer);
        && (hit.Some? ==> isDragging && dragOffset == Point(x - hit.value.x, y - hit.value.y))
        && (hit.None? ==> isDragging == old(isDragging) && dragOffset == old(dragOffset))
    {
      ClickSelect(x, y, shift);
      if target.Some? {
        ShapeClicked(target.value);
      }
    }

    /** The text tool's half of `handleMouseDown`: add a text shape at the pointer, then select. */
    method PlaceText(x: int, y: int, freshId: string)
      modifies store`shapes, store`tool
      ensures store.shapes == old(store.shapes) + [NewTextShape(freshId, x, y, store.color, store.textStyle,
                                                                |old(store.shapes)|, store.activeLayer)]
      ensures store.tool == "select"
    {
      store.shapes := store.shapes + [NewTextShape(freshId, x, y, store.color, store.textStyle,
                                                   |store.shapes|, store.activeLayer)];
      store.tool := "select";
    }

    /**
     * `handleMouseMove` at (x, y): grow the stroke or the rubber band while
     * drawing, else move the selection while dragging, else resize the single
     * selected shape, else (not rotating) erase under the eraser. Rotation is
     * not modelled: while rotating nothing changes.
     */
    method MouseMove(x: int, y: int)
      modifies this`freehandPoints, store`shapes
      ensures isDrawing && store.tool == "freehand" ==>
        freehandPoints == old(freehandPoints) + [Point(x, y)] && store.shapes == old(store.shapes)
      ensures isDrawing && store.tool != "freehand" ==>
        && store.shapes == UpsertTemp(old(store.shapes),
             TempShape(store.tool, startPoint, x, y, store.color, store.textStyle, |old(store.shapes)|, store.activeLayer))
        && (CountId(old(store.shapes), TempId) <= 1 ==> CountId(store.shapes, TempId) == 1)
      ensures !isDrawing && isDragging && |store.selectedShapes| > 0 ==>
        store.shapes == DragSelected(old(store.shapes), store.selectedShapes, x, y, dragOffset, store.snapToGrid)
      ensures !isDrawing && !(isDragging && |store.selectedShapes| > 0)
              && Truthy(resizeHandle) && |store.selectedShapes| == 1 ==>
        store.shapes == ResizeShapes(old(store.shapes), store.selectedShapes[0], resizeHandle.value, x, y, store.snapToGrid)
      ensures !isDrawing && !(isDragging && |store.selectedShapes| > 0)
              && !(Truthy(resizeHandle) && |store.selectedShapes| == 1)
              && !(isRotating && |store.selectedShapes| == 1) ==>
        store.shapes == (if store.tool == "eraser" then EraseAt(old(store.shapes), x, y, store.activeLayer)
                         else old(store.shapes))
      ensures !isDrawing && !(isDragging && |store.selectedShapes| > 0)
              && !(Truthy(resizeHandle) && |store.selectedShapes| == 1)
              && isRotating && |store.selectedShapes| == 1 ==>
        store.shapes == old(store.shapes)
      ensures !(isDrawing && store.tool == "freehand") ==> freehandPoints == old(freehandPoints)
    {
      if isDrawing {
        if store.tool == "freehand" {
          freehandPoints := freehandPoints + [Point(x, y)];
        } else {
          var t := TempShape(store.tool, startPoint, x, y, store.color, store.textStyle, |store.shapes|, store.activeLayer);
          UpsertTempKeepsOneTemp(store.shapes, t);
          store.shapes := UpsertTemp(store.shapes, t);
        }
      } else if isDragging && |store.selectedShapes| > 0 {
        store.shapes := DragSelected(store.shapes, store.selectedShapes, x, y, dragOffset, store.snapToGrid);
      } else if Truthy(resizeHandle) && |store.selectedShapes| == 1 {
        store.shapes := ResizeShapes(store.shapes, store.selectedShapes[0], resizeHandle.value, x, y, store.snapToGrid);
      } else if isRotating && |store.selectedShapes| == 1 {
      } else if store.tool == "eraser" {
        store.shapes := EraseAt(store.shapes, x, y, store.activeLayer);
      }
    }

    /**
     * `handleMouseUp` (also run when the pointer leaves the canvas) at (x, y):
     * commit the stroke or the rubber band under `freshId` and go back to the
     * select tool, or finish a connection; then clear every pointer mode.
     * A connection never links a shape to itself.
     */
    method MouseUp(x: int, y: int, freshId: string)
      requires freshId != TempId
      modifies this, store`shapes, store`connections, store`tool
      ensures old(isDrawing) && old(store.tool) == "freehand" ==>
        && store.shapes == old(store.shapes) + (if |old(freehandPoints)| > 0 then
             [FreehandShape(freshId, old(freehandPoints), store.color, |old(store.shapes)|, store.activeLayer)] else [])
        && freehandPoints == []
      ensures old(isDrawing) && old(store.tool) != "freehand" ==>
        && store.shapes == CommitTemp(old(store.shapes), freshId)
        && CountId(store.shapes, TempId) == 0
        && freehandPoints == old(freehandPoints)
      ensures old(isDrawing) ==> store.tool == "select" && store.connections == old(store.connections)
      ensures !old(isDrawing) ==> store.tool == old(store.tool) && store.shapes == old(store.shapes)
                                  && freehandPoints == old(freehandPoints)
      ensures !old(isDrawing) && old(store.tool) == "connection" && Truthy(old(connectionStart)) ==>
        store.connections == ConnectAt(old(store.connections), store.shapes, old(connectionStart).value,
                                       x, y, store.activeLayer, freshId, store.color)
      ensures !old(isDrawing) && !(old(store.tool) == "connection" && Truthy(old(connectionStart))) ==>
        store.connections == old(store.connections)
      ensures NoSelfLinks(old(store.connections)) ==> NoSelfLinks(store.connections)
      ensures !isDrawing && !isDragging && resizeHandle == None && connectionStart == None && !isRotating
      ensures startPoint == old(startPoint) && dragOffset == old(dragOffset) && editingText == old(editingText)
    {
      if isDrawing {
        CommitDrawing(freshId);
      } else if store.tool == "connection" && Truthy(connectionStart) {
        FinishConnection(x, y, freshId);
      }
      isDrawing, isDragging, resizeHandle, connectionStart, isRotating := false, false, None, None, false;
    }

    /** The drawing half of `handleMouseUp`: commit the stroke or the rubber band, then select. */
    method CommitDrawing(freshId: string)
      requires freshId != TempId
      modifies this`freehandPoints, store`shapes, store`tool
      ensures old(store.tool) == "freehand" ==>
        && store.shapes == old(store.shapes) + (if |old(freehandPoints)| > 0 then
             [FreehandShape(freshId, old(freehandPoints), store.color, |old(store.shapes)|, store.activeLayer)] else [])
        && freehandPoints == []
      ensures old(store.tool) != "freehand" ==>
        && store.shapes == CommitTemp(old(store.shapes), freshId)
        && CountId(store.shapes, TempId) == 0
        && freehandPoints == old(freehandPoints)
      ensures store.tool == "select"
    {
      if store.tool == "freehand" {
        if |freehandPoints| > 0 {
          store.shapes := store.shapes + [FreehandShape(freshId, freehandPoints, store.color, |store.shapes|, store.activeLayer)];
        }
        freehandPoints := [];
      } else {
        CommitTempRemovesTemp(store.shapes, freshId);
        store.shapes := CommitTemp(store.shapes, freshId);
      }
      store.tool := "select";
    }

    /** The connection half of `handleMouseUp`: link the start shape to the shape under the pointer. */
    method FinishConnection(x: int, y: int, freshId: string)
      requires Truthy(connectionStart)
      modifies store`connections
      ensures store.connections == ConnectAt(old(store.connections), store.shapes, connectionStart.value,
                                             x, y, store.activeLayer, freshId, store.color)
      ensures NoSelfLinks(old(store.connections)) ==> NoSelfLinks(store.connections)
    {
      ConnectAtNeverSelfLinks(store.connections, store.shapes, connectionStart.value, x, y,
                              store.activeLayer, freshId, store.color);
      store.connections := ConnectAt(store.connections, store.shapes, connectionStart.value, x, y,
                                     store.activeLayer, freshId, store.color);
    }

    /** `handleResizeStart`: grabbing a corner handle of the selected shape. */
    method ResizeStart(handle: string)
      modifies this`resizeHandle
      ensures resizeHandle == Some(handle)
    {
      resizeHandle := Some(handle);
    }

    /** `handleRotateStart`, without the start angle (rotation is not modelled). */
    method RotateStart()
      modifies this`isRotating
      ensures isRotating
    {
      isRotating := true;
    }

    /** `handleTextEdit`: a double click opens the editor of that shape. */
    method TextEdit(id: string)
      modifies this`editingText
      ensures editingText == Some(id)
    {
      editingText := Some(id);
    }

    /** `handleTextChange`: the editor's new value becomes the shape's content. */
    method TextChange(id: string, value: string)
      modifies store`shapes
      ensures store.shapes == SetContent(old(store.shapes), id, value)
    {
      store.shapes := SetContent(store.shapes, id, value);
    }
  }
}
