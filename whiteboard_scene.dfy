/**
 * The whiteboard's scene: shapes, connections and layer names, and the pure
 * list edits its handlers apply to them (hit-testing, erasing, the rubber-band
 * shape drawn while dragging, snapping, dragging, resizing, connecting, and
 * adding/deleting layers). Coordinates are canvas coordinates (the pointer
 * position already divided by the zoom factor), taken as integers.
 */
module WhiteboardScene {
  import opened Js

  datatype Point = Point(x: int, y: int)

  /** The text attributes a text or sticky shape carries. */
  datatype TextStyle = TextStyle(
    fontSize: int, fontWeight: string, fontStyle: string, textDecoration: string, textAlign: string)

  datatype Shape = Shape(
    id: string,
    kind: string,
    x: int, y: int, width: int, height: int,
    rotation: int,
    content: Option<string>,
    color: string,
    style: Option<TextStyle>,
    zIndex: int,
    locked: bool,
    visible: bool,
    points: seq<Point>,
    layer: int,
    libraryItem: Option<string>)

  datatype Connection = Connection(
    id: string,
    startShapeId: string,
    endShapeId: string,
    startPoint: Point,
    endPoint: Point,
    color: string,
    zIndex: int,
    layer: int)

  /** The id of the rubber-band shape that exists while a shape is being drawn. */
  const TempId: string := "temp"

  /** Grid pitch used by snap-to-grid. */
  const GridSize: int := 20

  const MinZoom: int := 10
  const MaxZoom: int := 200
  const ZoomStep: int := 10

  // ---------------------------------------------------------------------------
  // Hit-testing
  // ---------------------------------------------------------------------------

  /** The point (x, y) lies in the shape's box and the shape is on `layer`. */
  predicate Hits(s: Shape, x: int, y: int, layer: int)
  {
    x >= s.x && x <= s.x + s.width && y >= s.y && y <= s.y + s.height && s.layer == layer
  }

  /** `shapes.find(...)` with the hit predicate: the FIRST hit in array order. */
  function ShapeAt(shapes: seq<Shape>, x: int, y: int, layer: int): Option<Shape>
  {
    Find(shapes, s => Hits(s, x, y, layer))
  }

  /**
   * Hit-testing answers the first shape in array order that contains the point
   * on the active layer, and nothing only when no shape there does.
   */
  lemma ShapeAtIsFirstHit(shapes: seq<Shape>, x: int, y: int, layer: int)
    ensures ShapeAt(shapes, x, y, layer).None? <==>
      forall i :: 0 <= i < |shapes| ==> !Hits(shapes[i], x, y, layer)
    ensures ShapeAt(shapes, x, y, layer).Some? ==>
      exists i :: 0 <= i < |shapes| && shapes[i] == ShapeAt(shapes, x, y, layer).value
        && Hits(shapes[i], x, y, layer)
        && forall j :: 0 <= j < i ==> !Hits(shapes[j], x, y, layer)
  {
    var p := (s: Shape) => Hits(s, x, y, layer);
    match FindIndex(shapes, p)
    case None =>
    case Some(i) =>
      assert shapes[i] == ShapeAt(shapes, x, y, layer).value;
  }

  /**
   * The zIndex plays no part in hit-testing: of two overlapping shapes the one
   * earlier in the array is picked even when the later one is drawn on top.
   */
  lemma HitTestIgnoresZIndex(below: Shape, above: Shape, x: int, y: int, layer: int)
    requires Hits(below, x, y, layer) && Hits(above, x, y, layer)
    requires below.zIndex < above.zIndex
    ensures ShapeAt([below, above], x, y, layer) == Some(below)
  {
  }

  /**
   * The selection after a click with the select tool: the hit shape alone,
   * the hit shape appended on shift-click, nothing on a miss.
   */
  function SelectionAfterClick(selected: seq<string>, hit: Option<Shape>, shift: bool): (r: seq<string>)
    ensures hit.None? ==> r == []
    ensures hit.Some? && !shift ==> r == [hit.value.id]
    ensures hit.Some? && shift ==> r == selected + [hit.value.id]
  {
    match hit
    case None => []
    case Some(s) => if shift then selected + [s.id] else [s.id]
  }

  /** Number of entries of `ids` equal to `id`. */
  function Occurrences(ids: seq<string>, id: string): nat
  {
    if ids == [] then 0 else (if ids[0] == id then 1 else 0) + Occurrences(ids[1..], id)
  }

  lemma {:induction false} OccurrencesAppend(a: seq<string>, b: seq<string>, id: string)
    ensures Occurrences(a + b, id) == Occurrences(a, id) + Occurrences(b, id)
  {
    if a == [] {
      assert a + b == b;
    } else {
      assert (a + b)[0] == a[0] && (a + b)[1..] == a[1..] + b;
      OccurrencesAppend(a[1..], b, id);
    }
  }

  /**
   * Shift-clicking a shape that is already selected selects it a second time:
   * the selection then holds its id twice.
   */
  lemma ShiftClickDuplicates(selected: seq<string>, s: Shape)
    requires s.id in selected
    ensures Occurrences(SelectionAfterClick(selected, Some(s), true), s.id) >= 2
  {
    OccurrencesAppend(selected, [s.id], s.id);
    assert Occurrences([s.id], s.id) == 1;
    OccurrencesPositive(selected, s.id);
  }

  lemma {:induction false} OccurrencesPositive(ids: seq<string>, id: string)
    requires id in ids
    ensures Occurrences(ids, id) >= 1
  {
    if ids[0] != id {
      OccurrencesPositive(ids[1..], id);
    }
  }

  // ---------------------------------------------------------------------------
  // Eraser and text edits
  // ---------------------------------------------------------------------------

  /** `shapes.filter(s => s.id !== id)`. */
  function WithoutId(shapes: seq<Shape>, id: string): seq<Shape>
  {
    Filter(shapes, (s: Shape) => s.id != id)
  }

  /** The eraser at (x, y): every shape sharing the id of the first hit shape is removed. */
  function EraseAt(shapes: seq<Shape>, x: int, y: int, layer: int): seq<Shape>
  {
    match ShapeAt(shapes, x, y, layer)
    case None => shapes
    case Some(t) => WithoutId(shapes, t.id)
  }

  /**
   * A miss erases nothing; a hit removes exactly the shapes carrying the hit
   * shape's id and keeps every other shape, in order.
   */
  lemma EraseAtRemovesHitShape(shapes: seq<Shape>, x: int, y: int, layer: int)
    ensures ShapeAt(shapes, x, y, layer).None? ==> EraseAt(shapes, x, y, layer) == shapes
    ensures ShapeAt(shapes, x, y, layer).Some? ==>
      var t := ShapeAt(shapes, x, y, layer).value;
      var r := EraseAt(shapes, x, y, layer);
      && (forall i :: 0 <= i < |r| ==> r[i].id != t.id && r[i] in shapes)
      && (forall i :: 0 <= i < |shapes| && shapes[i].id != t.id ==> shapes[i] in r)
      && |r| < |shapes|
  {
    match ShapeAt(shapes, x, y, layer)
    case None =>
    case Some(t) =>
      FilterShorter(shapes, (s: Shape) => s.id != t.id);
  }

  /** The text tool's new shape: a 100x30 "New text" box at the pointer. */
  function NewTextShape(id: string, x: int, y: int, color: string, style: TextStyle, zIndex: int, layer: int): Shape
  {
    Shape(id, "text", x, y, 100, 30, 0, Some("New text"), color, Some(style), zIndex, false, true, [], layer, None)
  }

  /** `handleTextChange`: the content of every shape with id `id` becomes `value`. */
  function SetContent(shapes: seq<Shape>, id: string, value: string): (r: seq<Shape>)
    ensures |r| == |shapes|
    ensures forall i :: 0 <= i < |shapes| && shapes[i].id != id ==> r[i] == shapes[i]
    ensures forall i :: 0 <= i < |shapes| && shapes[i].id == id ==> r[i] == shapes[i].(content := Some(value))
  {
    MapSeq(shapes, (s: Shape) => if s.id == id then s.(content := Some(value)) else s)
  }

  // ---------------------------------------------------------------------------
  // Drawing a shape: the rubber band and its commit
  // ---------------------------------------------------------------------------

  function Abs(v: int): nat { if v < 0 then -v else v }
  function Min(a: int, b: int): int { if a <= b then a else b }
  function Max(a: int, b: int): int { if a >= b then a else b }

  predicate IsTextTool(tool: string) { tool == "text" || tool == "sticky" }

  /**
   * The rubber-band shape while dragging from `start` to (x, y) with a drawing
   * tool: the box spanned by the two corners, whichever way the drag goes.
   */
  function TempShape(tool: string, start: Point, x: int, y: int, color: string, style: TextStyle,
                     zIndex: int, layer: int): Shape
  {
    var width := x - start.x;
    var height := y - start.y;
    Shape(TempId, tool,
          if width >= 0 then start.x else x,
          if height >= 0 then start.y else y,
          Abs(width), Abs(height), 0,
          if IsTextTool(tool) then Some("New " + tool) else None,
          color,
          if IsTextTool(tool) then Some(style) else None,
          zIndex, false, true, [], layer, None)
  }

  /**
   * The rubber band is normalised: its top-left corner is the componentwise
   * minimum of the two corners, its size their absolute distance, so it spans
   * exactly from the minimum to the maximum corner.
   */
  lemma TempShapeNormalised(tool: string, start: Point, x: int, y: int, color: string, style: TextStyle,
                            zIndex: int, layer: int)
    ensures var t := TempShape(tool, start, x, y, color, style, zIndex, layer);
      && t.id == TempId && t.width >= 0 && t.height >= 0
      && t.x == Min(start.x, x) && t.y == Min(start.y, y)
      && t.width == Abs(x - start.x) && t.height == Abs(y - start.y)
      && t.x + t.width == Max(start.x, x) && t.y + t.height == Max(start.y, y)
      && t.layer == layer && t.zIndex == zIndex
  {
  }

  /** Number of shapes with id `id`. */
  function CountId(shapes: seq<Shape>, id: string): nat
  {
    if shapes == [] then 0 else (if shapes[0].id == id then 1 else 0) + CountId(shapes[1..], id)
  }

  lemma {:induction false} CountIdAppend(a: seq<Shape>, b: seq<Shape>, id: string)
    ensures CountId(a + b, id) == CountId(a, id) + CountId(b, id)
  {
    if a == [] {
      assert a + b == b;
    } else {
      assert (a + b)[0] == a[0] && (a + b)[1..] == a[1..] + b;
      CountIdAppend(a[1..], b, id);
    }
  }

  lemma {:induction false} CountIdZero(shapes: seq<Shape>, id: string)
    ensures CountId(shapes, id) == 0 <==> forall i :: 0 <= i < |shapes| ==> shapes[i].id != id
  {
    if shapes != [] {
      CountIdZero(shapes[1..], id);
      assert forall i :: 1 <= i < |shapes| ==> shapes[1..][i - 1] == shapes[i];
    }
  }

  /** Replace every rubber-band shape by `t`. */
  function ReplaceTemp(shapes: seq<Shape>, t: Shape): (r: seq<Shape>)
    ensures |r| == |shapes|
    ensures forall i :: 0 <= i < |shapes| ==> r[i] == if shapes[i].id == TempId then t else shapes[i]
  {
    MapSeq(shapes, (s: Shape) => if s.id == TempId then t else s)
  }

  /** While drawing: replace the rubber band if there is one, else append it. */
  function UpsertTemp(shapes: seq<Shape>, t: Shape): seq<Shape>
  {
    match Find(shapes, (s: Shape) => s.id == TempId)
    case Some(_) => ReplaceTemp(shapes, t)
    case None => shapes + [t]
  }

  lemma {:induction false} ReplaceTempCount(shapes: seq<Shape>, t: Shape)
    requires t.id == TempId
    ensures CountId(ReplaceTemp(shapes, t), TempId) == CountId(shapes, TempId)
  {
    if shapes != [] {
      var r := ReplaceTemp(shapes, t);
      assert r[1..] == ReplaceTemp(shapes[1..], t);
      ReplaceTempCount(shapes[1..], t);
    }
  }

  /**
   * Drawing keeps at most one rubber band: the number of shapes with id
   * "temp" becomes 1 when there was none and is unchanged otherwise; the new
   * rubber band is in the scene and no other shape changes.
   */
  lemma UpsertTempKeepsOneTemp(shapes: seq<Shape>, t: Shape)
    requires t.id == TempId
    ensures CountId(UpsertTemp(shapes, t), TempId) == Max(1, CountId(shapes, TempId))
    ensures CountId(shapes, TempId) <= 1 ==> CountId(UpsertTemp(shapes, t), TempId) == 1
    ensures t in UpsertTemp(shapes, t)
    ensures forall i :: 0 <= i < |shapes| && shapes[i].id != TempId ==> UpsertTemp(shapes, t)[i] == shapes[i]
  {
    var p := (s: Shape) => s.id == TempId;
    match Find(shapes, p)
    case Some(u) =>
      ReplaceTempCount(shapes, t);
      var i :| 0 <= i < |shapes| && shapes[i] == u;
      assert ReplaceTemp(shapes, t)[i] == t;
      assert CountId(shapes, TempId) != 0 by { CountIdZero(shapes, TempId); }
    case None =>
      CountIdAppend(shapes, [t], TempId);
      assert CountId([t], TempId) == 1;
      CountIdZero(shapes, TempId);
      assert (shapes + [t])[|shapes|] == t;
  }

  /** On mouse-up: the first rubber band gets the fresh id and moves to the end; all rubber bands leave. */
  function CommitTemp(shapes: seq<Shape>, freshId: string): seq<Shape>
  {
    match Find(shapes, (s: Shape) => s.id == TempId)
    case None => shapes
    case Some(t) => WithoutId(shapes, TempId) + [t.(id := freshId)]
  }

  /**
   * Committing the rubber band leaves no shape with id "temp" (for a fresh id
   * other than "temp"), appends the rubber band's box under the fresh id and
   * keeps every other shape; without a rubber band nothing changes.
   */
  lemma CommitTempRemovesTemp(shapes: seq<Shape>, freshId: string)
    requires freshId != TempId
    ensures CountId(CommitTemp(shapes, freshId), TempId) == 0
    ensures CountId(shapes, TempId) == 0 ==> CommitTemp(shapes, freshId) == shapes
    ensures CountId(shapes, TempId) > 0 ==>
      var r := CommitTemp(shapes, freshId);
      |r| > 0 && r[|r| - 1].id == freshId && r[|r| - 1].(id := TempId) in shapes
    ensures forall i :: 0 <= i < |shapes| && shapes[i].id != TempId ==> shapes[i] in CommitTemp(shapes, freshId)
  {
    var p := (s: Shape) => s.id == TempId;
    CountIdZero(shapes, TempId);
    match Find(shapes, p)
    case None =>
    case Some(t) =>
      var w := WithoutId(shapes, TempId);
      var r := w + [t.(id := freshId)];
      CountIdAppend(w, [t.(id := freshId)], TempId);
      CountIdZero(w, TempId);
      assert CountId([t.(id := freshId)], TempId) == 0;
      assert t.(id := freshId).(id := TempId) == t;
  }

  /** The least x-coordinate of a non-empty point list (`Math.min(...xs)`). */
  function MinX(ps: seq<Point>): (r: int)
    requires |ps| > 0
    ensures forall i :: 0 <= i < |ps| ==> r <= ps[i].x
    ensures exists i :: 0 <= i < |ps| && ps[i].x == r
  {
    if |ps| == 1 then ps[0].x
    else
      var m := MinX(ps[1..]);
      assert forall i :: 1 <= i < |ps| ==> ps[i] == ps[1..][i - 1];
      if ps[0].x <= m then ps[0].x else m
  }

  function MaxX(ps: seq<Point>): (r: int)
    requires |ps| > 0
    ensures forall i :: 0 <= i < |ps| ==> ps[i].x <= r
    ensures exists i :: 0 <= i < |ps| && ps[i].x == r
  {
    if |ps| == 1 then ps[0].x
    else
      var m := MaxX(ps[1..]);
      assert forall i :: 1 <= i < |ps| ==> ps[i] == ps[1..][i - 1];
      if ps[0].x >= m then ps[0].x else m
  }

  function MinY(ps: seq<Point>): (r: int)
    requires |ps| > 0
    ensures forall i :: 0 <= i < |ps| ==> r <= ps[i].y
    ensures exists i :: 0 <= i < |ps| && ps[i].y == r
  {
    if |ps| == 1 then ps[0].y
    else
      var m := MinY(ps[1..]);
      assert forall i :: 1 <= i < |ps| ==> ps[i] == ps[1..][i - 1];
      if ps[0].y <= m then ps[0].y else m
  }

  function MaxY(ps: seq<Point>): (r: int)
    requires |ps| > 0
    ensures forall i :: 0 <= i < |ps| ==> ps[i].y <= r
    ensures exists i :: 0 <= i < |ps| && ps[i].y == r
  {
    if |ps| == 1 then ps[0].y
    else
      var m := MaxY(ps[1..]);
      assert forall i :: 1 <= i < |ps| ==> ps[i] == ps[1..][i - 1];
      if ps[0].y >= m then ps[0].y else m
  }

  /**
   * The freehand stroke committed on mouse-up: its box is the bounding box of
   * the stroke's points, which it keeps.
   */
  function FreehandShape(id: string, ps: seq<Point>, color: string, zIndex: int, layer: int): (r: Shape)
    requires |ps| > 0
    ensures r.points == ps && r.kind == "freehand" && r.id == id
    ensures r.width >= 0 && r.height >= 0
    ensures forall i :: 0 <= i < |ps| ==>
      r.x <= ps[i].x <= r.x + r.width && r.y <= ps[i].y <= r.y + r.height
    ensures exists i :: 0 <= i < |ps| && ps[i].x == r.x
    ensures exists i :: 0 <= i < |ps| && ps[i].x == r.x + r.width
    ensures exists i :: 0 <= i < |ps| && ps[i].y == r.y
    ensures exists i :: 0 <= i < |ps| && ps[i].y == r.y + r.height
  {
    Shape(id, "freehand", MinX(ps), MinY(ps), MaxX(ps) - MinX(ps), MaxY(ps) - MinY(ps), 0,
          None, color, None, zIndex, false, true, ps, layer, None)
  }

  // ---------------------------------------------------------------------------
  // Snapping, dragging, resizing
  // ---------------------------------------------------------------------------

  /** `Math.round(v / 20) * 20`: halves round up, towards +infinity. */
  function Snap(v: int): int
  {
    ((v + GridSize / 2) / GridSize) * GridSize
  }

  /** A snapped value is on the grid, at most half a grid step from the input, and snapping is idempotent. */
  lemma SnapToNearestGridLine(v: int)
    ensures Snap(v) % GridSize == 0
    ensures -GridSize / 2 < Snap(v) - v <= GridSize / 2
    ensures Snap(Snap(v)) == Snap(v)
  {
    var q := (v + 10) / 20;
    assert Snap(v) == q * 20;
    assert (q * 20 + 10) / 20 == q;
  }

  /** A dragged coordinate: the pointer minus the grab offset, snapped when snapping is on. */
  function DragCoord(pointer: int, offset: int, snap: bool): int
  {
    if snap then Snap(pointer - offset) else pointer - offset
  }

  /** Dragging: every selected shape moves so that its grab offset lies under the pointer. */
  function DragSelected(shapes: seq<Shape>, selected: seq<string>, x: int, y: int, offset: Point, snap: bool): seq<Shape>
  {
    MapSeq(shapes, (s: Shape) =>
      if s.id in selected then s.(x := DragCoord(x, offset.x, snap), y := DragCoord(y, offset.y, snap)) else s)
  }

  /**
   * Dragging moves only the selected shapes and only their position: without
   * snapping the grab point is exactly under the pointer, with snapping the
   * position lies on the grid.
   */
  lemma DragMovesSelectedOnly(shapes: seq<Shape>, selected: seq<string>, x: int, y: int, offset: Point, snap: bool)
    ensures |DragSelected(shapes, selected, x, y, offset, snap)| == |shapes|
    ensures forall i :: 0 <= i < |shapes| && shapes[i].id !in selected ==>
      DragSelected(shapes, selected, x, y, offset, snap)[i] == shapes[i]
    ensures forall i :: 0 <= i < |shapes| && shapes[i].id in selected ==>
      var r := DragSelected(shapes, selected, x, y, offset, snap)[i];
      && r == shapes[i].(x := r.x, y := r.y)
      && (!snap ==> r.x + offset.x == x && r.y + offset.y == y)
      && (snap ==> r.x % GridSize == 0 && r.y % GridSize == 0)
  {
    forall i | 0 <= i < |shapes| && shapes[i].id in selected && snap
      ensures DragSelected(shapes, selected, x, y, offset, snap)[i].x % GridSize == 0
      ensures DragSelected(shapes, selected, x, y, offset, snap)[i].y % GridSize == 0
    {
      SnapToNearestGridLine(x - offset.x);
      SnapToNearestGridLine(y - offset.y);
    }
  }

  const TopLeft: string := "top-left"
  const TopRight: string := "top-right"
  const BottomLeft: string := "bottom-left"
  const BottomRight: string := "bottom-right"

  predicate IsCorner(handle: string)
  {
    handle == TopLeft || handle == TopRight || handle == BottomLeft || handle == BottomRight
  }

  /** The corner of a shape's box that a resize handle names. */
  function Corner(s: Shape, handle: string): Point
    requires IsCorner(handle)
  {
    if handle == TopLeft then Point(s.x, s.y)
    else if handle == TopRight then Point(s.x + s.width, s.y)
    else if handle == BottomLeft then Point(s.x, s.y + s.height)
    else Point(s.x + s.width, s.y + s.height)
  }

  function Opposite(handle: string): (r: string)
    requires IsCorner(handle)
    ensures IsCorner(r)
  {
    if handle == TopLeft then BottomRight
    else if handle == TopRight then BottomLeft
    else if handle == BottomLeft then TopRight
    else TopLeft
  }

  /** Snap all four geometry fields of a shape to the grid. */
  function SnapGeometry(s: Shape): Shape
  {
    s.(x := Snap(s.x), y := Snap(s.y), width := Snap(s.width), height := Snap(s.height))
  }

  /**
   * The copy of a shape produced by dragging resize handle `handle` to
   * (x, y): the switch over the handle updates width/height and x/y field by
   * field, then snapping (when on) rounds all four fields.
   */
  function Resized(s: Shape, handle: string, x: int, y: int, snap: bool): Shape
  {
    var n :=
      if handle == TopLeft then
        s.(width := s.width + s.x - x, height := s.height + s.y - y, x := x, y := y)
      else if handle == TopRight then
        s.(width := x - s.x, height := s.height + s.y - y, y := y)
      else if handle == BottomLeft then
        s.(width := s.width + s.x - x, height := y - s.y, x := x)
      else if handle == BottomRight then
        s.(width := x - s.x, height := y - s.y)
      else s;
    if snap then SnapGeometry(n) else n
  }

  /**
   * Without snapping, the dragged corner lands on the pointer and the opposite
   * corner stays where it was; an unknown handle changes nothing. Only the
   * geometry ever changes.
   */
  lemma ResizeKeepsOppositeCorner(s: Shape, handle: string, x: int, y: int)
    ensures IsCorner(handle) ==>
      && Corner(Resized(s, handle, x, y, false), handle) == Point(x, y)
      && Corner(Resized(s, handle, x, y, false), Opposite(handle)) == Corner(s, Opposite(handle))
    ensures !IsCorner(handle) ==> Resized(s, handle, x, y, false) == s
    ensures var r := Resized(s, handle, x, y, false);
      r == s.(x := r.x, y := r.y, width := r.width, height := r.height)
  {
  }

  /** With snapping, every geometry field of the resized shape is a multiple of the grid size. */
  lemma ResizeSnapsToGrid(s: Shape, handle: string, x: int, y: int)
    ensures var r := Resized(s, handle, x, y, true);
      && r.x % GridSize == 0 && r.y % GridSize == 0
      && r.width % GridSize == 0 && r.height % GridSize == 0
      && r == SnapGeometry(Resized(s, handle, x, y, false))
  {
    var n := Resized(s, handle, x, y, false);
    SnapToNearestGridLine(n.x);
    SnapToNearestGridLine(n.y);
    SnapToNearestGridLine(n.width);
    SnapToNearestGridLine(n.height);
  }

  /** Resize every shape carrying the id `id`. */
  function ResizeShapes(shapes: seq<Shape>, id: string, handle: string, x: int, y: int, snap: bool): (r: seq<Shape>)
    ensures |r| == |shapes|
    ensures forall i :: 0 <= i < |shapes| ==>
      r[i] == if shapes[i].id == id then Resized(shapes[i], handle, x, y, snap) else shapes[i]
  {
    MapSeq(shapes, (s: Shape) => if s.id == id then Resized(s, handle, x, y, snap) else s)
  }

  // ---------------------------------------------------------------------------
  // Connections
  // ---------------------------------------------------------------------------

  predicate NoSelfLinks(conns: seq<Connection>)
  {
    forall i :: 0 <= i < |conns| ==> conns[i].startShapeId != conns[i].endShapeId
  }

  /**
   * Mouse-up with the connection tool: link `startId` to the first shape under
   * (x, y) on `layer`, unless there is none or it is the start shape itself.
   */
  function ConnectAt(conns: seq<Connection>, shapes: seq<Shape>, startId: string, x: int, y: int,
                     layer: int, freshId: string, color: string): seq<Connection>
  {
    match ShapeAt(shapes, x, y, layer)
    case Some(e) =>
      if e.id != startId then
        conns + [Connection(freshId, startId, e.id, Point(0, 0), Point(0, 0), color, |conns|, layer)]
      else conns
    case None => conns
  }

  /**
   * A connection is added exactly when a shape other than the start shape is
   * under the end point, it links the start shape to that shape, and the
   * scene never gains a self-connection.
   */
  lemma ConnectAtNeverSelfLinks(conns: seq<Connection>, shapes: seq<Shape>, startId: string, x: int, y: int,
                                layer: int, freshId: string, color: string)
    ensures var r := ConnectAt(conns, shapes, startId, x, y, layer, freshId, color);
      var hit := ShapeAt(shapes, x, y, layer);
      && (hit.Some? && hit.value.id != startId ==>
            |r| == |conns| + 1 && r[..|conns|] == conns
            && r[|conns|].startShapeId == startId && r[|conns|].endShapeId == hit.value.id
            && r[|conns|].layer == layer && r[|conns|].zIndex == |conns|)
      && (!(hit.Some? && hit.value.id != startId) ==> r == conns)
      && (NoSelfLinks(conns) ==> NoSelfLinks(r))
  {
  }

  // ---------------------------------------------------------------------------
  // Zoom and layers
  // ---------------------------------------------------------------------------

  function ZoomOut(zoom: int): int { Max(MinZoom, zoom - ZoomStep) }
  function ZoomIn(zoom: int): int { Min(MaxZoom, zoom + ZoomStep) }

  /**
   * The zoom buttons move by one step and never leave [10, 200] once inside;
   * zooming out never goes below 10 and zooming in never above 200 from anywhere.
   */
  lemma ZoomStaysInRange(zoom: int)
    ensures ZoomOut(zoom) >= MinZoom && ZoomIn(zoom) <= MaxZoom
    ensures MinZoom <= zoom <= MaxZoom ==>
      MinZoom <= ZoomOut(zoom) <= MaxZoom && MinZoom <= ZoomIn(zoom) <= MaxZoom
    ensures zoom - ZoomStep >= MinZoom ==> ZoomOut(zoom) == zoom - ZoomStep
    ensures zoom + ZoomStep <= MaxZoom ==> ZoomIn(zoom) == zoom + ZoomStep
  {
  }

  /** The "Add Layer" button: a new name "Layer n+1" is appended. */
  function AddLayer(layers: seq<string>): (r: seq<string>)
    ensures |r| == |layers| + 1 && r[..|layers|] == layers
    ensures r[|layers|] == "Layer " + NatToString(|layers| + 1)
  {
    layers + ["Layer " + NatToString(|layers| + 1)]
  }

  /** `layers.filter((_, i) => i !== index)`, walking positions from `k`. */
  function RemovePositionFrom(layers: seq<string>, index: int, k: nat): seq<string>
    requires k <= |layers|
    decreases |layers| - k
  {
    if k == |layers| then []
    else (if k != index then [layers[k]] else []) + RemovePositionFrom(layers, index, k + 1)
  }

  function RemovePosition(layers: seq<string>, index: int): seq<string>
  {
    RemovePositionFrom(layers, index, 0)
  }

  lemma {:induction false} RemovePositionFromSpec(layers: seq<string>, index: int, k: nat)
    requires k <= |layers|
    ensures RemovePositionFrom(layers, index, k) ==
      if k <= index < |layers| then layers[k..index] + layers[index + 1..] else layers[k..]
    decreases |layers| - k
  {
    if k < |layers| {
      RemovePositionFromSpec(layers, index, k + 1);
      if k == index {
        assert layers[k..index] == [];
      } else if k < index < |layers| {
        assert layers[k..index] == [layers[k]] + layers[k + 1..index];
      } else {
        assert layers[k..] == [layers[k]] + layers[k + 1..];
      }
    }
  }

  /** Deleting by position removes exactly the name at `index`, if there is one. */
  lemma RemovePositionSpec(layers: seq<string>, index: int)
    ensures RemovePosition(layers, index) ==
      if 0 <= index < |layers| then layers[..index] + layers[index + 1..] else layers
  {
    RemovePositionFromSpec(layers, index, 0);
    assert layers[0..] == layers;
  }

  function ShapesOffLayer(shapes: seq<Shape>, index: int): seq<Shape>
  {
    Filter(shapes, (s: Shape) => s.layer != index)
  }

  function ConnectionsOffLayer(conns: seq<Connection>, index: int): seq<Connection>
  {
    Filter(conns, (c: Connection) => c.layer != index)
  }

  /**
   * Deleting layer `index` removes exactly its name and every shape and
   * connection on it, keeping all others; the survivors keep their `layer`
   * numbers.
   */
  lemma DeleteLayerRemovesLayerContents(layers: seq<string>, shapes: seq<Shape>, conns: seq<Connection>, index: int)
    requires 0 <= index < |layers|
    ensures RemovePosition(layers, index) == layers[..index] + layers[index + 1..]
    ensures forall i :: 0 <= i < |ShapesOffLayer(shapes, index)| ==>
      ShapesOffLayer(shapes, index)[i].layer != index && ShapesOffLayer(shapes, index)[i] in shapes
    ensures forall i :: 0 <= i < |shapes| && shapes[i].layer != index ==> shapes[i] in ShapesOffLayer(shapes, index)
    ensures forall i :: 0 <= i < |ConnectionsOffLayer(conns, index)| ==>
      ConnectionsOffLayer(conns, index)[i].layer != index && ConnectionsOffLayer(conns, index)[i] in conns
    ensures forall i :: 0 <= i < |conns| && conns[i].layer != index ==> conns[i] in ConnectionsOffLayer(conns, index)
  {
    RemovePositionSpec(layers, index);
  }

  /**
   * Layer numbers are not renumbered: a surviving shape on a layer after the
   * deleted one keeps its number, which now names the layer that used to
   * come after it (or no layer at all, for the last one).
   */
  lemma DeleteLayerDoesNotRenumber(layers: seq<string>, shapes: seq<Shape>, index: int, s: Shape)
    requires 0 <= index < s.layer < |layers|
    requires s in shapes
    ensures s in ShapesOffLayer(shapes, index)
    ensures var rest := RemovePosition(layers, index);
      |rest| == |layers| - 1 && (s.layer + 1 < |layers| ==> rest[s.layer] == layers[s.layer + 1])
    ensures s.layer == |layers| - 1 ==> s.layer >= |RemovePosition(layers, index)|
  {
    RemovePositionSpec(layers, index);
    var i :| 0 <= i < |shapes| && shapes[i] == s;
  }
}
