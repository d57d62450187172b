/**
 * The whiteboard's global store: the scene, the tool settings, the layer list
 * and a linear undo/redo history of scene snapshots with a cursor
 * (`historyIndex`). The history operations are specified as functions on a
 * `Snapshot` value; the `Store` class holds the fields the store's setters
 * replace and its methods are proved to follow those functions.
 */
module WhiteboardStore {
  import opened Js
  import opened WhiteboardScene

  datatype HistoryEntry = HistoryEntry(shapes: seq<Shape>, connections: seq<Connection>, action: string)

  /** The part of the store that the history operations read and write. */
  datatype Snapshot = Snapshot(
    history: seq<HistoryEntry>, index: int, shapes: seq<Shape>, connections: seq<Connection>)

  /** The cursor is -1 (empty history) or designates an entry. */
  predicate IndexValid(v: Snapshot)
  {
    -1 <= v.index < |v.history|
  }

  /** The store's initial history state: no entries, cursor -1, empty scene. */
  const Initial: Snapshot := Snapshot([], -1, [], [])

  /** `addHistoryEntry`: drop every entry after the cursor, append `e`, advance the cursor. */
  function AddEntry(v: Snapshot, e: HistoryEntry): Snapshot
  {
    v.(history := Slice(v.history, 0, v.index + 1) + [e], index := v.index + 1)
  }

  /** `undo`: step the cursor back and restore that entry's scene, if the cursor is above 0. */
  function UndoStep(v: Snapshot): Snapshot
    requires IndexValid(v)
  {
    if v.index > 0 then
      var k := v.index - 1;
      v.(shapes := v.history[k].shapes, connections := v.history[k].connections, index := k)
    else v
  }

  /** `redo`: step the cursor forward and restore that entry's scene, if it is not at the end. */
  function RedoStep(v: Snapshot): Snapshot
    requires IndexValid(v)
  {
    if v.index < |v.history| - 1 then
      var k := v.index + 1;
      v.(shapes := v.history[k].shapes, connections := v.history[k].connections, index := k)
    else v
  }

  /**
   * Adding an entry keeps the entries up to and including the cursor, drops
   * the rest, appends the new entry and puts the cursor on it; the scene is
   * untouched.
   */
  lemma AddEntryTruncatesAndAppends(v: Snapshot, e: HistoryEntry)
    requires IndexValid(v)
    ensures var r := AddEntry(v, e);
      && r.history == v.history[..v.index + 1] + [e]
      && r.index == |r.history| - 1
      && r.history[r.index] == e
      && IndexValid(r)
      && r.shapes == v.shapes && r.connections == v.connections
  {
  }

  /**
   * Undo is a no-op at cursor 0 or -1; otherwise it lowers the cursor by
   * exactly one and restores that entry's scene, leaving the history alone.
   */
  lemma UndoStepsBack(v: Snapshot)
    requires IndexValid(v)
    ensures v.index <= 0 ==> UndoStep(v) == v
    ensures v.index > 0 ==>
      var r := UndoStep(v);
      && r.index == v.index - 1 && r.history == v.history
      && r.shapes == v.history[r.index].shapes && r.connections == v.history[r.index].connections
    ensures IndexValid(UndoStep(v))
  {
  }

  /**
   * Redo is a no-op with the cursor on the last entry; otherwise it raises the
   * cursor by exactly one and restores that entry's scene, leaving the history
   * alone.
   */
  lemma RedoStepsForward(v: Snapshot)
    requires IndexValid(v)
    ensures v.index == |v.history| - 1 ==> RedoStep(v) == v
    ensures v.index < |v.history| - 1 ==>
      var r := RedoStep(v);
      && r.index == v.index + 1 && r.history == v.history
      && r.shapes == v.history[r.index].shapes && r.connections == v.history[r.index].connections
    ensures IndexValid(RedoStep(v))
  {
  }

  /**
   * A real undo followed by redo comes back to the same cursor, with the scene
   * of the entry under it and the history unchanged.
   */
  lemma UndoThenRedo(v: Snapshot)
    requires IndexValid(v) && v.index > 0
    ensures var r := RedoStep(UndoStep(v));
      && r.index == v.index && r.history == v.history
      && r.shapes == v.history[v.index].shapes && r.connections == v.history[v.index].connections
  {
    UndoStepsBack(v);
    RedoStepsForward(UndoStep(v));
  }

  /**
   * A real redo followed by undo comes back to the same cursor, with the scene
   * of the entry under it, when the cursor was on an entry.
   */
  lemma RedoThenUndo(v: Snapshot)
    requires IndexValid(v) && 0 <= v.index < |v.history| - 1
    ensures var r := UndoStep(RedoStep(v));
      && r.index == v.index && r.history == v.history
      && r.shapes == v.history[v.index].shapes && r.connections == v.history[v.index].connections
  {
    RedoStepsForward(v);
    UndoStepsBack(RedoStep(v));
  }

  /** Adding an entry after undoing discards the undone future: redo is then a no-op. */
  lemma AddEntryDropsRedo(v: Snapshot, e: HistoryEntry)
    requires IndexValid(v)
    ensures IndexValid(AddEntry(v, e)) && RedoStep(AddEntry(v, e)) == AddEntry(v, e)
  {
    AddEntryTruncatesAndAppends(v, e);
  }

  /** One history step, as the toolbar and keyboard trigger them. */
  datatype HistoryOp = Add(entry: HistoryEntry) | UndoOp | RedoOp

  function Apply(v: Snapshot, op: HistoryOp): (r: Snapshot)
    requires IndexValid(v)
    ensures IndexValid(r)
  {
    match op
    case Add(e) =>
      AddEntryTruncatesAndAppends(v, e);
      AddEntry(v, e)
    case UndoOp => UndoStep(v)
    case RedoOp => RedoStep(v)
  }

  function Run(v: Snapshot, ops: seq<HistoryOp>): Snapshot
    requires IndexValid(v)
    decreases |ops|
  {
    if ops == [] then v else Run(Apply(v, ops[0]), ops[1..])
  }

  /** From the initial store, every sequence of add/undo/redo keeps -1 <= historyIndex < |history|. */
  lemma {:induction false} RunKeepsIndexValid(v: Snapshot, ops: seq<HistoryOp>)
    requires IndexValid(v)
    ensures IndexValid(Run(v, ops))
    decreases |ops|
  {
    if ops != [] {
      RunKeepsIndexValid(Apply(v, ops[0]), ops[1..]);
    }
  }

  lemma InitialIndexValid()
    ensures IndexValid(Initial) && Initial.index == -1 && Initial.history == []
  {
  }

  /**
   * `handleRestoreHistory(i)`: restore entry i's scene and record the
   * restore as a new entry "Restored to <action>".
   */
  function Restore(v: Snapshot, i: int): Snapshot
    requires 0 <= i < |v.history|
  {
    var h := v.history[i];
    AddEntry(v.(shapes := h.shapes, connections := h.connections),
             HistoryEntry(h.shapes, h.connections, "Restored to " + h.action))
  }

  /**
   * Restoring entry i shows its scene and appends an entry holding that scene
   * at the (new) cursor, which is the last entry. Like any new entry it drops
   * the redo tail, so restoring an entry after the cursor removes that entry
   * (and every later one) from the history.
   */
  lemma RestoreShowsEntry(v: Snapshot, i: int)
    requires IndexValid(v) && 0 <= i < |v.history|
    ensures var r := Restore(v, i);
      && r.shapes == v.history[i].shapes && r.connections == v.history[i].connections
      && IndexValid(r) && r.index == |r.history| - 1
      && r.history == v.history[..v.index + 1]
                      + [HistoryEntry(v.history[i].shapes, v.history[i].connections, "Restored to " + v.history[i].action)]
      && (i > v.index ==> |r.history| <= i + 1 && (i < |r.history| ==> r.history[i] != v.history[i]))
  {
    var h := v.history[i];
    AddEntryTruncatesAndAppends(v.(shapes := h.shapes, connections := h.connections),
                                HistoryEntry(h.shapes, h.connections, "Restored to " + h.action));
    assert |"Restored to " + h.action| > |h.action|;
  }

  /** A shape picked from the library: a 100x100 box at (100, 100). */
  function LibraryShape(id: string, item: string, color: string, zIndex: int, layer: int): Shape
  {
    Shape(id, "library", 100, 100, 100, 100, 0, None, color, None, zIndex, false, true, [], layer, Some(item))
  }

  // ---------------------------------------------------------------------------
  // Keyboard shortcuts
  // ---------------------------------------------------------------------------

  datatype Shortcut = Shortcut(key: string, ctrl: bool, shift: bool, alt: bool, action: string)

  /** The App's shortcut table: one plain letter per tool. */
  const DefaultShortcuts: seq<Shortcut> := [
    Shortcut("v", false, false, false, "select"),
    Shortcut("r", false, false, false, "rectangle"),
    Shortcut("e", false, false, false, "ellipse"),
    Shortcut("t", false, false, false, "triangle"),
    Shortcut("h", false, false, false, "hexagon"),
    Shortcut("s", false, false, false, "star"),
    Shortcut("x", false, false, false, "text"),
    Shortcut("n", false, false, false, "sticky"),
    Shortcut("c", false, false, false, "connection"),
    Shortcut("f", false, false, false, "freehand"),
    Shortcut("d", false, false, false, "eraser"),
    Shortcut("i", false, false, false, "eyedropper"),
    Shortcut("l", false, false, false, "library")
  ]

  datatype KeyEvent = KeyEvent(key: string, ctrl: bool, shift: bool, alt: bool, meta: bool)

  datatype Command = SetTool(tool: string) | PickColor | ToggleLibrary | UndoKey | RedoKey | SaveKey | NoCommand

  predicate ToolAction(action: string)
  {
    action in ["select", "rectangle", "ellipse", "triangle", "hexagon", "star", "text", "sticky",
               "connection", "freehand", "eraser"]
  }

  predicate MatchesShortcut(s: Shortcut, e: KeyEvent)
  {
    s.key == e.key && s.ctrl == e.ctrl && s.shift == e.shift && s.alt == e.alt
  }

  /** The key handler's dispatch: a matching shortcut first, else Ctrl/Meta + z/y/s. */
  function KeyCommand(shortcuts: seq<Shortcut>, e: KeyEvent): Command
  {
    match Find(shortcuts, (s: Shortcut) => MatchesShortcut(s, e))
    case Some(s) =>
      if ToolAction(s.action) then SetTool(s.action)
      else if s.action == "eyedropper" then PickColor
      else if s.action == "library" then ToggleLibrary
      else NoCommand
    case None =>
      if e.ctrl || e.meta then
        if e.key == "z" then UndoKey
        else if e.key == "y" then RedoKey
        else if e.key == "s" then SaveKey
        else NoCommand
      else NoCommand
  }

  /** With no shortcut bound to Ctrl, a Ctrl chord falls through to undo, redo or save. */
  lemma CtrlChordsReachHistory(shortcuts: seq<Shortcut>, e: KeyEvent)
    requires forall i :: 0 <= i < |shortcuts| ==> !shortcuts[i].ctrl
    requires e.ctrl
    ensures e.key == "z" ==> KeyCommand(shortcuts, e) == UndoKey
    ensures e.key == "y" ==> KeyCommand(shortcuts, e) == RedoKey
    ensures e.key == "s" ==> KeyCommand(shortcuts, e) == SaveKey
    ensures e.key !in ["z", "y", "s"] ==> KeyCommand(shortcuts, e) == NoCommand
  {
    assert Find(shortcuts, (s: Shortcut) => MatchesShortcut(s, e)) == None;
  }

  /** The default table binds no shortcut to Ctrl, so Ctrl+Z / Ctrl+Y / Ctrl+S reach the history. */
  lemma DefaultShortcutsHaveNoCtrl()
    ensures forall i :: 0 <= i < |DefaultShortcuts| ==> !DefaultShortcuts[i].ctrl
  {
  }

  /**
   * The meta key is not part of a shortcut's match, so with the default table
   * Meta+S (Cmd+S) selects the star tool instead of saving.
   */
  lemma MetaSPicksStar()
    ensures KeyCommand(DefaultShortcuts, KeyEvent("s", false, false, false, true)) == SetTool("star")
  {
    var e := KeyEvent("s", false, false, false, true);
    var p := (s: Shortcut) => MatchesShortcut(s, e);
    assert p(DefaultShortcuts[5]);
    assert forall j :: 0 <= j < 5 ==> !p(DefaultShortcuts[j]);
    FindFirstMatch(DefaultShortcuts, p, 5);
    assert ToolAction("star");
  }

  // ---------------------------------------------------------------------------
  // The store's setters and the updaters the handlers pass them
  // ---------------------------------------------------------------------------

  /**
   * What a handler passes to a setter: a new value, or an updater of the
   * current value (React's `SetStateAction`, the type the Canvas's props
   * declare for `setShapes`, `setConnections` and `setSelectedShapes`).
   */
  datatype SetAction<!T> = NewValue(value: T) | Updater(update: T -> T)

  /** What a store field holds after a setter: a value, or a function stored in its place. */
  datatype Slot<!T> = Holds(value: T) | HoldsFunction(f: T -> T)

  /** The next render reads the field as a list (`map`, `includes`); that works only when it holds one. */
  predicate Renderable<T>(slot: Slot<T>)
  {
    slot.Holds?
  }

  /** The store's setters as written, `(x) => set({ x })`: the argument is stored, whatever it is. */
  function SetAsWritten<T>(action: SetAction<T>): (slot: Slot<T>)
    ensures Renderable(slot) <==> action.NewValue?
    ensures action.NewValue? ==> slot.value == action.value
  {
    match action
    case NewValue(v) => Holds(v)
    case Updater(f) => HoldsFunction(f)
  }

  /** A React state dispatcher, as the Canvas's prop types promise: an updater is applied to the current value. */
  function Dispatch<T>(current: T, action: SetAction<T>): T
  {
    match action
    case NewValue(v) => v
    case Updater(f) => f(current)
  }

  /** The select tool's shift-click on `hit`: an updater appending its id to the selection. */
  function ShiftClickAction(hit: Shape): SetAction<seq<string>>
  {
    Updater((prev: seq<string>) => prev + [hit.id])
  }

  /** As written, a shift-click on a shape leaves a function in `selectedShapes`, which the next render cannot read. */
  lemma ShiftClickStoresFunction(shapes: seq<Shape>, x: int, y: int, layer: int)
    requires ShapeAt(shapes, x, y, layer).Some?
    ensures !Renderable(SetAsWritten(ShiftClickAction(ShapeAt(shapes, x, y, layer).value)))
  {
  }

  /** Dispatched, the same shift-click appends the hit shape to the selection, which is `SelectionAfterClick`. */
  lemma ShiftClickDispatched(selected: seq<string>, shapes: seq<Shape>, x: int, y: int, layer: int)
    requires ShapeAt(shapes, x, y, layer).Some?
    ensures var hit := ShapeAt(shapes, x, y, layer);
      var r := Dispatch(selected, ShiftClickAction(hit.value));
      && r == SelectionAfterClick(selected, hit, true)
      && r[..|selected|] == selected && |r| == |selected| + 1 && hit.value.id in r
  {
    var hit := ShapeAt(shapes, x, y, layer);
    var r := Dispatch(selected, ShiftClickAction(hit.value));
    assert r == selected + [hit.value.id];
    assert r[|selected|] == hit.value.id;
  }

  /** The rubber band while drawing with a shape tool: an updater putting the temporary shape into the list. */
  function RubberBandAction(tool: string, start: Point, x: int, y: int, color: string, style: TextStyle,
                            layer: int): SetAction<seq<Shape>>
  {
    Updater((prev: seq<Shape>) => UpsertTemp(prev, TempShape(tool, start, x, y, color, style, |prev|, layer)))
  }

  /** As written, moving the pointer while drawing a shape leaves a function in `shapes`. */
  lemma RubberBandStoresFunction(tool: string, start: Point, x: int, y: int, color: string, style: TextStyle,
                                 layer: int)
    ensures !Renderable(SetAsWritten(RubberBandAction(tool, start, x, y, color, style, layer)))
  {
  }

  /** Dispatched, the rubber band leaves exactly one temporary shape, the one for the current pointer. */
  lemma RubberBandDispatched(shapes: seq<Shape>, tool: string, start: Point, x: int, y: int, color: string,
                             style: TextStyle, layer: int)
    requires CountId(shapes, TempId) <= 1
    ensures var t := TempShape(tool, start, x, y, color, style, |shapes|, layer);
      var r := Dispatch(shapes, RubberBandAction(tool, start, x, y, color, style, layer));
      && r == UpsertTemp(shapes, t)
      && CountId(r, TempId) == 1 && t in r
  {
    var t := TempShape(tool, start, x, y, color, style, |shapes|, layer);
    var a := RubberBandAction(tool, start, x, y, color, style, layer);
    assert Dispatch(shapes, a) == a.update(shapes) == UpsertTemp(shapes, t);
    TempShapeNormalised(tool, start, x, y, color, style, |shapes|, layer);
    UpsertTempKeepsOneTemp(shapes, t);
  }

  // ---------------------------------------------------------------------------
  // The store object
  // ---------------------------------------------------------------------------

  class Store {
    var shapes: seq<Shape>
    var connections: seq<Connection>
    var selectedShapes: seq<string>
    var tool: string
    var color: string
    var textStyle: TextStyle
    var zoom: int
    var snapToGrid: bool
    var history: seq<HistoryEntry>
    var historyIndex: int
    var layers: seq<string>
    var activeLayer: int
    var showLibrary: bool

    /** The history part of the store, as a value. */
    function View(): Snapshot
      reads this
    {
      Snapshot(history, historyIndex, shapes, connections)
    }

    /** The store invariant: the history cursor is -1 or on an entry. */
    predicate Valid()
      reads this
    {
      IndexValid(View())
    }

    constructor ()
      ensures Valid() && View() == Initial
      ensures selectedShapes == [] && tool == "select" && color == "#000000"
      ensures textStyle == TextStyle(16, "normal", "normal", "none", "left")
      ensures zoom == 100 && !snapToGrid
      ensures layers == ["Layer 1"] && activeLayer == 0 && !showLibrary
    {
      shapes, connections, selectedShapes := [], [], [];
      tool, color := "select", "#000000";
      textStyle := TextStyle(16, "normal", "normal", "none", "left");
      zoom, snapToGrid := 100, false;
      history, historyIndex := [], -1;
      layers, activeLayer := ["Layer 1"], 0;
      showLibrary := false;
    }

    method AddHistoryEntry(e: HistoryEntry)
      requires Valid()
      modifies this`history, this`historyIndex
      ensures Valid() && View() == AddEntry(old(View()), e)
    {
      history := Slice(history, 0, historyIndex + 1) + [e];
      historyIndex := historyIndex + 1;
    }

    method Undo()
      requires Valid()
      modifies this`shapes, this`connections, this`historyIndex
      ensures Valid() && View() == UndoStep(old(View()))
    {
      if historyIndex > 0 {
        var k := historyIndex - 1;
        shapes, connections, historyIndex := history[k].shapes, history[k].connections, k;
      }
    }

    method Redo()
      requires Valid()
      modifies this`shapes, this`connections, this`historyIndex
      ensures Valid() && View() == RedoStep(old(View()))
    {
      if historyIndex < |history| - 1 {
        var k := historyIndex + 1;
        shapes, connections, historyIndex := history[k].shapes, history[k].connections, k;
      }
    }

    /**
     * The handlers that only record the current scene under an action label
     * (save, export, collaborate, start presentation).
     */
    method Record(action: string)
      requires Valid()
      modifies this`history, this`historyIndex
      ensures Valid() && View() == AddEntry(old(View()), HistoryEntry(shapes, connections, action))
    {
      AddHistoryEntry(HistoryEntry(shapes, connections, action));
    }

    /** `handleToolChange`: switch tool and record the scene. */
    method ChangeTool(newTool: string)
      requires Valid()
      modifies this`tool, this`history, this`historyIndex
      ensures Valid() && tool == newTool
      ensures View() == AddEntry(old(View()), HistoryEntry(shapes, connections, "Changed tool to " + newTool))
    {
      tool := newTool;
      AddHistoryEntry(HistoryEntry(shapes, connections, "Changed tool to " + newTool));
    }

    method RestoreHistory(i: int)
      requires Valid() && 0 <= i < |history|
      modifies this`shapes, this`connections, this`history, this`historyIndex
      ensures Valid() && View() == Restore(old(View()), i)
    {
      var h := history[i];
      shapes, connections := h.shapes, h.connections;
      AddHistoryEntry(HistoryEntry(h.shapes, h.connections, "Restored to " + h.action));
    }

    /**
     * `handleSelectLibraryItem`: append a library shape, go back to the select
     * tool, close the library, and record the scene as it was BEFORE the
     * shape was added (the handler records the `shapes` it captured).
     */
    method SelectLibraryItem(item: string, freshId: string)
      requires Valid()
      modifies this`shapes, this`tool, this`showLibrary, this`history, this`historyIndex
      ensures Valid()
      ensures shapes == old(shapes) + [LibraryShape(freshId, item, color, |old(shapes)|, activeLayer)]
      ensures tool == "select" && !showLibrary
      ensures View() == AddEntry(old(View()), HistoryEntry(old(shapes), connections, "Added library item: " + item))
                          .(shapes := shapes)
    {
      var before := shapes;
      shapes := shapes + [LibraryShape(freshId, item, color, |shapes|, activeLayer)];
      tool := "select";
      showLibrary := false;
      AddHistoryEntry(HistoryEntry(before, connections, "Added library item: " + item));
    }

    /**
     * The synchronous part of `handleImport` once the file is parsed: the
     * imported scene replaces the current one (layers default to
     * ["Layer 1"] when the file has none) and is recorded.
     */
    method ImportScene(importedShapes: seq<Shape>, importedConnections: seq<Connection>, importedLayers: Option<seq<string>>)
      requires Valid()
      modifies this`shapes, this`connections, this`layers, this`history, this`historyIndex
      ensures Valid() && shapes == importedShapes && connections == importedConnections
      ensures layers == if importedLayers.Some? then importedLayers.value else ["Layer 1"]
      ensures View() == AddEntry(old(View()).(shapes := importedShapes, connections := importedConnections),
                                 HistoryEntry(importedShapes, importedConnections, "Imported project"))
    {
      shapes, connections := importedShapes, importedConnections;
      layers := if importedLayers.Some? then importedLayers.value else ["Layer 1"];
      AddHistoryEntry(HistoryEntry(importedShapes, importedConnections, "Imported project"));
    }

    method ZoomOutClicked()
      modifies this`zoom
      ensures zoom == ZoomOut(old(zoom))
    {
      zoom := ZoomOut(zoom);
    }

    method ZoomInClicked()
      modifies this`zoom
      ensures zoom == ZoomIn(old(zoom))
    {
      zoom := ZoomIn(zoom);
    }

    method AddLayerClicked()
      modifies this`layers
      ensures layers == AddLayer(old(layers))
    {
      layers := layers + ["Layer " + NatToString(|layers| + 1)];
    }

    /** `onDeleteLayer(index)`: the active layer number is left as it was. */
    method DeleteLayerClicked(index: int)
      modifies this`layers, this`shapes, this`connections
      ensures layers == RemovePosition(old(layers), index)
      ensures shapes == ShapesOffLayer(old(shapes), index)
      ensures connections == ConnectionsOffLayer(old(connections), index)
    {
      layers := RemovePosition(layers, index);
      shapes := ShapesOffLayer(shapes, index);
      connections := ConnectionsOffLayer(connections, index);
    }

    /** The keyboard handler for the commands it runs on the store (the eye dropper is not modelled). */
    method KeyDown(shortcuts: seq<Shortcut>, e: KeyEvent)
      requires Valid()
      modifies this`tool, this`showLibrary, this`shapes, this`connections, this`history, this`historyIndex
      ensures Valid()
      ensures var c := KeyCommand(shortcuts, e);
        && (c.SetTool? ==> tool == c.tool && View() == old(View()))
        && (c.ToggleLibrary? ==> showLibrary == !old(showLibrary) && View() == old(View()))
        && (c.UndoKey? ==> View() == UndoStep(old(View())))
        && (c.RedoKey? ==> View() == RedoStep(old(View())))
        && (c.SaveKey? ==> View() == AddEntry(old(View()), HistoryEntry(shapes, connections, "Saved project")))
        && ((c.PickColor? || c.NoCommand?) ==> View() == old(View()))
        && (!c.SetTool? ==> tool == old(tool))
        && (!c.ToggleLibrary? ==> showLibrary == old(showLibrary))
    {
      var c := KeyCommand(shortcuts, e);
      match c {
        case SetTool(t) => tool := t;
        case ToggleLibrary => showLibrary := !showLibrary;
        case UndoKey => Undo();
        case RedoKey => Redo();
        case SaveKey => Record("Saved project");
        case PickColor =>
        case NoCommand =>
      }
    }
  }
}
