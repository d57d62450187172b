# AI design catalogue — a Dafny model of its projects

The repository is a catalogue of small React demo applications. A registry is
built from a Vite glob over `src/projects/*/App.tsx`, and each project is one
single-page component. This model covers the registry and the state logic of
six projects:

- **Whiteboard** (`WhiteboardScene`, `WhiteboardStore`, `WhiteboardCanvas`).
  The scene is a list of shapes and connections on layers. It has hit
  testing, selection, the eraser, rubber-band and freehand drawing, a snapped
  drag and resize, connections and zoom. The store holds the undo/redo
  history and the keyboard shortcuts. The canvas holds the pointer handlers,
  which drive the store.
- **Point of sale** (`PointOfSale`). The register scans product codes into a
  cart. It changes and removes quantities, recommends products, checks out
  and obeys voice commands.
- **Simple note taking** (`NoteTaking`). It has notes and folders, search,
  Markdown insertion at the editor's selection, and the delete, tag and
  rename dialogs.
- **API catalogue** (`ApiCatalog`). It has the search and advanced filters,
  the trending and new lists, the health colours and the daily challenge's
  XP and level.
- **ChatGPT exporter** (`ChatExporter`). It validates the share URL, extracts
  the chat id, runs the mocked lookup and keeps the page's loading and error
  state and its export options.
- **Learn to cook** (`LearnToCook`). It has the favourite toggle, the welcome
  modal and profile completion.
- **Projects registry** (`ProjectsConfig`). Each glob key becomes one project.
  Its id, display name and description are derived from the key.

`Js` (js.dfy) defines the JavaScript built-ins the components use:

- `filter` and `find`;
- `slice` and `substring` with their index clamping;
- `indexOf`, `includes` and the first-occurrence `replace`;
- `toLowerCase` and `toUpperCase`;
- `trim` and `split`.

Each of these comes with the lemmas the models need.

Pure computations are functions with lemmas. A component's `useState` hooks
are the fields of a class. Each handler is a method that may change only the
fields its `modifies` clause names. Its `ensures` state each of those fields
in every branch, including the ones a branch leaves alone. Where the new state
is a specification function of the old state, that function's properties are
proved separately.

The model follows the code, including the behaviour described below.

**Stale closures.** Some handlers are rebuilt only when some dependency
changes, so they run on an older copy of the state:

- The POS speech handler keeps the cart as it was when the language last
  changed (`speechCart`).
- The notes toolbar and its Ctrl+S/B/I shortcuts keep the note list as it
  was when the active note last changed (`editorFiles`). Inserting Markdown
  after deleting another note therefore brings the deleted note back
  (`InsertAfterDeletingOtherNoteRestoresIt`).

**React batching.**

- In `completeDailyChallenge` the later `setXp` wins.
- In `incrementDailyChallengeProgress` the completion's `setDailyChallengeProgress(100)` wins.

**Keyboard shortcuts.**

- The default shortcut table has no Ctrl entries, so the Ctrl chords always
  reach undo, redo and save.
- Meta+S matches the star tool's shortcut `s` and never saves
  (`MetaSPicksStar`).

**Markdown insertion needs the editor.** The toolbar's Markdown buttons and
Ctrl+B/I look up the page's textarea (simple-note-taking App.tsx:213-214).
It exists only in side-by-side preview (622-635), and the page opens in
full-page preview (139). The model keeps the preview mode (`sideBySide`,
toggled by `TogglePreview`), and insertion changes nothing without it.

**Note identity.** React skips a state update to the identical object, so
re-selecting the note that is already active does not refresh the toolbar's
captured list. The model records whether the active note is the object held in
the list (`activeIsEntry`).

**Registry names.** A project's display name replaces only the first `-` in
its id (`NoteTakingName`).

**Deviations from the code.**

- The whiteboard file contains a `<ResizeHandle` element split across lines
  336-338.
- Its `ShapeLibrary` renders icons that are never imported (1290-1302).

The model treats the file as if it compiled, with the evident meaning.

- The whiteboard store's setters store whatever they are given (App.tsx:137-139).
  The canvas and the shape library pass them updater functions (lines 915, 946,
  987, 1017, 1027, 1088, 1108, 1130, 1176 and 1452), so the next render would
  call `.map` or `.includes` on a function. The canvas props are typed as
  React dispatchers (864-876). The model applies each updater to the current
  value, as a dispatcher would. The as-written behaviour is kept in
  `SetAsWritten`; see "## Findings".

Numbers are modelled as follows:

- Canvas coordinates are integers, already divided by the zoom.
- Ratings are in tenths of a star.
- Prices are in cents.
- `Math.round(v / 20) * 20` on an integer `v` is `((v + 10) / 20) * 20` with
  floor division.

## Model

| member | source | states |
|---|---|---|
| Js.Filter | src/projects/api-catalog/App.tsx:62-69 | `Array.prototype.filter`: the result is no longer than the input; it holds only elements satisfying the predicate, and every element of the input that satisfies it |
| Js.FilterAppend | src/projects/simple-note-taking/App.tsx:205-209 | filtering distributes over concatenation, so the list order is kept |
| Js.FilterKeepsAll | src/projects/learntocook/App.tsx:136-142 | when every element passes, filtering returns the list unchanged |
| Js.FilterSnoc | src/projects/pos-sale/App.tsx:130-134 | filtering a list with one element appended is filtering the prefix and then keeping or dropping that element |
| Js.FilterShorter | src/projects/simple-note-taking/App.tsx:253 | when some element fails the predicate, the filtered list is strictly shorter |
| Js.FilterKeepsDistinctKeys | src/projects/pos-sale/App.tsx:130-142 | filtering keeps the elements' keys pairwise distinct |
| Js.MapSeq | src/projects/simple-note-taking/App.tsx:193-195 | `Array.prototype.map`: same length, and each element is the function applied to the input's element at that index |
| Js.FindIndex | src/projects/whiteboard/App.tsx:908-912 | the position `find` stops at: none exactly when nothing matches; otherwise the first index whose element matches |
| Js.Find | src/projects/pos-sale/App.tsx:112 | `find`: `None` exactly when nothing matches; otherwise an element of the list that matches |
| Js.FindFirstMatch | src/projects/pos-sale/App.tsx:112 | `find` returns the element at the first index whose element matches |
| Js.Slice | src/projects/api-catalog/App.tsx:71 | `slice(start, end)`: for in-range indices the sub-range, with an end past the length clamped to it; never longer than the input |
| Js.IndexOf | src/projectsConfig.ts:20 | `indexOf`: -1 exactly when the pattern does not occur; otherwise the pattern occurs there and at no earlier position |
| Js.IncludesAt | src/projects/api-catalog/App.tsx:63 | an occurrence at any position makes `includes` true |
| Js.IncludesEmpty | src/projects/api-catalog/App.tsx:63 | every string includes the empty string |
| Js.IncludesSelf | src/projects/api-catalog/App.tsx:63 | every string includes itself |
| Js.ReplaceFirst | src/projectsConfig.ts:20 | `replace` with a string pattern replaces only the first occurrence, and leaves the string as it is when there is none |
| Js.Substring | src/projects/simple-note-taking/App.tsx:215-218 | `substring(start, end)`: for in-range indices exactly that sub-range |
| Js.ToLower | src/projects/api-catalog/App.tsx:63 | `toLowerCase`: same length, and each character is lower-cased |
| Js.ToUpper | src/projectsConfig.ts:20 | `toUpperCase`: same length, and each character is upper-cased |
| Js.Trim | src/projects/chatgpt-exporter/App.tsx:222 | `trim`: the result neither starts nor ends with white space, and is empty exactly when the input is all white space |
| Js.Split | src/projectsConfig.ts:17 | `split` on one character: at least one piece, and no piece contains the separator |
| Js.SplitCons | src/projectsConfig.ts:17 | splitting `a + sep + b`, with `sep` not in `a`, gives `a` followed by the pieces of `b` |
| Js.NatToString | src/projects/whiteboard/App.tsx:693 | decimal rendering of a natural number: non-empty, and made of digits only |
| WhiteboardScene.ShapeAtIsFirstHit | src/projects/whiteboard/App.tsx:908-912 | the shape under the pointer is the first shape in list order whose box contains the point, and `None` exactly when no box contains it |
| WhiteboardScene.HitTestIgnoresZIndex | src/projects/whiteboard/App.tsx:908-912 | hit testing follows list order and not `zIndex`: a shape raised above an earlier overlapping shape is still not picked |
| WhiteboardScene.SelectionAfterClick | src/projects/whiteboard/App.tsx:913-921 | the mouse-down half of a select click: a click on a shape selects only that shape; a shift-click appends it to the selection it is applied to; a click on empty canvas clears the selection (the shape's own click handler then runs, see `SelectClick`) |
| WhiteboardScene.OccurrencesAppend | src/projects/whiteboard/App.tsx:915 | the number of occurrences in a concatenation is the sum of the occurrences in its parts |
| WhiteboardScene.ShiftClickDuplicates | src/projects/whiteboard/App.tsx:915 | the mouse-down updater, applied to the current selection, gives an already selected shape a second copy of its id; the shape's click handler then replaces the selection (see `SelectClick`) |
| WhiteboardScene.OccurrencesPositive | src/projects/whiteboard/App.tsx:915 | an id in the list occurs at least once |
| WhiteboardScene.EraseAtRemovesHitShape | src/projects/whiteboard/App.tsx:934-943 | the eraser removes every shape carrying the hit shape's id and keeps every other shape in order; a miss changes nothing; connections to the erased shape stay |
| WhiteboardScene.SetContent | src/projects/whiteboard/App.tsx:1175-1179 | editing a text shape changes only that shape's content; the list keeps its length and ids |
| WhiteboardScene.TempShapeNormalised | src/projects/whiteboard/App.tsx:985-1013 | the rubber-band shape has its corner at the smaller coordinates and a non-negative size spanning both points |
| WhiteboardScene.CountIdAppend | src/projects/whiteboard/App.tsx:985-1013 | id counts add up over concatenation |
| WhiteboardScene.CountIdZero | src/projects/whiteboard/App.tsx:985-1013 | a list without the id counts it zero times |
| WhiteboardScene.ReplaceTemp | src/projects/whiteboard/App.tsx:985-1013 | replacing the temporary shape keeps the length and changes only entries with the temporary id |
| WhiteboardScene.ReplaceTempCount | src/projects/whiteboard/App.tsx:985-1013 | replacing the temporary shape keeps the number of temporary shapes |
| WhiteboardScene.UpsertTempKeepsOneTemp | src/projects/whiteboard/App.tsx:985-1013 | while drawing, the scene holds exactly one temporary shape, the current rubber band |
| WhiteboardScene.CommitTempRemovesTemp | src/projects/whiteboard/App.tsx:1107-1116 | mouse-up turns the temporary shape into a shape with the fresh id, so no temporary shape remains; every other shape is kept |
| WhiteboardScene.MinX | src/projects/whiteboard/App.tsx:1087-1104 | the smallest x of the stroke: attained by some point and at most every point's x |
| WhiteboardScene.MaxX | src/projects/whiteboard/App.tsx:1087-1104 | the largest x of the stroke: attained by some point and at least every point's x |
| WhiteboardScene.MinY | src/projects/whiteboard/App.tsx:1087-1104 | the smallest y of the stroke: attained by some point and at most every point's y |
| WhiteboardScene.MaxY | src/projects/whiteboard/App.tsx:1087-1104 | the largest y of the stroke: attained by some point and at least every point's y |
| WhiteboardScene.FreehandShape | src/projects/whiteboard/App.tsx:1087-1104 | the freehand shape's box is the bounding box of its points, and it keeps the points |
| WhiteboardScene.SnapToNearestGridLine | src/projects/whiteboard/App.tsx:1017-1026 | snapping gives a multiple of 20 within 10 of the value, and snapping again changes nothing |
| WhiteboardScene.DragMovesSelectedOnly | src/projects/whiteboard/App.tsx:1017-1026 | a drag moves every selected shape to the pointer (snapped when the grid is on) and leaves the others unchanged |
| WhiteboardScene.Opposite | src/projects/whiteboard/App.tsx:1027-1061 | the opposite of a corner handle is a corner handle |
| WhiteboardScene.ResizeKeepsOppositeCorner | src/projects/whiteboard/App.tsx:1027-1061 | without snapping, the dragged corner lands on the pointer, the opposite corner stays put, only the geometry changes, and an unknown handle changes nothing |
| WhiteboardScene.ResizeSnapsToGrid | src/projects/whiteboard/App.tsx:1027-1061 | with the grid on, the resized shape is the unsnapped one with its position and size snapped to multiples of 20 |
| WhiteboardScene.ResizeShapes | src/projects/whiteboard/App.tsx:1027-1061 | a resize changes only the shapes carrying the resized id and keeps the list's length |
| WhiteboardScene.ConnectAtNeverSelfLinks | src/projects/whiteboard/App.tsx:1120-1143 | a connection is added only between two different shapes, so the list never gains a self-link |
| WhiteboardScene.ZoomStaysInRange | src/projects/whiteboard/App.tsx:611-616 | zoom-out never goes below 10 and zoom-in never above 200; from inside the range both stay inside; each moves by 10 when that stays in range |
| WhiteboardScene.AddLayer | src/projects/whiteboard/App.tsx:693 | adding a layer appends "Layer n+1", n being the old count, and keeps the existing layers |
| WhiteboardScene.RemovePositionFromSpec | src/projects/whiteboard/App.tsx:694-698 | removing a position from a suffix keeps the elements before it and drops exactly that element |
| WhiteboardScene.RemovePositionSpec | src/projects/whiteboard/App.tsx:694-698 | deleting layer i removes only the element at i; an index out of range changes nothing |
| WhiteboardScene.DeleteLayerRemovesLayerContents | src/projects/whiteboard/App.tsx:694-698 | deleting layer i removes the layers' element i and the shapes and connections on layer i, and keeps every other shape and connection |
| WhiteboardScene.DeleteLayerDoesNotRenumber | src/projects/whiteboard/App.tsx:694-698 | shapes on later layers keep their old layer index, which now names the next layer or none at all |
| WhiteboardStore.AddEntryTruncatesAndAppends | src/projects/whiteboard/App.tsx:151-154 | a new history entry drops the redo tail, is appended, and becomes current |
| WhiteboardStore.UndoStepsBack | src/projects/whiteboard/App.tsx:155-162 | undo moves one entry back and shows that entry's shapes and connections; at the start it does nothing |
| WhiteboardStore.RedoStepsForward | src/projects/whiteboard/App.tsx:163-170 | redo moves one entry forward and shows that entry; at the end it does nothing |
| WhiteboardStore.UndoThenRedo | src/projects/whiteboard/App.tsx:155-170 | redo after undo returns to the same history position and scene |
| WhiteboardStore.RedoThenUndo | src/projects/whiteboard/App.tsx:155-170 | undo after redo returns to the same history position |
| WhiteboardStore.AddEntryDropsRedo | src/projects/whiteboard/App.tsx:151-170 | after a new entry there is nothing to redo |
| WhiteboardStore.Apply | src/projects/whiteboard/App.tsx:151-170 | every history operation keeps the history index valid |
| WhiteboardStore.RunKeepsIndexValid | src/projects/whiteboard/App.tsx:151-170 | any sequence of history operations keeps the index valid |
| WhiteboardStore.InitialIndexValid | src/projects/whiteboard/App.tsx:132-133 | the initial history is empty with index -1, which is valid |
| WhiteboardStore.RestoreShowsEntry | src/projects/whiteboard/App.tsx:1439-1444 | restoring entry i shows its scene and appends a "Restored to …" entry at the cursor; the history keeps the entries up to the old cursor and drops the redo tail, so an entry restored from that tail (the panel lists every entry, 1273-1277) is itself removed |
| WhiteboardStore.CtrlChordsReachHistory | src/projects/whiteboard/App.tsx:1476-1524 | with no Ctrl shortcut defined, Ctrl+Z undoes, Ctrl+Y redoes, Ctrl+S saves and other Ctrl chords do nothing |
| WhiteboardStore.DefaultShortcutsHaveNoCtrl | src/projects/whiteboard/App.tsx:1353-1366 | none of the default tool shortcuts needs Ctrl |
| WhiteboardStore.MetaSPicksStar | src/projects/whiteboard/App.tsx:1353-1366 | Meta+S selects the star tool instead of saving, because the tool shortcut is checked first |
| WhiteboardStore.SetAsWritten | src/projects/whiteboard/App.tsx:137-139 | the store's setter keeps whatever it is passed: a render-ready value exactly when it was passed a value |
| WhiteboardStore.ShiftClickStoresFunction | src/projects/whiteboard/App.tsx:913-916 | as written, a shift-click on a shape leaves a function, not a list of ids, in the selection slot |
| WhiteboardStore.ShiftClickDispatched | src/projects/whiteboard/App.tsx:913-916 | applied as a React updater, the shift-click keeps the old selection as a prefix and appends the hit shape's id |
| WhiteboardStore.RubberBandStoresFunction | src/projects/whiteboard/App.tsx:985-1013 | as written, a rubber-band move leaves a function, not a shape list, in the shapes slot |
| WhiteboardStore.RubberBandDispatched | src/projects/whiteboard/App.tsx:985-1013 | applied as a React updater, the rubber-band move leaves exactly one temporary shape, the normalised current one |
| WhiteboardStore.Store.constructor | src/projects/whiteboard/App.tsx:117-136 | the initial state: empty scene and history, the select tool, black, zoom 100, one layer |
| WhiteboardStore.Store.AddHistoryEntry | src/projects/whiteboard/App.tsx:151-154 | the history becomes `AddEntry` of the old history |
| WhiteboardStore.Store.Undo | src/projects/whiteboard/App.tsx:155-162 | the state becomes `UndoStep` of the old state |
| WhiteboardStore.Store.Redo | src/projects/whiteboard/App.tsx:163-170 | the state becomes `RedoStep` of the old state |
| WhiteboardStore.Store.Record | src/projects/whiteboard/App.tsx:1374-1449 | save, export, collaborate and presentation each record the current scene under their action name |
| WhiteboardStore.Store.ChangeTool | src/projects/whiteboard/App.tsx:1369-1372 | the tool changes and "Changed tool to …" is recorded |
| WhiteboardStore.Store.RestoreHistory | src/projects/whiteboard/App.tsx:1439-1444 | the state becomes `Restore` of the old state at i |
| WhiteboardStore.Store.SelectLibraryItem | src/projects/whiteboard/App.tsx:1451-1473 | the library shape is appended on the active layer, the library closes, and the history records the scene as it was before the addition |
| WhiteboardStore.Store.ImportScene | src/projects/whiteboard/App.tsx:1405-1409 | the imported shapes, connections and layers (default one layer) replace the scene, and "Imported project" is recorded |
| WhiteboardStore.Store.ZoomOutClicked | src/projects/whiteboard/App.tsx:611 | zoom goes down by 10, but not below 10 |
| WhiteboardStore.Store.ZoomInClicked | src/projects/whiteboard/App.tsx:616 | zoom goes up by 10, but not above 200 |
| WhiteboardStore.Store.AddLayerClicked | src/projects/whiteboard/App.tsx:693 | one layer is appended |
| WhiteboardStore.Store.DeleteLayerClicked | src/projects/whiteboard/App.tsx:694-698 | the layer and the shapes and connections on it go |
| WhiteboardStore.Store.KeyDown | src/projects/whiteboard/App.tsx:1476-1524 | a key selects a tool, undoes, redoes, saves or does nothing, as `KeyCommand` decides |
| WhiteboardCanvas.Canvas.constructor | src/projects/whiteboard/App.tsx:117-136 | no gesture is in progress |
| WhiteboardCanvas.Canvas.MouseDown | src/projects/whiteboard/App.tsx:902-974 | per tool: select hit-tests and starts a drag; connection remembers the shape; freehand starts a stroke; eraser erases; text adds a text shape and goes back to select; the shape tools start a rubber band |
| WhiteboardCanvas.Canvas.ClickSelect | src/projects/whiteboard/App.tsx:907-923 | the mouse-down half of a select click: the selection follows the click on the first hit shape in list order (added to with shift, replaced without, cleared on a miss), and a hit starts a drag keeping the pointer's offset from the shape |
| WhiteboardCanvas.Canvas.ShapeClicked | src/projects/whiteboard/App.tsx:785 | a click on a shape's element selects that shape alone, with any tool |
| WhiteboardCanvas.Canvas.SelectClick | src/projects/whiteboard/App.tsx:1192-1207 | a whole select click: a click that lands on a shape ends with that shape selected alone, shift or not, so no id is appended or duplicated; only a click on empty canvas keeps the mouse-down selection; a hit still starts the drag |
| WhiteboardCanvas.Canvas.PlaceText | src/projects/whiteboard/App.tsx:945-969 | the text tool appends one text shape at the pointer, above every other shape, and switches back to select |
| WhiteboardCanvas.Canvas.MouseMove | src/projects/whiteboard/App.tsx:976-1083 | while drawing, the stroke grows or the rubber band follows; otherwise a drag moves the selection, or a handle resizes it |
| WhiteboardCanvas.Canvas.MouseUp | src/projects/whiteboard/App.tsx:1085-1150 | ends a drawing by committing the freehand or rubber-band shape and returning to select, or ends a connection gesture; it never adds a self-link and clears every gesture |
| WhiteboardCanvas.Canvas.CommitDrawing | src/projects/whiteboard/App.tsx:1086-1119 | a non-empty stroke becomes one freehand shape on top, or the rubber-band shape is committed under a fresh id leaving no temporary shape; the tool becomes select |
| WhiteboardCanvas.Canvas.FinishConnection | src/projects/whiteboard/App.tsx:1120-1144 | the connections become `ConnectAt` of the old ones, and a list without self-links keeps none |
| WhiteboardCanvas.Canvas.ResizeStart | src/projects/whiteboard/App.tsx:1152-1154 | remembers the grabbed handle |
| WhiteboardCanvas.Canvas.RotateStart | src/projects/whiteboard/App.tsx:1156-1169 | starts rotating |
| WhiteboardCanvas.Canvas.TextEdit | src/projects/whiteboard/App.tsx:1171-1173 | remembers the text shape being edited |
| WhiteboardCanvas.Canvas.TextChange | src/projects/whiteboard/App.tsx:1175-1179 | the shapes become `SetContent` of the old shapes |
| PointOfSale.QtyAt | src/projects/pos-sale/App.tsx:114-134 | in a cart with distinct ids, a line's quantity is the quantity of its product |
| PointOfSale.QtyAbsent | src/projects/pos-sale/App.tsx:114-134 | a product not in the cart has quantity 0 |
| PointOfSale.CatalogueIdsDistinct | src/projects/pos-sale/App.tsx:38-47 | the catalogue's product codes are distinct |
| PointOfSale.FindProductByCode | src/projects/pos-sale/App.tsx:112 | in a catalogue with distinct codes, scanning a product's code finds that product |
| PointOfSale.ProductCodes | src/projects/pos-sale/App.tsx:38-47 | exactly the codes "1" to "8" find a product |
| PointOfSale.ScanIntoSpec | src/projects/pos-sale/App.tsx:114-121 | scanning raises that product's quantity by one (a new line when absent), leaves every other quantity alone, and keeps the cart's ids distinct with positive quantities |
| PointOfSale.ScanIntoKeepsCart | src/projects/pos-sale/App.tsx:114-121 | scanning keeps the cart valid and raises the scanned product's quantity by one |
| PointOfSale.ScanBumpsLine | src/projects/pos-sale/App.tsx:114-118 | a product already in the cart: its line gains one and the cart stays valid |
| PointOfSale.ScanBumpKeepsOther | src/projects/pos-sale/App.tsx:114-118 | a product already in the cart: every other product's quantity is unchanged |
| PointOfSale.ScanAppendsLine | src/projects/pos-sale/App.tsx:119-121 | a product not in the cart: a new line of quantity 1, and the cart stays valid |
| PointOfSale.ScanAppendKeepsOther | src/projects/pos-sale/App.tsx:119-121 | a product not in the cart: every other product's quantity is unchanged |
| PointOfSale.FilterKeepsDistinctIds | src/projects/pos-sale/App.tsx:130-142 | filtering keeps the cart's ids distinct |
| PointOfSale.DropEmptyLinesKeepsQty | src/projects/pos-sale/App.tsx:130-134 | dropping zero-quantity lines changes no product's quantity |
| PointOfSale.BumpKeepsIds | src/projects/pos-sale/App.tsx:131-133 | the map step keeps every line's id, so the ids stay distinct, and no quantity goes below 0 |
| PointOfSale.BumpedQty | src/projects/pos-sale/App.tsx:130-134 | after the map step, the changed product has `max(0, q + change)` and the others are unchanged |
| PointOfSale.UpdateQuantitySpec | src/projects/pos-sale/App.tsx:130-134 | the quantity becomes `max(0, q + change)`; a line reaching 0 is removed; others are unchanged; the cart stays valid |
| PointOfSale.RemoveLineSpec | src/projects/pos-sale/App.tsx:136-142 | removing drops the product from the cart, keeps every other quantity and keeps the cart valid |
| PointOfSale.RecommendedSpec | src/projects/pos-sale/App.tsx:181-183 | the recommendations are the first three catalogue products, in catalogue order, that are not in the cart and whose category the customer prefers; fewer than three means none was left out; no customer, none |
| PointOfSale.ParseSpeech | src/projects/pos-sale/App.tsx:85-97 | "add" or "scan" anywhere in the lower-cased transcript makes an add command; otherwise "remove" or "delete" a remove command; otherwise "checkout" a checkout; the product name is what remains after removing the first keyword of each pair, trimmed |
| PointOfSale.NameAfter | src/projects/pos-sale/App.tsx:88 | the product name left after removing the first two command words is trimmed: it neither starts nor ends with whitespace |
| PointOfSale.EmptyNamePicksFirst | src/projects/pos-sale/App.tsx:88-90 | an empty name matches the first product, because every name includes "" |
| PointOfSale.SayingAddPicksFirstProduct | src/projects/pos-sale/App.tsx:88-90 | saying just "add" adds the first catalogue product, the Ultra HD 8K TV |
| PointOfSale.Register.constructor | src/projects/pos-sale/App.tsx:57-70 | the initial register: empty cart, no customer, English, the fixed catalogue |
| PointOfSale.Register.AddNotification | src/projects/pos-sale/App.tsx:185-187 | the message is appended |
| PointOfSale.Register.ExpireNotification | src/projects/pos-sale/App.tsx:188-190 | every copy of the message is removed |
| PointOfSale.Register.ScanOnto | src/projects/pos-sale/App.tsx:109-128 | a known code puts `ScanInto(base, p)` in the cart and notifies; the product's quantity rises by one and it becomes the last scanned; an unknown code changes neither the cart, the last scanned product nor the notifications; the input is cleared and scanning ends |
| PointOfSale.Register.AddProduct | src/projects/pos-sale/App.tsx:109-128 | the same, on the current cart |
| PointOfSale.Register.UpdateQuantityClicked | src/projects/pos-sale/App.tsx:130-134 | the cart becomes `UpdateQuantity` of the old cart |
| PointOfSale.Register.RemoveFrom | src/projects/pos-sale/App.tsx:136-142 | the line is removed from the given cart, with a notification naming it when it was there |
| PointOfSale.Register.RemoveProduct | src/projects/pos-sale/App.tsx:136-142 | the same, on the current cart |
| PointOfSale.Register.Checkout | src/projects/pos-sale/App.tsx:154-168 | the sale is reset: empty cart, no customer or discount, no gift wrap, and a success notification |
| PointOfSale.Register.SelectCustomer | src/projects/pos-sale/App.tsx:462 | the customer with that id, or none |
| PointOfSale.Register.SetLanguage | src/projects/pos-sale/App.tsx:73-81 | the language changes and the speech handler is rebuilt with the current cart |
| PointOfSale.ObeySpec | src/projects/pos-sale/App.tsx:83-98 | a spoken add of a known product raises its quantity on the captured cart by one, makes it the last scanned product and notifies it; a spoken remove of a captured line drops that line from the captured cart and notifies it; checkout empties the cart, clears the customer and the last scanned product and notifies; an unknown product or an unrecognised phrase changes nothing; only checkout touches the customer, discount and gift wrap; the cart stays valid and at most one notification is appended |
| PointOfSale.Register.SpeechAdd | src/projects/pos-sale/App.tsx:87-90 | a spoken add: the first product whose lower-cased name contains the spoken name is scanned onto the captured cart; with no such product nothing changes |
| PointOfSale.Register.SpeechRemove | src/projects/pos-sale/App.tsx:91-94 | a spoken remove: the first captured line whose lower-cased name contains the spoken name is removed from the captured cart and notified; with no such line nothing changes |
| PointOfSale.Register.HandleSpeech | src/projects/pos-sale/App.tsx:83-98 | every field of the sale (cart, last scanned product, notifications, scan input, customer, discount, gift wrap) becomes what `Obey` gives for the parsed command, on the cart the speech handler captured |
| PointOfSale.VoiceAddForgetsNewerLines | src/projects/pos-sale/App.tsx:73-121 | on a register whose listener captured the empty cart, a product added by hand is in the cart, and a later voice add leaves only the spoken product, dropping the hand-added line |
| NoteTaking.FilteredFilesSpec | src/projects/simple-note-taking/App.tsx:205-209 | a note is listed exactly when its name, content or a tag contains the term, ignoring case, in list order |
| NoteTaking.EmptySearchListsAll | src/projects/simple-note-taking/App.tsx:205-209 | an empty search lists every note |
| NoteTaking.SpliceSpec | src/projects/simple-note-taking/App.tsx:215-218 | the selection is replaced by the Markdown; the text on both sides is kept; the cursor lands just after the insertion |
| NoteTaking.ReplaceById | src/projects/simple-note-taking/App.tsx:274 | the list keeps its length |
| NoteTaking.ReplaceByIdSpec | src/projects/simple-note-taking/App.tsx:274 | only the note with that id is replaced; ids stay in place and distinct |
| NoteTaking.SetContentById | src/projects/simple-note-taking/App.tsx:193-195 | the list keeps its length |
| NoteTaking.SetContentByIdSpec | src/projects/simple-note-taking/App.tsx:193-195 | only that note's content changes; names, tags, paths, ids and the other notes are kept |
| NoteTaking.WithoutFileSpec | src/projects/simple-note-taking/App.tsx:253 | deleting removes the note and keeps every other note |
| NoteTaking.AddTagKeepsTagsDistinct | src/projects/simple-note-taking/App.tsx:272-273 | adding only a non-empty, new tag keeps a note's tags duplicate-free |
| NoteTaking.NoteApp.constructor | src/projects/simple-note-taking/App.tsx:129-139 | the starter notes and folders, with the first note open as the listed object, in full-page preview |
| NoteTaking.NoteApp.FileSelect | src/projects/simple-note-taking/App.tsx:152-155 | the note becomes active; the toolbar's captured list is refreshed unless the very same note object was already active (React skips an identical state) |
| NoteTaking.NoteApp.TogglePreview | src/projects/simple-note-taking/App.tsx:610 | the layout button switches between full-page and side-by-side preview, starting from full-page |
| NoteTaking.NoteApp.NewFile | src/projects/simple-note-taking/App.tsx:157-168 | one starter note is appended and opened |
| NoteTaking.NoteApp.NewFolder | src/projects/simple-note-taking/App.tsx:175-189 | a non-empty answer adds a folder at "/"; a cancelled or empty one changes nothing |
| NoteTaking.NoteApp.ContentChangeOn | src/projects/simple-note-taking/App.tsx:191-199 | the active note's content is replaced in the captured list and in the active note |
| NoteTaking.NoteApp.ContentChange | src/projects/simple-note-taking/App.tsx:191-199 | the same, on the current list |
| NoteTaking.NoteApp.InsertMarkdown | src/projects/simple-note-taking/App.tsx:211-228 | only in side-by-side mode, where the textarea exists, the active note's content becomes the splice on the captured list and the cursor follows the insertion; otherwise nothing changes |
| NoteTaking.NoteApp.DeleteFile | src/projects/simple-note-taking/App.tsx:246-249 | the confirmation opens for that note |
| NoteTaking.NoteApp.ConfirmDelete | src/projects/simple-note-taking/App.tsx:251-267 | the note is removed and every other note kept; if it was active, the first remaining note opens (or none) and the captured list is refreshed; the dialog closes |
| NoteTaking.NoteApp.OpenFirst | src/projects/simple-note-taking/App.tsx:256-257 | the first note of the list opens, with its tab, or nothing is open when the list is empty |
| NoteTaking.NoteApp.AddTag | src/projects/simple-note-taking/App.tsx:269-283 | an accepted tag is appended to the active note in both places, stays duplicate-free and refreshes the captured list; a refused answer changes nothing |
| NoteTaking.NoteApp.RenameFile | src/projects/simple-note-taking/App.tsx:285-290 | the dialog opens with the active note's name |
| NoteTaking.NoteApp.SetNewFileName | src/projects/simple-note-taking/App.tsx:292-304 | the dialog's field takes the value |
| NoteTaking.NoteApp.ConfirmRename | src/projects/simple-note-taking/App.tsx:292-304 | a non-empty name renames the active note in both places, refreshes the captured list and closes the dialog; an empty name changes nothing |
| NoteTaking.NoteApp.SaveOn | src/projects/simple-note-taking/App.tsx:306-317 | the list becomes the captured list with the active note's timestamp refreshed, and the captured list follows; without an active note nothing changes |
| NoteTaking.NoteApp.Save | src/projects/simple-note-taking/App.tsx:306-317 | the same, on the current list |
| NoteTaking.NoteApp.KeyDown | src/projects/simple-note-taking/App.tsx:319-341 | Ctrl/Meta+S saves on the captured list; +B and +I insert `**Bold**` and `*Italic*` at the selection in side-by-side mode only, moving the cursor past them; every other key leaves the cursor and the notes alone |
| NoteTaking.FilterKeepsDistinct | src/projects/simple-note-taking/App.tsx:253 | deleting keeps note ids distinct |
| NoteTaking.InsertAfterDeletingOtherNoteRestoresIt | src/projects/simple-note-taking/App.tsx:211-228 | inserting Markdown on the captured list keeps a note deleted since |
| NoteTaking.DeleteKeepsOthers | src/projects/simple-note-taking/App.tsx:253-255 | deleting a note leaves the ids distinct and the deleted id absent, and a listed note with another id stays listed |
| NoteTaking.ReplacedIsListed | src/projects/simple-note-taking/App.tsx:274-276 | a note replaced by id is in the resulting list, so the active note stays the listed object |
| ApiCatalog.FilteredApisSpec | src/projects/api-catalog/App.tsx:62-69 | an API is listed exactly when it matches the term (case-insensitively) and the tag, rating and health filters, in list order |
| ApiCatalog.InitialFiltersShowAll | src/projects/api-catalog/App.tsx:32-38 | with the initial filters, every API is listed |
| ApiCatalog.ToggleTagSpec | src/projects/api-catalog/App.tsx:153-160 | checking appends the tag; unchecking removes every copy and keeps the others |
| ApiCatalog.Insert | src/projects/api-catalog/App.tsx:71 | inserting into a list sorted by popularity (descending) keeps it sorted and adds exactly that API |
| ApiCatalog.SortByPopularity | src/projects/api-catalog/App.tsx:71 | the sort is a permutation, in descending popularity |
| ApiCatalog.TrendingSpec | src/projects/api-catalog/App.tsx:71 | at most three APIs, sorted, drawn from the list, and no omitted API is more popular than one shown |
| ApiCatalog.NewApisSpec | src/projects/api-catalog/App.tsx:72 | exactly the APIs marked new, in order |
| ApiCatalog.NewOfApiData | src/projects/api-catalog/App.tsx:16-23 | the new APIs are Notifications and Machine Learning |
| ApiCatalog.HealthColorSpec | src/projects/api-catalog/App.tsx:74-81 | the three health levels get three distinct colours, and anything else is grey |
| ApiCatalog.CompleteAddsHundredXp | src/projects/api-catalog/App.tsx:43-51 | completing adds 100 XP, carried into a new level at 1000, and marks the challenge done at 100 percent |
| ApiCatalog.IncrementSpec | src/projects/api-catalog/App.tsx:53-60 | a step adds 25 percent, capped at 100, and completes the challenge when it reaches 100 |
| ApiCatalog.FourStepsComplete | src/projects/api-catalog/App.tsx:28-60 | four steps from the start complete the challenge with 850 XP |
| ApiCatalog.CatalogPage.constructor | src/projects/api-catalog/App.tsx:28-41 | 750 XP, level 5, the challenge not started, no filters |
| ApiCatalog.CatalogPage.SetSearchTerm | src/projects/api-catalog/App.tsx:118 | the term changes and nothing else |
| ApiCatalog.CatalogPage.TagChecked | src/projects/api-catalog/App.tsx:153-160 | the tags become `ToggleTag` of the old tags |
| ApiCatalog.CatalogPage.SetMinRating | src/projects/api-catalog/App.tsx:169 | the minimum rating changes |
| ApiCatalog.CatalogPage.SetHealthStatus | src/projects/api-catalog/App.tsx:185 | the health filter changes |
| ApiCatalog.CatalogPage.CompleteDailyChallenge | src/projects/api-catalog/App.tsx:43-51 | the challenge state becomes `Complete` of the old state |
| ApiCatalog.CatalogPage.IncrementDailyChallengeProgress | src/projects/api-catalog/App.tsx:53-60 | the challenge state becomes `Increment` of the old state |
| ChatExporter.IdRunSpec | src/projects/chatgpt-exporter/App.tsx:215-218 | the id matcher accepts exactly n characters from `[a-f0-9-]` |
| ChatExporter.ValidUrlSpec | src/projects/chatgpt-exporter/App.tsx:215-218 | a URL is valid exactly when it is the share prefix followed by 36 characters from `[a-f0-9-]` |
| ChatExporter.LastPieceAfterSeparator | src/projects/chatgpt-exporter/App.tsx:45 | `split('/').pop()` gives the text after the last '/' |
| ChatExporter.ChatIdAfterPrefix | src/projects/chatgpt-exporter/App.tsx:45 | after a prefix ending in '/' and with no further '/', the chat id is the rest |
| ChatExporter.ChatIdOfValidUrl | src/projects/chatgpt-exporter/App.tsx:45 | a valid URL's chat id is its 36-character suffix |
| ChatExporter.LookupSpec | src/projects/chatgpt-exporter/App.tsx:42-56 | a known chat resolves to its info; an error record rejects with its message; an unknown id rejects with the page's not-found message; it resolves exactly for info records |
| ChatExporter.ErrorRecordUnreachable | src/projects/chatgpt-exporter/App.tsx:35-38 | no valid URL reaches the "error-test-id" record, whose id has letters outside `[a-f0-9-]` |
| ChatExporter.ErrorText | src/projects/chatgpt-exporter/App.tsx:240 | the shown error is the rejection's message when that is non-empty, else the fallback text; so it is non-empty whenever the fallback is |
| ChatExporter.PageMessagesNonEmpty | src/projects/chatgpt-exporter/App.tsx:53 | the page's not-found, invalid-URL and fallback texts are all non-empty |
| ChatExporter.AfterSubmitSpec | src/projects/chatgpt-exporter/App.tsx:220-245 | a blank URL changes nothing; an invalid one sets only the error, to the invalid-URL text; a valid one ends not loading, with chat info exactly when the lookup resolves, no error then, and a non-empty error otherwise |
| ChatExporter.SetOptionSpec | src/projects/chatgpt-exporter/App.tsx:247-249 | the option takes the value and every other option is kept |
| ChatExporter.ExportPage.constructor | src/projects/chatgpt-exporter/App.tsx:195-209 | empty URL, no chat, not loading, the default options |
| ChatExporter.ExportPage.SetUrl | src/projects/chatgpt-exporter/App.tsx:372 | the URL takes the value |
| ChatExporter.ExportPage.UrlSubmit | src/projects/chatgpt-exporter/App.tsx:220-245 | the load state becomes `AfterSubmit` of the old state |
| ChatExporter.ExportPage.Load | src/projects/chatgpt-exporter/App.tsx:230-244 | after a valid URL, the state first shows loading with no info or error, then a resolved lookup shows its info with no error and a rejected one no info with its error text; loading ends either way |
| ChatExporter.ExportPage.OptionChange | src/projects/chatgpt-exporter/App.tsx:247-249 | the options become `SetOption` of the old options |
| ChatExporter.ExportPage.Export | src/projects/chatgpt-exporter/App.tsx:251-252 | the export button raises the exporting flag |
| ChatExporter.ExportPage.ExportDone | src/projects/chatgpt-exporter/App.tsx:255-264 | when the 2 s export wait is over, the exporting flag is cleared |
| ChatExporter.ExportPage.ToggleDarkMode | src/projects/chatgpt-exporter/App.tsx:266-268 | dark mode flips |
| LearnToCook.ToggleFavoriteSpec | src/projects/learntocook/App.tsx:136-142 | an absent id is appended; a present one is removed everywhere; other ids are unaffected |
| LearnToCook.ToggleTwiceRestores | src/projects/learntocook/App.tsx:136-142 | toggling an id twice, from a list without it, restores the list |
| LearnToCook.CookPage.constructor | src/projects/learntocook/App.tsx:113-119 | no favourites or recipes, a new user, the modal closed |
| LearnToCook.CookPage.Mount | src/projects/learntocook/App.tsx:121-133 | a new user sees the welcome modal; the greeting and the four recipes are set |
| LearnToCook.CookPage.ToggleFavoriteClicked | src/projects/learntocook/App.tsx:136-142 | favourites become `ToggleFavorite` of the old favourites |
| LearnToCook.CookPage.CompleteProfile | src/projects/learntocook/App.tsx:144-149 | the profile is complete and the modal closes |
| LearnToCook.CookPage.CloseWelcome | src/projects/learntocook/App.tsx:309 | the modal closes |
| ProjectsConfig.ProjectIdOfGlobKey | src/projectsConfig.ts:17 | the id of `./projects/<dir>/App.tsx` is `dir` |
| ProjectsConfig.ThirdPiece | src/projectsConfig.ts:17 | the third '/'-piece of `a/b/c/rest` is `c` |
| ProjectsConfig.MissingCharExcludes | src/projectsConfig.ts:20 | a string missing one of the pattern's characters does not include the pattern |
| ProjectsConfig.FirstIndexOfChar | src/projectsConfig.ts:20 | the first occurrence of a character is its `indexOf` |
| ProjectsConfig.DisplayNameReplacesFirstDash | src/projectsConfig.ts:20 | for an id without "project-", the name is the id upper-cased with only its first '-' made a space |
| ProjectsConfig.NoteTakingName | src/projectsConfig.ts:20 | "simple-note-taking" is displayed as "SIMPLE NOTE-TAKING" |
| ProjectsConfig.DescriptionNamesId | src/projectsConfig.ts:21 | the id can be read back from the description between its fixed head and tail |
| ProjectsConfig.ProjectFor | src/projectsConfig.ts:17-22 | the entry's id is the key's third piece and its component is the key |
| ProjectsConfig.Registry.constructor | src/projectsConfig.ts:11 | the registry starts empty |
| ProjectsConfig.Registry.ImportAllProjects | src/projectsConfig.ts:14-24 | one entry is pushed per glob key, in key order, after the existing ones |
| ProjectsConfig.ImportedIdsAreDirectories | src/projectsConfig.ts:14-24 | importing directory keys registers each directory as its id |

## Findings

| source | as written | input that shows it | evidently intended | confidence | as-written member | corrected member |
|---|---|---|---|---|---|---|
| src/projects/whiteboard/App.tsx:137-139 | the store's `setSelectedShapes` keeps its argument, and the shift-click at line 915 passes it the function `prev => [...prev, clickedShape.id]` | a shift-click on any shape with the select tool: the selection becomes a function, and the next render's `selectedShapes.includes` throws | the updater is applied to the current selection, appending the clicked id | not executed | WhiteboardStore.ShiftClickStoresFunction | WhiteboardStore.ShiftClickDispatched |
| src/projects/whiteboard/App.tsx:985-1013 | the rubber-band move passes `setShapes` an updater function, which the store keeps as the shape list | dragging with the rectangle tool: after the first move `shapes` is a function, and the next render's `shapes.map` throws | the updater is applied to the current shapes, leaving exactly one temporary shape | not executed | WhiteboardStore.RubberBandStoresFunction | WhiteboardStore.RubberBandDispatched |

## Left out

- Rendering, styling, animation and toasts: they are not state logic. `toast` calls leave no state behind.
- Timers: `setTimeout` delays (the mocked API's 1.5 s, the export's 2 s, notification expiry), `TypewriterText` and throttling. Each delayed action is a method that the environment calls later.
- ChatExporter.ExportPage.UrlSubmit: the await is collapsed. The moment between the call and the reply, while `isLoading` is true and another submit could interleave, is not modelled.
- `localStorage`, the theme toggles and `matchMedia`: they are browser I/O.
- File download and import parsing (`JSON.parse`, `Blob`, `FileReader`): the parsed scene is a parameter of `ImportScene`.
- Notes export and theme: these are file download and styling only.
- EyeDropper colour picking and SpeechRecognition start/stop (`toggleSpeechRecognition`): they are browser APIs. The recognised transcript is a parameter of `HandleSpeech`.
- `prompt` answers, the textarea selection, `uuidv4`, `Date.now`, `new Date()` and `Math.random`: they are parameters.
- Whiteboard rotation (`Math.atan2`), star polygon trigonometry and the zoom division: these are floating point. Coordinates are canvas integers. `MouseMove` does not change the rotation.
- WhiteboardCanvas.Canvas.MouseUp: an empty freehand stroke adds no shape. The code would add a shape with infinite bounds (`Math.min()` of nothing).
- POS `calculateTotal`, `formatCurrency`, the discount and the loyalty-point floor: they are fractional currency arithmetic. Prices are whole cents, and no total is proved.
- Js.ToLower, Js.ToUpper: only ASCII letters are mapped. JavaScript's full Unicode case mapping is not modelled.
- ChatExporter.Lookup: the code indexes the mock data object by key, so keys such as "constructor" would resolve through the prototype. The map does not reproduce this. Such ids never pass `ValidUrl`.
- ApiCatalog.TrendingSpec: it does not state how ties in popularity are ordered. JavaScript's sort is stable, and the model's insertion sort is not proved to be.
- ApiCatalog.Trending: the concrete three trending APIs of the fixed data (Payments, Machine Learning, Authentication) are not proved. Only the general properties are.
- The routing shell (`src/App.tsx`, `ProjectList`, `ProjectViewer`) is not part of this model. It only looks up a project by id and renders it.
- The `React.lazy` component of each registry entry is represented by its glob key.
- The disabled state of the exporter's submit button is not modelled. It is a rendering detail, and `UrlSubmit` handles every state.
- The health-report project is not part of this model.
- WhiteboardScene.SelectionAfterClick: it is the shift-click updater applied to the current selection, as a React dispatcher would apply it. The store as written keeps the function itself (see "## Findings").
- WhiteboardScene.ShiftClickDuplicates: it is the shift-click updater applied to the current selection, as a React dispatcher would apply it. The store as written keeps the function itself (see "## Findings").
- WhiteboardCanvas.Canvas.MouseDown: the updater it passes to a store setter is applied to the current value, as a React dispatcher would. The store as written keeps the function itself (see "## Findings").
- WhiteboardCanvas.Canvas.ClickSelect: the updater it passes to a store setter is applied to the current value, as a React dispatcher would. The store as written keeps the function itself (see "## Findings").
- WhiteboardCanvas.Canvas.PlaceText: the updater it passes to a store setter is applied to the current value, as a React dispatcher would. The store as written keeps the function itself (see "## Findings").
- WhiteboardCanvas.Canvas.MouseMove: the updater it passes to a store setter is applied to the current value, as a React dispatcher would. The store as written keeps the function itself (see "## Findings").
- WhiteboardCanvas.Canvas.MouseUp: the updater it passes to a store setter is applied to the current value, as a React dispatcher would. The store as written keeps the function itself (see "## Findings").
- WhiteboardCanvas.Canvas.CommitDrawing: the updater it passes to a store setter is applied to the current value, as a React dispatcher would. The store as written keeps the function itself (see "## Findings").
- WhiteboardCanvas.Canvas.FinishConnection: the updater it passes to a store setter is applied to the current value, as a React dispatcher would. The store as written keeps the function itself (see "## Findings").
- WhiteboardCanvas.Canvas.TextChange: the updater it passes to a store setter is applied to the current value, as a React dispatcher would. The store as written keeps the function itself (see "## Findings").
- WhiteboardStore.Store.SelectLibraryItem: the updater it passes to a store setter is applied to the current value, as a React dispatcher would. The store as written keeps the function itself (see "## Findings").
- WhiteboardScene.SelectionAfterClick: it is only the mouse-down half of a click. The shape element's own click handler (App.tsx:785, 1207) then selects that shape alone; `ShapeClicked` and `SelectClick` model that, so the appended or duplicated id does not survive a click on a shape.
- WhiteboardScene.ShiftClickDuplicates: it is only the mouse-down half of a click. The shape element's own click handler (App.tsx:785, 1207) then selects that shape alone; `ShapeClicked` and `SelectClick` model that, so the appended or duplicated id does not survive a click on a shape.
- WhiteboardCanvas.Canvas.ClickSelect: it is only the mouse-down half of a click. The shape element's own click handler (App.tsx:785, 1207) then selects that shape alone; `ShapeClicked` and `SelectClick` model that, so the appended or duplicated id does not survive a click on a shape.
- WhiteboardCanvas.Canvas.SelectClick: which shape receives the click is a parameter. The browser gives it to the topmost element under the pointer (by `zIndex` and document order, locked shapes letting it through), which can differ from the first hit in list order; element stacking is not modelled.
