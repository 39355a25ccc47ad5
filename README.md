# Site-plan editor core in Dafny

The editor places house footprints on a 910 mm grid drawn over a Fabric.js canvas, and it can
fill a rubber-band rectangle with as many footprints as fit. Users can rotate, delete and
recolour buildings, put a PDF page behind the plan, and export the buildings as JSON or as a
PDF listing. This project models the five core scripts, one Dafny module each:

- `Config` (js/config.js) holds the constant table: canvas size, scale, grid size and the
  building catalogue.
- `Grid` (js/utils.js, pure part) covers `snapToGrid`, `snapCoordinatesToGrid` and
  `calculatePlacementCapacity`.
- `Building` (js/building.js) covers footprint creation, single and area placement,
  `updateGridInfo`, and the module state (`buildingCount`, `selectedBuildingType`,
  `spacingState`).
- `CanvasLayer` (js/canvas.js) covers the canvas set-up, the grid lines, the grid switch and
  the PDF background.
- `Utils` (js/utils.js, canvas part) covers delete, rotate and clear-all, plus what
  `exportJSON` and `exportPDF` produce.
- `App` (js/main.js) covers `appState`, the mode switch, the status line, the redraw and
  recolour passes, and the pointer and slider handlers. `Layering` states
  `maintainLayerOrder` as a function on the object list.

`Scene` stands in for the Fabric canvas. It is an ordered list of object values; index 0 is
the back. An object's JavaScript identity is its `uid`, and `new fabric.X` draws a fresh one.
The primitives the core calls (`add`, `remove`, `sendToBack`, `bringForward`, `set`,
`discardActiveObject`) are methods of `Scene.Canvas`. As in Fabric, `remove` also discards
the active object when it removes it. The module state of each script is a
class whose methods update its fields. Loops are `while` or `for` loops with invariants, proved
against a function on the object list. Numbers are exact reals, and JavaScript's `Math.round`,
`Math.floor` and `%` are written out.

## Model

| member | source | states |
|---|---|---|
| Config.GridSize | js/config.js:17-22 | The grid cell is 3.64 px. This equals UNIT/1000 × SCALE, although the getter multiplies by the literal 4 rather than reading SCALE. |
| Config.LookupType | js/config.js:25-62 | Exactly the keys A–D are in the catalogue, and each entry carries its own key. Every footprint has 0 < width ≤ height. Exactly A and B have an entrance. |
| Config.TypeCColorIsMarkerColor | js/config.js:44-70 | Type C's colour is the entrance-marker colour. No other type uses it. |
| Scene.Canvas.Remove | js/utils.js:42 | The object leaves the list. A selection of exactly that object, which was on the canvas, becomes empty, because Fabric discards a removed active object. Any other selection stays. |
| Scene.DeselectStep | js/utils.js:76-82 | Removals one after another compose: after each `remove` the selection is `SelectionAfter` the whole pass, that is, emptied exactly when it was one object that was on the canvas and is gone. |
| Grid.Round | js/utils.js:12 | `Math.round` gives the integer k with k − ½ ≤ x < k + ½, so halves round up. |
| Grid.RoundOfInteger | js/utils.js:12 | Rounding an integer gives that integer back. |
| Grid.SnapToGrid | js/utils.js:11-13 | The snapped value is a whole multiple of the grid size and lies within half a grid cell of the input (above by less than half, below by at most half), so it is the nearest multiple with halves going up. |
| Grid.FitCount | js/utils.js:25-26 | Defines `Math.floor((avail + gap) / (size + gap))`, one axis of the capacity. Its meaning, the largest count that fits, is proved in `Grid.FitCountIsLargestFit`. |
| Grid.SnapOfGridPoint | js/utils.js:11-13 | A multiple of the grid size snaps to itself. |
| Grid.SnapIdempotent | js/utils.js:11-13 | Snapping twice gives the same value as snapping once. |
| Grid.GridIndexOfSnapped | js/utils.js:11-13 | A snapped value has the grid index that the value was snapped to. |
| Grid.SnapCoordinatesToGrid | js/utils.js:16-21 | x and y are each snapped independently. |
| Grid.CalculatePlacementCapacity | js/utils.js:24-28 | cols and rows are the floor formulas. total is never negative. total is cols × rows when both are non-negative, and 0 when exactly one is negative. In every case total is `Math.max(0, cols × rows)`, including the positive product of two negative counts. |
| Grid.FitCountIsLargestFit | js/utils.js:25-26 | The column (row) count is the largest n for which n footprints plus n − 1 gaps fit in the area. One more never fits. |
| Grid.FitCountFits | js/utils.js:25-26 | The computed count is non-negative and that many footprints fit. |
| Building.FootprintParts | js/building.js:31-63 | Defines the body rectangle and, for types with an entrance, the entrance marker. Properties are in `Building.FootprintShape`. |
| Building.Footprint | js/building.js:31-70 | Defines the group `createBuilding` returns: position, angle, size, selectability, type and `buildingId`. Properties are in `Building.FootprintShape`. |
| Building.FootprintShape | js/building.js:31-63 | The group is the catalogue size × SCALE, placed at (x, y) and tagged with type and id. It has an entrance marker iff the type has an entrance. The marker is centred, sits 4 px above the bottom edge and lies inside the body. |
| Building.AdjustSpacing | js/building.js:133-150 | Without a positive count the spacing is the base spacing. |
| Building.AdjustNotBelowBase | js/building.js:133-150 | Redistributing the slack never shrinks the spacing. It grows strictly when there is slack. |
| Building.FarEdgeMargin | js/building.js:133-150 | The slack is divided by count rather than by count − 1 gaps, so the last footprint ends slack/count short of the far edge. |
| Building.TileInside | js/building.js:137-148 | Along one axis, footprint c < capacity starts at or after the near edge and ends at or before the far edge. |
| Building.LastTileEnd | js/building.js:137-148 | The far edge of the last of n footprints at the adjusted step lies inside the area. |
| Building.TilesApart | js/building.js:163-164 | With step ≥ size, footprint c1 ends before footprint c2 > c1 starts. |
| Building.AreaCapacity | js/building.js:115-130 | Defines the capacity `placeMultipleBuildings` computes for the selected type, the area and the spacing converted to pixels. |
| Building.AreaTiling | js/building.js:115-150 | Defines the layout: area corner, adjusted steps along each axis, column count. Properties are in `Building.AreaTilingSteps`, `TilesInsideArea` and `TilesDoNotOverlap`. |
| Building.TileAt | js/building.js:163-166 | Defines the footprint of row r, column c, with identity and `buildingId` counted row-major. Properties are in `Building.TileAtPosition`. |
| Building.Tiles | js/building.js:159-172 | The footprints of the first `rows` rows, row after row; it has rows × cols of them. |
| Building.TilesAt | js/building.js:159-172 | Area placement adds footprints row-major: footprint (r, c) is number r × cols + c. |
| Building.TotalIsTileCount | js/building.js:124-130 | The number of footprints laid out equals the capacity total. |
| Building.TileAtPosition | js/building.js:163-164 | Footprint (r, c) sits at left + c × stepX, top + r × stepY, at catalogue size. |
| Building.TilesInsideArea | js/building.js:137-164 | Every footprint of an area placement lies inside the selected area. |
| Building.ColumnInside | js/building.js:137-141 | Every column lies within the area's width. |
| Building.RowInside | js/building.js:143-148 | Every row lies within the area's height. |
| Building.AreaTilingSteps | js/building.js:124-150 | The tiling starts at the area's corner. Its counts come from the capacity formula, and its steps are footprint size plus adjusted spacing. |
| Building.TilingApart | js/building.js:163-164 | In a tiling whose steps are at least the footprint size, footprints in one row or one column do not overlap. |
| Building.TilesDoNotOverlap | js/building.js:133-164 | Footprints of an area placement in the same row or the same column do not overlap. |
| Building.SiteMapBuilding.constructor | js/building.js:11-18 | Initial module state: nothing selected, counter 0, default spacing 1.2 m. |
| Building.SiteMapBuilding.CreateBuilding | js/building.js:21-73 | The counter rises on every call. An unknown type gives null and draws no identity. A known type gives a fresh group on the counter's new value, selectable exactly in select mode. |
| Building.SiteMapBuilding.PlaceBuilding | js/building.js:76-103 | With no type selected, nothing changes. Otherwise one footprint of the selected type is added on top at the snapped point. |
| Building.SiteMapBuilding.PlaceMultipleBuildings | js/building.js:106-185 | With no type selected, nothing changes. If the area holds no footprint it is reported too small. Otherwise cols × rows footprints are added row by row and their count is reported. |
| Building.SiteMapBuilding.PlaceInArea | js/building.js:115-178 | For a selected type the outcome is either too small, with the canvas unchanged, or the row-major tiles on top. |
| Building.SiteMapBuilding.PlaceTiles | js/building.js:159-172 | The outer loop adds the first `rows` rows of the tiling and moves both counters by their size. |
| Building.SiteMapBuilding.PlaceRow | js/building.js:160-171 | The inner loop adds one row of footprints, left to right. |
| Building.SiteMapBuilding.GridInfoFor | js/building.js:188-216 | Returns nothing iff no type is selected. Otherwise returns the capacity of a width × height area, the size in metres and the type's name. |
| Building.SiteMapBuilding.SetSelectedBuildingType | js/building.js:219-230 | A catalogue key selects that type with its footprint in pixels. Any other key leaves the selection unchanged. |
| Building.SiteMapBuilding.SetSpacing | js/building.js:233-236 | An undefined side is kept. A given side is replaced. |
| Building.SiteMapBuilding.ResetBuildingCount | js/building.js:239-241 | The counter becomes 0. Nothing else changes. |
| CanvasLayer.GridLineObj | js/canvas.js:66-91 | Defines one grid line: not selectable, not evented, excluded from export, major stroke or minor stroke. Properties are in `CanvasLayer.GridLineFacts`. |
| CanvasLayer.LinesFor | js/canvas.js:66-91 | The lines of one direction with the given identities, numbered from 0; it keeps those identities in order. |
| CanvasLayer.GridLinesFor | js/canvas.js:66-91 | The lines `drawGrid` creates, vertical ones first; it keeps the identities in order. |
| CanvasLayer.Toggled | js/canvas.js:98-103 | Defines the scene after flipping `visible` on the listed identities; it keeps the length. Properties are in `CanvasLayer.ToggleTwice`. |
| CanvasLayer.LineCount | js/canvas.js:66-91 | The loop `i <= len / GRID_SIZE` runs n times, with n − 1 ≤ len/GRID_SIZE < n. |
| CanvasLayer.LineCounts | js/canvas.js:66-91 | The 1200 × 850 canvas gets 330 vertical and 234 horizontal lines. |
| CanvasLayer.GridLineFacts | js/canvas.js:66-91 | Each drawn line lies on a grid multiple, spans the canvas, and is major iff its index is a multiple of 10. It is not selectable, not evented, excluded from export and not tagged `isGrid`. |
| CanvasLayer.LineFacts | js/canvas.js:66-91 | The same facts for line i of one direction. |
| CanvasLayer.LineAt | js/canvas.js:66-91 | Vertical lines come first, then horizontal ones. |
| CanvasLayer.GridLinesSplit | js/canvas.js:66-91 | Fresh identities for both loops give the two directions' lines one after the other. |
| CanvasLayer.DrawnSequence | js/canvas.js:66-91 | After both loops, every line of both directions is on top of the previous scene. |
| CanvasLayer.DrawnOrder | js/canvas.js:94 | Sending the new lines to the back one by one puts all of them, reversed, behind everything else. |
| CanvasLayer.DropLines | js/canvas.js:59-60 | Removing the added lines gives back the scene beneath them. |
| CanvasLayer.RedrawRemovesOldLines | js/canvas.js:59-60 | Redrawing first removes exactly the previous grid lines and keeps everything else in order. |
| CanvasLayer.ToggleTwice | js/canvas.js:98-103 | Toggling the grid twice restores every object. Toggling keeps identities and order. |
| CanvasLayer.ToggleStep | js/canvas.js:100-102 | Each loop turn flips exactly the one line it visits. |
| CanvasLayer.FitScale | js/canvas.js:133-135 | The scale is positive, the page fits the canvas, and one side is exactly filled. |
| CanvasLayer.FitScaleIsLargest | js/canvas.js:133-135 | No larger scale fits. |
| CanvasLayer.BackgroundFor | js/canvas.js:150-163 | Defines the background image object: the rendered page, centred, half transparent, not selectable, tagged `isBackground`. Properties are in `CanvasLayer.BackgroundCentred`. |
| CanvasLayer.BackgroundCentred | js/canvas.js:154-163 | The background is centred with equal margins on opposite sides, half transparent and not selectable. |
| CanvasLayer.LoadedOrder | js/canvas.js:165-171 | After a load the grid lines are reversed at the back, then the new background, then the rest. |
| CanvasLayer.PickCons | js/canvas.js:171 | Picking grid identities skips an object that is not a grid line. |
| CanvasLayer.AddLinesTo | js/canvas.js:66-91 | One direction's loop adds LineCount lines with consecutive fresh identities on top. |
| CanvasLayer.ToggleLines | js/canvas.js:100-102 | The loop flips `visible` on exactly the listed lines. |
| CanvasLayer.ToggleOne | js/canvas.js:100-102 | One loop turn extends the toggled prefix by one line. |
| CanvasLayer.FreshRange | js/canvas.js:66-91 | The identities of new lines differ from each other and from all older ones. |
| CanvasLayer.SiteMapCanvas.constructor | js/canvas.js:24-49 | The canvas starts empty with no background, then gets 564 grid lines in reversed drawing order. |
| CanvasLayer.SiteMapCanvas.DrawGrid | js/canvas.js:52-95 | Old lines are removed, 564 new lines are added, and all of them end up reversed behind the untouched remainder. A selection that was one of the old lines is cleared. |
| CanvasLayer.SiteMapCanvas.DrawLines | js/canvas.js:65-94 | With no lines remembered, both loops and the `sendToBack` pass put 564 new lines, reversed, behind the untouched list. |
| CanvasLayer.SiteMapCanvas.RemoveGridLines | js/canvas.js:59-60 | The remembered lines are removed and the list is emptied. The selection is `SelectionAfter` the removal. |
| CanvasLayer.SiteMapCanvas.AddLines | js/canvas.js:66-91 | One direction's lines are appended to the canvas and to `gridLines`. |
| CanvasLayer.SiteMapCanvas.SendLinesToBack | js/canvas.js:94 | Each remembered line is sent to the back in turn. |
| CanvasLayer.SiteMapCanvas.ToggleGrid | js/canvas.js:98-103 | Every grid line's `visible` flag is flipped, and nothing else changes. |
| CanvasLayer.SiteMapCanvas.LoadPdf | js/canvas.js:111-183 | A file that is missing or not PDF is rejected, and a failed read changes nothing, not even the identity counter. On success the old background is replaced by a centred, fitted page at the back, with the grid lines behind it. Removing the old background deselects it. |
| CanvasLayer.SiteMapCanvas.ShowBackground | js/canvas.js:154-171 | The new page image becomes the background, sent to the back, and then the grid lines are sent behind it. |
| CanvasLayer.SiteMapCanvas.ClearBackground | js/canvas.js:186-196 | A background is removed and forgotten, and the selection is `Deselected` by that removal. Without one, nothing changes. |
| Layering.LayerOrderPermutes | js/main.js:104-133 | `maintainLayerOrder` only reorders: the objects form the same multiset and identities stay unique. |
| Layering.LayerOrderShape | js/main.js:104-133 | From back to front the new order is the background (else the frame), then the `isGrid` objects reversed, then the frame if there is also a background, then the rest in its old order. |
| Layering.LayerOrderBottom | js/main.js:107-119 | The background ends at the very back. Without one, the frame does. |
| Layering.LayerOrderGridsBelowFrame | js/main.js:122-130 | With both a background and a frame, the `isGrid` objects sit between them in reverse order, and the frame comes right after them. |
| Layering.LayerOrderKeepsContent | js/main.js:104-133 | Background, frame and grid objects form a prefix, and every other object follows in its previous relative order. |
| Layering.GridStepsSnoc | js/main.js:123-129 | One more grid step applies one more sendToBack/bringForward move. |
| Layering.FindFrame | js/main.js:113 | Returns the FIRST object whose `objectType` is `drawingFrame`: it is on the canvas and no drawing frame precedes it. Returns nothing iff there is no frame. |
| Layering.LayerOrder | js/main.js:104-133 | Defines the three steps of `maintainLayerOrder` on the object list. Its properties are proved in `LayerOrderPermutes`, `LayerOrderShape`, `LayerOrderBottom`, `LayerOrderGridsBelowFrame` and `LayerOrderKeepsContent`. |
| App.KeepsSelectability | js/main.js:66-70 | Defines the exclusion test of `setMode`: excluded from export, the background image, tagged `isBackground` or `isGrid`, or a drawing frame. |
| App.WithMode | js/main.js:64-73 | One turn of the `setMode` loop on one object. Properties are in `App.Reselected`. |
| App.Reselected | js/main.js:64-73 | Only `selectable` changes. Objects that are not excluded become selectable exactly in select mode, and excluded ones keep their flag. |
| App.ReselectLastWins | js/main.js:64-73 | Switching mode twice gives the same result as switching to the last mode directly. |
| App.ApplyMode | js/main.js:64-73 | The `forEach` of `setMode` produces exactly the `Reselected` list. |
| App.ModeOne | js/main.js:65-72 | One loop turn settles exactly one more object. |
| App.ReselectedExtend | js/main.js:65-72 | Settling position i extends the settled prefix by one. |
| App.StatusFor | js/main.js:83-101 | Text and draw modes show their hint whatever is selected. Otherwise a missing type comes first, then the mode's hint with the chosen type (each an if-and-only-if). |
| App.FirstPair | js/main.js:141-172 | Finds the first paired A/B building: none comes before it. |
| App.AfterRedraw | js/main.js:141-170 | Defines the object list after `updateExistingBuildings` without a pair: the untouched objects in order, then the rebuilt A/B buildings. Properties are in `App.RedrawPreserves`. |
| App.Rebuilds | js/main.js:147-168 | The rebuilt buildings, one per handled A/B building, in order; as many as there were. |
| App.RebuildsFacts | js/main.js:141-172 | Rebuilt buildings keep type, position and angle, are unpaired, and take consecutive ids. |
| App.SplitFilters | js/main.js:141-172 | The list of untouched objects followed by rebuilt buildings splits back into both parts. |
| App.RedrawPreserves | js/main.js:136-173 | Without pairs, every other object keeps its relative order. The A/B buildings are replaced, in order, by new ones on top with the same position, angle and type, fresh identities and consecutive ids. |
| App.ColorFor | js/main.js:179-182 | Defines the colour painted: the catalogue colour when ticked, `#cccccc` otherwise. |
| App.RecoloredPart | js/main.js:190-192 | Defines one shape after the pass: repainted unless its fill is the marker colour. |
| App.Recolored | js/main.js:185-196 | Defines one object after the pass: a group of the type has its shapes repainted, anything else is unchanged. |
| App.RecoloredAll | js/main.js:184-197 | The object list after `updateBuildingColors`, object by object; it keeps the length. Properties are in `App.TypeCNeverRecolored` and `App.RecolorRoundTrip`. |
| App.TypeCNeverRecolored | js/main.js:176-200 | A type C building is never recoloured, because its body has the marker colour that the pass skips. |
| App.RecolorRoundTrip | js/main.js:176-200 | For other types the body takes the new colour and the marker keeps its own. Painting grey and then the catalogue colour again restores the group. |
| App.RecolorParts | js/main.js:188-193 | Shapes in the marker colour keep their fill. Every other shape takes the new colour. |
| App.RecolorAll | js/main.js:184-197 | The outer loop produces exactly `RecoloredAll`. |
| App.RecolorOne | js/main.js:185-196 | One loop turn repaints exactly one more object. |
| App.RecoloredExtend | js/main.js:185-196 | Repainting position i extends the repainted prefix by one. |
| App.DownGesture | js/main.js:219-247 | Text mode without a hit target adds text. Place mode with a type places a building. Area mode with a type starts a band. Select and draw modes do nothing. |
| App.BandRect | js/main.js:230-243 | The rubber band starts as a zero-size, non-selectable, non-building rectangle at the start point. |
| App.RubberBand | js/main.js:302-305 | Defines the band rectangle from `Math.min` of the coordinates and `Math.abs` of the differences. Properties are in `App.RubberBandCovers`. |
| App.RubberBandCovers | js/main.js:298-316 | The band has non-negative size, covers both points, and is the smallest rectangle that does. |
| App.LargeEnough | js/main.js:324-325 | Defines the test for area placement: band width above MIN_WIDTH and band height above MIN_HEIGHT, both strict. |
| App.Dragged | js/main.js:250-261 | A building dragged in select mode lands on `SnapToGrid` of each coordinate: a grid point within half a cell. Anything else does not move. |
| App.ReorderAfterLoad | js/canvas.js:165-171 | After `loadPDF`, the grid lines lie reversed behind the new background. The grid lines carry no `isGrid` tag, so the next `maintainLayerOrder` (js/main.js:104-133) puts the background at the very back with the lines directly in front of it, and keeps everything else in order. |
| App.LayerOrderUntagged | js/main.js:104-133 | With no drawing frame and no `isGrid` object, `maintainLayerOrder` only sends the background to the back. |
| App.ReorderLayers | js/main.js:104-133 | The three steps on the canvas produce exactly `LayerOrder`. |
| App.LayerOrderSteps | js/main.js:104-133 | `maintainLayerOrder` is steps 1 and 2 followed by the grid loop. |
| App.GridLoop | js/main.js:122-130 | Step 3 sends each `isGrid` object to the back and then one step forward when asked. |
| App.RedrawBuildings | js/main.js:136-173 | The loop over the snapshot rebuilds A/B buildings. It stops with `aborted` at the first paired one, after removing it. A selection that was one of the removed buildings is cleared. |
| App.RedrawStep | js/main.js:141-172 | One loop turn keeps the redraw invariant, or it stops at the first paired building. |
| App.RedrawOne | js/main.js:142-170 | An A/B building is removed. Unless it is paired, it is created again on top. The selection keeps following `SelectionAfter`. |
| App.Recreate | js/main.js:156-168 | `createBuilding` at the old place, angle and type, added on top, with both counters one up. |
| App.FilterStep | js/main.js:141-172 | The filters over the handled prefix grow by the next object. |
| App.FirstPairAt | js/main.js:141-172 | If no paired building comes before position i and position i holds one, the first pair is at i. |
| App.SiteMapApp.constructor | js/main.js:15-22 | `appState` starts in select mode, with no band, no start point and no type. |
| App.SiteMapApp.SetMode | js/main.js:37-80 | The mode becomes m. Free drawing is on exactly in draw mode and rubber-band selection exactly in select mode. Objects are reselected, and the status line matches `getStatusMessage`. |
| App.SiteMapApp.GetStatusMessage | js/main.js:83-101 | The status line for the current mode and type. |
| App.SiteMapApp.MaintainLayerOrder | js/main.js:104-133 | The canvas is reordered to `LayerOrder` of its old list. |
| App.SiteMapApp.UpdateExistingBuildings | js/main.js:136-173 | Without pairs the result is `AfterRedraw`. With pairs it stops at the first pair, which has been removed. A selected building that was removed is no longer selected. |
| App.SiteMapApp.UpdateBuildingColors | js/main.js:176-200 | Groups of the type are repainted in the catalogue colour, or in grey when unticked, keeping marker-coloured shapes. |
| App.SiteMapApp.ChooseBuildingType | js/main.js:205-215 | The chosen type is selected and mirrored into `appState`, and the status line is recomputed. |
| App.SiteMapApp.MouseDown | js/main.js:219-247 | Text mode asks for text and place mode places one building at the pointer. Area mode starts a band at the pointer, adding a zero-size rectangle. Otherwise nothing happens. |
| App.SiteMapApp.BeginBand | js/main.js:228-245 | The band is a zero-size rectangle at the pointer with a fresh identity, added on top. |
| App.SiteMapApp.MouseMove | js/main.js:298-316 | While a band is drawn it becomes the rectangle spanned by the start and the pointer, and its capacity is reported. Otherwise nothing changes. |
| App.SiteMapApp.MouseUp | js/main.js:318-336 | Drawing ends. A band larger than the minimum on both axes is filled by area placement. The band is removed either way. Without a selected type, or with an area too small for one footprint, the building counter and the identity counter stay as they were. The band is never selected, so the selection stays. |
| App.SiteMapApp.ObjectMoving | js/main.js:250-261 | In select mode a dragged building is snapped to the grid. Nothing else moves. |
| App.SiteMapApp.SpacingInput | js/main.js:269-296 | The slider's side is set and the other side is kept. While a band exists in area mode its capacity is reported again. |
| Utils.Removable | js/utils.js:41 | Defines the test of `deleteSelected` and `clearAll` (the same test at line 78): a building that is not the background image and not excluded from export. |
| Utils.KeptUnlessSelected | js/utils.js:39-44 | Defines which objects stay after `deleteSelected`: those not selected or not removable. Properties are in `Utils.DeletionKeepsNonBuildings`. |
| Utils.Kept | js/utils.js:76-82 | Defines which objects stay after `clearAll`: those not removable. |
| Utils.DeletionKeepsNonBuildings | js/utils.js:39-44 | Only removable buildings are ever deleted, and every selected one is. `clearAll` keeps exactly the non-removable objects. |
| Utils.DeleteStep | js/utils.js:39-44 | One more selected identity removes that object iff it is removable. |
| Utils.DeleteSelected | js/utils.js:31-52 | With nothing selected, nothing changes. Otherwise the selected removable buildings leave, everything else stays in order, and the selection is discarded. |
| Utils.DeleteOne | js/utils.js:39-44 | One loop turn handles one more selected identity. |
| Utils.ClearStep | js/utils.js:76-82 | Each visited object is removed iff it is removable, and the count rises with it. |
| Utils.ClearAll | js/utils.js:72-95 | If the user cancels, nothing changes. If confirmed, every removable building leaves, the rest keep their order, the count reported is the number removed, and the counter is reset. A selected building that left is no longer selected. |
| Utils.ClearOne | js/utils.js:76-82 | One visited object leaves exactly when it is removable, and the count follows. |
| Utils.JsRemainder | js/utils.js:59 | JavaScript's `%` has the sign of the dividend, below the modulus in size, with an integral quotient. |
| Utils.FloorRemainder | js/utils.js:59 | For non-negative x, the remainder after whole multiples of m lies in [0, m). |
| Utils.RotatedAngle | js/utils.js:59 | Defines `(angle + 90) % 360` with JavaScript's truncating remainder. Properties are in `Utils.QuarterTurn` and `Utils.FourQuarterTurns`. |
| Utils.ActiveObject | js/utils.js:57-58 | Defines `getActiveObject()`: the single selected object, or none for an empty or multiple selection. |
| Utils.QuarterTurn | js/utils.js:59 | From [0, 360) a quarter turn stays in [0, 360), wrapping at 360. |
| Utils.FourQuarterTurns | js/utils.js:59 | Four rotations restore the angle. |
| Utils.RotateSelected | js/utils.js:55-69 | The single active building turns a quarter. A non-building or a multiple selection changes nothing. |
| Utils.Exportable | js/utils.js:100-105 | Defines the export filter: not excluded, not the background image, not tagged `isBackground`, and a building. The PDF list uses the same test (lines 201-206). |
| Utils.RecordOf | js/utils.js:112-119 | Defines one JSON record: type, position divided by SCALE, angle, and `Math.round` of the position over GRID_SIZE. Properties are in `Utils.ExportOfGridPoint` and `Utils.ExportOfPlaced`. |
| Utils.ExportJson | js/utils.js:98-128 | Returns nothing iff no building is listed. Otherwise one record per exported building, in scene order, with metres, angle and grid indices. |
| Utils.ExportOfGridPoint | js/utils.js:117-118 | A building on grid point (kx, ky) is exported with grid indices (kx, ky). |
| Utils.ExportOfPlaced | js/utils.js:117-118 | A building placed by a click exports the grid indices of the point it snapped to. |
| Utils.Hidden | js/utils.js:156-161 | The scene with the listed lines made invisible; it keeps the length and the identities. |
| Utils.SavedFlag | js/utils.js:159 | Defines the saved flag: the line's `visible`, or false for a line not on the canvas. |
| Utils.SavedFlags | js/utils.js:156-161 | The flags saved for the listed lines, in order, one per line. |
| Utils.HiddenNone | js/utils.js:156-161 | Hiding no lines changes nothing. |
| Utils.HideStep | js/utils.js:156-161 | One more line is hidden, found as it was. |
| Utils.HideStepAt | js/utils.js:156-161 | `HideStep` for line i of the grid list. |
| Utils.FindSameUids | js/utils.js:156-174 | Hiding keeps each object at its index. |
| Utils.SavedFlagsSnoc | js/utils.js:156-161 | Each turn saves one more visibility flag. |
| Utils.RestoreStep | js/utils.js:172-174 | Restoring line i gives back its saved flag. |
| Utils.RestoreOne | js/utils.js:172-174 | Taking a line off the hidden list restores its saved flag. |
| Utils.RestoreFound | js/utils.js:172-174 | A line on the canvas gets back its saved `visible` flag. |
| Utils.RestoreAbsent | js/utils.js:172-174 | A line not on the canvas changes nothing. |
| Utils.PageSize | js/utils.js:145-153 | The page is landscape iff the canvas is wider than high. |
| Utils.FitImage | js/utils.js:178-195 | The image keeps the canvas's aspect ratio, is centred on the page and lies on it, and spans the page minus the margins along one axis. |
| Utils.FitWide | js/utils.js:182-186 | In the wide branch the image height stays below the page height and the ratio is kept. |
| Utils.FitTall | js/utils.js:187-191 | In the tall branch the image width stays below the page width and the ratio is kept. |
| Utils.FitInsideMargin | js/utils.js:178-195 | The 10 mm margin holds on every side when the page orientation matches the branch taken. |
| Utils.WideMargin | js/utils.js:182-186 | In the wide branch, a page at least as high as wide keeps the vertical margin. |
| Utils.TallMargin | js/utils.js:187-191 | In the tall branch, a page at least as wide as high keeps the horizontal margin. |
| Utils.ConfiguredCanvasFitsMargin | js/utils.js:145-195 | The configured 1200 × 850 canvas on landscape A4 keeps the margin on every side. |
| Utils.WideCanvasCrossesMargin | js/utils.js:178-195 | A 1200 × 845 canvas takes the wide branch and comes within 10 mm of the top edge. |
| Utils.Advance | js/utils.js:223-228 | Defines one step of `yPos`: 10 mm down, then a new page at 20 mm once past 20 mm above the bottom. |
| Utils.CursorAt | js/utils.js:215-228 | Defines where entry n is written: `Advance` applied n times from page 2, 40 mm. Properties are in `Utils.EntriesInsidePage` and `Utils.EntriesInOrder`. |
| Utils.EntryOf | js/utils.js:218-222 | Defines one list line: number, type, position over SCALE, angle, and where it is written. |
| Utils.ListEntries | js/utils.js:217-229 | The building list, one entry per listed building. Properties are in `Utils.ListEntriesAt`. |
| Utils.PageCount | js/utils.js:209-229 | Defines the number of pages: 1 for the image, plus the list pages, including the page added after an entry that ends a page. |
| Utils.EntriesInsidePage | js/utils.js:209-230 | On a page at least 60 mm high every entry is between 20 mm from the top and 20 mm from the bottom, on page 2 or later. |
| Utils.EntriesInOrder | js/utils.js:209-230 | Pages never go back. The next entry is 10 mm lower on the same page, or at 20 mm on the next page. |
| Utils.ListEntriesAt | js/utils.js:218-224 | Entry i is numbered i + 1 and gives building i's type, position in metres and angle. |
| Utils.ListEntriesSnoc | js/utils.js:216-229 | Listing one more building appends its entry. |
| Utils.ListBuildings | js/utils.js:209-230 | The pagination loop yields `PageCount` pages and exactly the `ListEntries` of the buildings. |
| Utils.ExportPdf | js/utils.js:131-248 | Without jsPDF nothing changes. If capture fails the lines stay hidden. Otherwise the scene is restored exactly, and the result holds the fitted image and the building list. |
| Utils.HideGridLines | js/utils.js:156-161 | Every grid line's flag is saved in order and the line is hidden. |
| Utils.RestoreGridLines | js/utils.js:172-174 | Each line gets back its saved flag, so the scene is exactly what it was before hiding. |

## Left out

- Rendering, the DOM (buttons, cursor, info panel, status text), `alert`, `confirm` and the console are left out. `confirm`'s answer is a parameter of `Utils.ClearAll`. Status texts are datatype constructors without their Japanese wording.
- Floating point is modelled as exact reals. `toFixed(2)`, the export timestamp and IEEE rounding of the fit and capacity formulas are not modelled.
- PDF input and output are left out: `FileReader`, pdf.js parsing and rendering, and the jsPDF document calls. Whether jsPDF is present, whether reading succeeds and whether `toDataURL` returns are boolean parameters. The page size at scale 1 is a parameter.
- Text placement (`mouse:down` in text mode) calls `placeText`, which is defined nowhere. `App.SiteMapApp.MouseDown` only reports the gesture.
- Paired placement is left out: the pair checkbox, and `createPairBuilding`, which js/building.js does not define. `App.SiteMapApp.UpdateExistingBuildings` stops at the first paired A/B building, as the missing function's TypeError would stop it.
- The brush, font and free-drawing settings, the pair and box-only checkboxes, and `init` wiring are not modelled. The colour checkboxes and the box-only switch call `UpdateBuildingColors` and `UpdateExistingBuildings`, which are modelled.
- The `object:modified` and `selection:*` handlers only call `maintainLayerOrder` or update the panel. `MaintainLayerOrder` is modelled. The panel is not.
- The `getConfig` fallback tables of js/main.js and js/canvas.js are not modelled. The model always uses js/config.js.
- The public API literal of js/canvas.js (lines 199-212) names `GRID_SIZE`, `SCALE` and `GRID_UNIT`, which are not bound in that file. Building it would throw a ReferenceError. The model exposes the operations directly.
- `getObjects()` returns a copy, so `updateExistingBuildings` iterates over a snapshot. The model iterates over the list as it was before the loop.
- `Scene.Canvas.SendToBack` of an object that is not on the canvas leaves the list unchanged. Fabric would insert the stale object again.
- Modes are an enumeration of the five mode names. `setMode` in JavaScript accepts any string. The empty-status branch of `getStatusMessage` cannot be reached with the enumeration, so `App.StatusFor` has no case for it.
- Building.SiteMapBuilding.SetSpacing: requires non-negative spacing, which js/building.js does not check. A spacing equal to minus a footprint size would divide by zero in `calculatePlacementCapacity`.
- App.SiteMapApp.SpacingInput: requires a non-negative slider value for the same reason. The sliders' range is not modelled.
- Utils.ExportPdf: leaves the grid lines hidden when `toDataURL` throws, as js/utils.js:131-248 does. It does not restore them unconditionally.
- The selection rectangle in `App.SiteMapApp` is held as an object value whose copy on the canvas `mouse:move` keeps in step. JavaScript holds a shared reference instead.
- Utils.RotateSelected: changes only `angle`. Fabric's `rotate` (js/utils.js:59) turns a group about its centre, because `centeredRotation` is on by default. The top-left origin (`left`, `top`) therefore also moves, and `exportJSON` and `exportPDF` report that moved position. The model does not move the origin, because that needs the sine and cosine of arbitrary angles, which exact reals cannot express.
- Scene.Canvas.Remove: clears a removed active object but does not fire `selection:cleared`. The `maintainLayerOrder` that the handler at js/main.js:347-349 would then run is not triggered by the removal. `App.SiteMapApp.MaintainLayerOrder` is the separate operation that the event stands for. `discardActiveObject` in `Utils.DeleteSelected` fires no event in the model either.
- The selection is a list of identities. A multiple selection (Fabric's `ActiveSelection`) is not cleared when one of its members is removed, and the model keeps it unchanged as well.
- CanvasLayer.SiteMapCanvas.LoadPdf: `loadPDF` awaits the file read, the PDF parse and the page render before the `fabric.Image.fromURL` callback runs. The method stands for the moment that callback runs, with the file check folded in. Events handled while the promises are pending are separate calls before it.
- Loop bodies are step methods (`ModeOne`, `RecolorOne`, `DeleteOne`, `ClearOne`, `ToggleOne`, `RedrawStep`), which the loops call once per turn.
