# BuildingGenerator mesh pipeline, modelled in Dafny

BuildingGenerator is a browser-based building editor. The page keeps a tile
grid per level, with walls, doors and roofs, and a web worker turns that
model into meshes. This project models the three parts that carry the
geometry and the protocol between them:

- **The mesh worker** (`compilemesh_ww.js`). A `RenderSegment` per level and
  one export segment for the whole building. Each segment holds
  `RenderComponent`s (floors, walls, roofs, physics; or "all" and physics in
  export mode). Each component holds one `RenderGroup` per material. A
  group's `render` draws the floors, wall faces, door strips and rims, roofs
  and physics surfaces of its material as triangles. `compile` flattens
  them into a position buffer and a texture-coordinate buffer. The message
  handler edits the model, resizes the groups, renders, and posts the
  buffers back in a fixed order.
- **The page's paint queue** (`3d.js`). Before every render command the page
  enqueues one `_PaintQueueItem` per mesh it expects. Each arriving buffer
  fills the head item, and a complete item leaves the queue. Buffers carry
  no tag, so this order is the whole protocol.
- **The editor tools' grid logic** (`tools3d.js`). Picking a tile, a grid
  corner and the nearest wall from a point on the ground plane. The straight
  run of walls a wall drag covers. The rectangle a tile or roof drag covers.
  Filling and deleting walls and tiles. Moving the level cursor.

The main proved results:

- Every group's buffers are exactly the specified triangles of its level,
  type and material, laid out vertex by vertex.
- The worker's posted buffers fill exactly the items the page enqueued for
  the same command, each item with its own group's buffers, without a throw.
  Afterwards the queue is back to what it was (`Agreement`).
- In export mode, `renderBuilding` as written breaks this agreement (see
  Findings). The corrected version restores it.

Module layout: `Wrappers`, `Protocol` (messages, buffer order), `Geometry`
(vertices, triangles, `square`, buffer layout), `BuildingModel` (what the
worker reads of the building), `TileDims` (`getTilePos`,
`getDrawDimsForTile`), `Faces` and `Roofs` (what each drawing callback
emits), `GroupSpec` (what a group draws), `RenderGroups`, `Segments`,
`MeshWorker`, `PaintQueue`, `Agreement`, `EditorTools`.

## Model

| member | source | states |
|---|---|---|
| Geometry.FlipInvolutive | public/scripts/compilemesh_ww.js:938-940 | `flip` keeps v1 and swaps v2 and v3, undoes itself, and changes the triangle unless v2 == v3 |
| Geometry.TwoWay | public/scripts/compilemesh_ww.js:758-761 | `twoWayTriangle` appends the triangle and then its flip |
| Geometry.TwoWayClosedAppend | public/scripts/compilemesh_ww.js:758-761 | concatenating lists made of two-way pairs gives a list made of two-way pairs |
| Geometry.TwoWayClosedEven | public/scripts/compilemesh_ww.js:758-761 | a list of two-way pairs has even length |
| Geometry.TwoWayClosedPairs | public/scripts/compilemesh_ww.js:758-761 | a list of two-way pairs has even length and every even-position triangle is followed by its flip |
| Geometry.SquareShape | public/scripts/compilemesh_ww.js:703-748 | `square` emits two triangles that share a vertex and a diagonal, with vertices at the rectangle's corners and texture coordinates equal to the position projected on the quad's plane (x/z when horizontal, x/y or z/y when upright) |
| Geometry.TrianglePositions | public/scripts/compilemesh_ww.js:648-665 | one triangle takes nine position entries |
| Geometry.Positions | public/scripts/compilemesh_ww.js:644-667 | the position buffer has 9 entries per triangle |
| Geometry.Uvs | public/scripts/compilemesh_ww.js:644-667 | the texture-coordinate buffer has 6 entries per triangle |
| Geometry.PositionsAt | public/scripts/compilemesh_ww.js:648-665 | entry 9i + j of the position buffer is entry j of triangle i |
| Geometry.UvsAt | public/scripts/compilemesh_ww.js:648-665 | entry 6i + j of the texture-coordinate buffer is entry j of triangle i |
| Geometry.PositionsAppend | public/scripts/compilemesh_ww.js:644-667 | compiling a concatenation concatenates both buffers, keeping list order |
| TileDims.TimesIsProduct | public/scripts/compilemesh_ww.js:763-776 | repeated addition of the pitch equals the product used for grid positions |
| TileDims.GridOffsetIsProduct | public/scripts/compilemesh_ww.js:763-776 | the grid offset is `(i - w/2) * pitch` |
| TileDims.TilePosPitch | public/scripts/compilemesh_ww.js:763-776 | `getTilePos` places neighbouring tiles one pitch (tile size plus wall thickness) apart |
| TileDims.DimsFor | public/scripts/compilemesh_ww.js:782-861 | `getDrawDimsForTile` keeps the tile, uses `getTilePos` for the corner, and has a door record for a wall exactly when that wall has a door |
| TileDims.DimsStitch | public/scripts/compilemesh_ww.js:803-820 | a tile's edge and outer wall coordinates meet its east neighbour's, so runs have no gaps |
| TileDims.PortalFlagsAsWritten | public/scripts/compilemesh_ww.js:832-856 | a door never has a bottom strip but always has top and side strips; the top wall's `hasWest`/`hasEast`, read from never-assigned fields, are always true and agree with comparing the door edges to the wall edges |
| BuildingModel.Runs | public/scripts/compilemesh_ww.js:308-310 | a level without the box collection has no runs; otherwise the runs are the ones stored for the material |
| BuildingModel.SetPortal | public/scripts/compilemesh_ww.js:1158-1167 | `setdoor` sets the door flag of exactly one wall of the grid and changes nothing else; the runs and door walls, which refer to grid tiles by position, reach the edited wall; a missing level, tile or wall throws |
| BuildingModel.SetPortalUnchanged | public/scripts/compilemesh_ww.js:1158-1167 | setting a door flag to its current value leaves the building unchanged |
| BuildingModel.SameWallsFit | public/scripts/compilemesh_ww.js:439-487 | whether a level's roofs fit depends only on its roofs and where its walls are |
| BuildingModel.SetPortalWellFormed | public/scripts/compilemesh_ww.js:1158-1167 | setting a door keeps a renderable model renderable |
| BuildingModel.WellFormedSlope | public/scripts/compilemesh_ww.js:400-420 | a renderable model has a non-zero roof slope, which `drawRoof` divides by |
| Faces.PieceTriangles | public/scripts/compilemesh_ww.js:703-761 | every drawing call appends two triangles; a two-sided one appends the triangle and its flip |
| Faces.EmittedLength | public/scripts/compilemesh_ww.js:308-318 | a list of drawing calls appends two triangles per call |
| Faces.EmittedAppend | public/scripts/compilemesh_ww.js:308-318 | drawing two call lists one after the other appends their triangles in order |
| Faces.EmittedTwoSided | public/scripts/compilemesh_ww.js:758-761 | two-sided calls alone leave every triangle followed by its flip |
| Faces.When | public/scripts/compilemesh_ww.js:332-339 | a guarded drawing call draws once when its guard holds and not at all otherwise |
| Faces.RunPieceCount | public/scripts/compilemesh_ww.js:177-394 | a run draws one quad, except a wall face at a door, which draws three strips (lintel and two jambs, never a sill) |
| Faces.PortalRimOnce | public/scripts/compilemesh_ww.js:255-273 | a door's rim is drawn in exactly one material's group, as three quads, and nowhere else |
| Faces.DoorShowsInWallFace | public/scripts/compilemesh_ww.js:327-339 | after `setdoor`, a face run starting at the edited tile reads the new flag through its tile: three strips with a door, one whole quad without |
| Faces.DoorShowsInRim | public/scripts/compilemesh_ww.js:255-273 | after `setdoor`, a listed door wall on the edited side of the tile has its rim drawn exactly when the door was set |
| Roofs.Peak | public/scripts/compilemesh_ww.js:420-422 | the peak is the full hip height capped by the maximum roof height |
| Roofs.PlanFrom | public/scripts/compilemesh_ww.js:400-431 | the roof plan keeps the inner rectangle and the open-edge flags, rises at the slope over the shorter span, and is capped by the maximum height |
| Roofs.PlanRoof | public/scripts/compilemesh_ww.js:400-487 | a slope is drawn on a side exactly when some wall along that side is not filled; the heights are as `PlanFrom` states |
| Roofs.BlockedEdgeIsFlush | public/scripts/compilemesh_ww.js:400-487 | a side that is not drawn keeps its eave on the inner line |
| Roofs.WestSlope | public/scripts/compilemesh_ww.js:495-508 | nothing unless the west edge is open; then two two-sided pieces, or one when the top's west edge has shrunk to a point |
| Roofs.EastSlope | public/scripts/compilemesh_ww.js:510-523 | the same for the east edge |
| Roofs.NorthSlope | public/scripts/compilemesh_ww.js:525-538 | the same for the north edge, whose top edge runs along x |
| Roofs.SouthSlope | public/scripts/compilemesh_ww.js:540-553 | the same for the south edge |
| Roofs.FlatTop | public/scripts/compilemesh_ww.js:555-574 | the flat top is two two-sided pieces at the peak height when the top rectangle has extent in x or z, else nothing |
| Roofs.PhysicsRoofIsTwoSided | public/scripts/compilemesh_ww.js:576-634 | the physics roof is the textured roof without its trim, and is made only of two-way pairs |
| Roofs.TrimIffSomeSide | public/scripts/compilemesh_ww.js:576-634 | the trim is drawn exactly when some slope is |
| Roofs.EnclosedRoofIsLid | public/scripts/compilemesh_ww.js:400-634 | a roof fully enclosed by filled walls is a flat lid over the inner rectangle at the peak height, with no slopes and no trim |
| Roofs.CappedRoofKeepsTop | public/scripts/compilemesh_ww.js:420-574 | with all sides open, a roof capped by the maximum height at a slope of at most one half keeps a flat top |
| Roofs.CappedSlopesDoNotMeet | public/scripts/compilemesh_ww.js:424-427 | capped slopes stop before they meet |
| GroupSpec.AllIsFloorsWallsRoofs | public/scripts/compilemesh_ww.js:177-282 | the export component draws each level's floors, then walls, then roofs |
| GroupSpec.Range | public/scripts/compilemesh_ww.js:171 | the levels 0..n-1 in ascending order |
| GroupSpec.LevelsToRender | public/scripts/compilemesh_ww.js:170-172 | an export group renders every level in order, any other group only its own |
| GroupSpec.GroupOutput | public/scripts/compilemesh_ww.js:644-667 | a group's output has its category and material and 9 and 6 buffer entries per triangle |
| GroupSpec.ComponentOutputs | public/scripts/compilemesh_ww.js:1225-1230 | a component with n groups outputs n groups |
| RenderGroups.FindOpenTop | public/scripts/compilemesh_ww.js:443-448 | the north and south blocking loops find an unfilled top wall along the edge exactly when there is one |
| RenderGroups.FindOpenLeft | public/scripts/compilemesh_ww.js:466-471 | the west and east blocking loops find an unfilled left wall along the edge exactly when there is one |
| RenderGroups.RenderGroup.constructor | public/scripts/compilemesh_ww.js:145-161 | a new group has its level, type and material, no triangles and no compiled buffers |
| RenderGroups.RenderGroup.Reset | public/scripts/compilemesh_ww.js:637-643 | `reset` empties the triangles and keeps the compiled buffers |
| RenderGroups.RenderGroup.AddTriangle | public/scripts/compilemesh_ww.js:750-752 | `triangle` appends one triangle |
| RenderGroups.RenderGroup.TwoWayTriangle | public/scripts/compilemesh_ww.js:758-761 | `twoWayTriangle` appends the triangle and its flip |
| RenderGroups.RenderGroup.Square | public/scripts/compilemesh_ww.js:703-748 | `square` appends the two triangles of `Geometry.Square` |
| RenderGroups.RenderGroup.CycleCollection | public/scripts/compilemesh_ww.js:308-318 | `cycleCollection` draws, run by run, what the callback returns for the dimensions of the run's first and last tiles; a missing material draws nothing |
| RenderGroups.RenderGroup.RenderWallFacesAndPortals | public/scripts/compilemesh_ww.js:320-394 | the south, north, west and east wall faces, textured or physics, with the strips around doors |
| RenderGroups.RenderGroup.DrawRoof | public/scripts/compilemesh_ww.js:400-635 | `drawRoof` appends the roof's specified triangles: slopes on open sides, the flat top and, unless physics, the trim |
| RenderGroups.RenderGroup.RenderFloors | public/scripts/compilemesh_ww.js:177-207 | the six floor collections in order |
| RenderGroups.RenderGroup.RenderWallEdges | public/scripts/compilemesh_ww.js:215-253 | the eight wall edge and cap collections in order |
| RenderGroups.RenderGroup.RenderPortalRims | public/scripts/compilemesh_ww.js:255-273 | the rims of the level's door walls whose rim material is this group's |
| RenderGroups.RenderGroup.RenderRoofs | public/scripts/compilemesh_ww.js:276-282 | the roofs of this group's material, or every roof without trim for physics |
| RenderGroups.RenderGroup.RenderWalls | public/scripts/compilemesh_ww.js:210-274 | wall faces, then edges and caps, then door rims |
| RenderGroups.RenderGroup.RenderPhysics | public/scripts/compilemesh_ww.js:284-302 | physics floor tops and bottoms, physics wall faces, then every roof without trim |
| RenderGroups.RenderGroup.RenderLevel | public/scripts/compilemesh_ww.js:175-303 | one level draws what the component type calls for, in the order floors, walls, roofs, physics |
| RenderGroups.RenderGroup.Compile | public/scripts/compilemesh_ww.js:644-667 | `compile` writes every triangle's positions and texture coordinates into fresh buffers, in list order |
| RenderGroups.RenderGroup.Render | public/scripts/compilemesh_ww.js:167-306 | after `render` the group holds exactly the specified triangles of its levels, type and material, and both buffers are their compiled form |
| RenderGroups.WriteTriangle | public/scripts/compilemesh_ww.js:648-665 | one iteration of the compile loop writes triangle i's entries and keeps the ones before |
| RenderGroups.CompiledPositions | public/scripts/compilemesh_ww.js:649-663 | triangle i fills position entries 9i..9i+8 with x, y, z of v1, v2, v3 |
| RenderGroups.CompiledUvs | public/scripts/compilemesh_ww.js:652-665 | triangle i fills texture entries 6i..6i+5 with u, v of v1, v2, v3 |
| Segments.RenderedOutput | public/scripts/compilemesh_ww.js:1225-1230 | a rendered group posts exactly the specified buffers of its level, type and material |
| Segments.SyncedFromInSync | public/scripts/compilemesh_ww.js:90-97 | from a count in step with the groups, `setGroups` to a non-negative count leaves that many groups |
| Segments.NegativeCountOvershoots | public/scripts/compilemesh_ww.js:83-97 | after `setGroups(-1)` the groups are empty but the count is -1, so `setGroups(2)` then leaves three groups |
| Segments.RenderComponent.constructor | public/scripts/compilemesh_ww.js:104-118 | a physics component starts with one group, any other with none |
| Segments.RenderComponent.AddGroup | public/scripts/compilemesh_ww.js:126-128 | appends an empty group for the next material number, keeping the others |
| Segments.RenderComponent.RemoveGroup | public/scripts/compilemesh_ww.js:130-132 | drops the last group; an empty list stays empty |
| Segments.RenderComponent.Render | public/scripts/compilemesh_ww.js:120-124 | every group is rendered |
| Segments.RenderSegment.constructor | public/scripts/compilemesh_ww.js:36-68 | the components follow the mode's order, share the level, and the count starts at 0 in step with the groups |
| Segments.RenderSegment.GrowComponent | public/scripts/compilemesh_ww.js:77-79 | one step of the `addGroup` loop: component k gains a group unless it is physics |
| Segments.RenderSegment.ShrinkComponent | public/scripts/compilemesh_ww.js:84-86 | one step of the `removeGroup` loop: component k loses a group, if it has one, unless it is physics |
| Segments.RenderSegment.AddGroup | public/scripts/compilemesh_ww.js:76-81 | every material component gains a group and the count goes up by one |
| Segments.RenderSegment.RemoveGroup | public/scripts/compilemesh_ww.js:83-88 | every material component loses a group, if it has one, and the count goes down by one |
| Segments.RenderSegment.SetGroups | public/scripts/compilemesh_ww.js:90-97 | the count ends at the requested value and the group count moves as `SyncedLength` gives |
| Segments.RenderSegment.Render | public/scripts/compilemesh_ww.js:70-74 | every group of every component is rendered |
| Protocol.Categories | public/scripts/compilemesh_ww.js:53-68 | the component order: physics last and only last, no repeats, "all" exactly in export mode |
| Protocol.GroupCount | public/scripts/compilemesh_ww.js:90-132 | a physics component has one group, any other the count (none for a negative count) |
| Protocol.EmitGroup | public/scripts/compilemesh_ww.js:1225-1230 | a group posts its vertices, then its texture coordinates unless physics |
| Protocol.EmitLength | public/scripts/compilemesh_ww.js:1225-1230 | the number of posted buffers is two per non-physics group and one per physics group |
| Protocol.EmitAppend | public/scripts/compilemesh_ww.js:1225-1230 | posting two group lists in turn posts their buffers in order |
| MeshWorker.PostComponent | public/scripts/compilemesh_ww.js:1226-1229 | the inner postback loop posts each group's buffers in material order |
| MeshWorker.PostSegment | public/scripts/compilemesh_ww.js:1224-1230 | the postback loop posts every component's groups in component order |
| MeshWorker.RenderAndPost | public/scripts/compilemesh_ww.js:1222-1230 | render the segment, then post exactly its specified buffers |
| MeshWorker.CreateSegment | public/scripts/compilemesh_ww.js:1203-1205 | a new segment for the level, set to the group count |
| MeshWorker.ComponentOutputsSnoc | public/scripts/compilemesh_ww.js:1226-1229 | one more group adds its buffers at the end |
| MeshWorker.SegmentOutputsSnoc | public/scripts/compilemesh_ww.js:1224-1230 | one more component adds its buffers at the end |
| MeshWorker.EditorSegmentsSnoc | public/scripts/compilemesh_ww.js:1203-1207 | appending the next level's segment keeps the segment list valid |
| MeshWorker.SegmentLengths | public/scripts/compilemesh_ww.js:1122-1129 | each segment's group count, in list order |
| MeshWorker.SyncSegment | public/scripts/compilemesh_ww.js:1125-1127 | one step of the `setgroups` loop resizes segment i and no other |
| MeshWorker.SegmentsApart | public/scripts/compilemesh_ww.js:1125-1127 | editor segments share neither themselves nor components |
| MeshWorker.SyncSegments | public/scripts/compilemesh_ww.js:1125-1127 | the loop resizes every editor segment in turn |
| MeshWorker.StartResizing | public/scripts/compilemesh_ww.js:1122-1129 | before the loop no segment is resized |
| MeshWorker.ResizedSegmentsOk | public/scripts/compilemesh_ww.js:1122-1129 | after the loop every segment counts the new value and holds `SyncedLength` groups |
| MeshWorker.ExportApart | public/scripts/compilemesh_ww.js:1238-1243 | the export segment and its components are none of the editor segments' |
| MeshWorker.SetAllGroups | public/scripts/compilemesh_ww.js:1122-1129 | `setgroups` resizes the export segment and every editor segment to the new count |
| MeshWorker.NextModel | public/scripts/compilemesh_ww.js:1093-1192 | the model after a message: unchanged by non-editing messages, a level edit only when the level exists, `setdoor` as `SetPortal` |
| MeshWorker.SameDoorKeepsModel | public/scripts/compilemesh_ww.js:1158-1167 | re-setting a door flag to its value keeps the model |
| MeshWorker.Worker.constructor | public/scripts/compilemesh_ww.js:1238-1244 | the worker starts with its model, an empty export segment, no editor segments and group count 0 |
| MeshWorker.Worker.WorkerApart | public/scripts/compilemesh_ww.js:1238-1244 | the worker is none of its segments or components |
| MeshWorker.Worker.LevelsRendered | public/scripts/compilemesh_ww.js:1110-1113 | `renderall` renders levels up to the first one without a segment, where it throws |
| MeshWorker.Worker.Kept | public/scripts/compilemesh_ww.js:1238-1244 | validity and group counts depend only on the worker, its segments and their components |
| MeshWorker.Worker.SegmentOfLevel | public/scripts/compilemesh_ww.js:1209-1220 | a renderable level's segment is valid, has that level and fits the model |
| MeshWorker.Worker.SegmentGroupsApart | public/scripts/compilemesh_ww.js:1222 | rendering a segment changes only its groups |
| MeshWorker.Worker.AddLevel | public/scripts/compilemesh_ww.js:1203-1207 | `addLevel` appends a segment for the next level index, set to the group count, keeping the others |
| MeshWorker.Worker.SetGroupCount | public/scripts/compilemesh_ww.js:1122-1129 | stores the count and resizes every segment to it |
| MeshWorker.Worker.RenderLevel | public/scripts/compilemesh_ww.js:1209-1232 | `renderLevel` posts exactly its segment's specified buffers; a level the model or the segment list lacks throws before posting |
| MeshWorker.Worker.RenderAll | public/scripts/compilemesh_ww.js:1105-1116 | `renderall` posts the export segment's buffers in export mode, else every level's in turn up to the first level without a segment |
| MeshWorker.Worker.RenderLevels | public/scripts/compilemesh_ww.js:1110-1113 | the level loop posts levels 0..n-1 in order |
| MeshWorker.Worker.LoadModel | public/scripts/compilemesh_ww.js:1093-1099 | `loadfile` replaces the model and makes one new segment per level, each set to the group count |
| MeshWorker.Worker.ClearModel | public/scripts/compilemesh_ww.js:1100-1104 | `clearbuilding` replaces the model and drops the editor segments, so only level -1 renders |
| MeshWorker.Worker.SetModel | public/scripts/compilemesh_ww.js:1130-1187 | storing an edited model leaves the segments as they are |
| MeshWorker.Worker.EditLevel | public/scripts/compilemesh_ww.js:1130-1187 | a level edit stores the new model and posts the level's buffers |
| MeshWorker.Worker.HandleMessage | public/scripts/compilemesh_ww.js:1087-1201 | the message handler's new model, group count, segments and posted buffers for each command |
| PaintQueue.NewItem | public/scripts/3d.js:16-29 | a new `_PaintQueueItem` has no buffers |
| PaintQueue.Items | public/scripts/3d.js:205-213 | one loop of `_prepareForLevelRender`: m items of one tag, material i at position i |
| PaintQueue.ExpectedShape | public/scripts/3d.js:196-217 | `_prepareForLevelRender` enqueues m `building` items and one `exportphysics` item in export mode, else m `floors`, m `walls` and m `roofs` items and one `physics` item, by ascending material, with the physics item last and only last |
| PaintQueue.BuildingExpected | public/scripts/3d.js:623-628 | the intended `renderBuilding` expects the export segment's m + 1 items once, or every level's items in edit mode |
| PaintQueue.QueueBuffersAppend | public/scripts/3d.js:234-242 | the buffers a queue takes add up over concatenation |
| PaintQueue.ItemsBuffers | public/scripts/3d.js:234-242 | m physics items take m buffers, m other items 2m |
| PaintQueue.ExpectedBuffers | public/scripts/3d.js:196-242 | one level's items take 6m + 1 buffers in edit mode and 2m + 1 in export mode |
| PaintQueue.Fill | public/scripts/3d.js:234-237 | the first buffer becomes the head's vertices, the second its uvs, a third is refused |
| PaintQueue.Receive | public/scripts/3d.js:234-242 | `processData` throws on an empty queue or a saturated head and changes nothing then; otherwise a new item leaves after one buffer if physics and after two if not, and the rest of the queue is untouched |
| PaintQueue.FeedAppend | public/scripts/3d.js:234-242 | feeding buffers in two runs is feeding them in one |
| PaintQueue.FeedThen | public/scripts/3d.js:234-242 | two runs of buffers that each go through without a throw, the second from where the first left the queue, go through together |
| PaintQueue.FeedTwo | public/scripts/3d.js:234-242 | a new non-physics item at the head takes vertices then uvs and leaves |
| PaintQueue.FeedOne | public/scripts/3d.js:234-242 | a new physics item at the head takes one buffer and leaves |
| PaintQueue.Renderer.constructor | public/scripts/3d.js:34-67 | the renderer starts with no materials, no loaded textures, an empty queue and no scene libraries |
| PaintQueue.Renderer.AddMaterial | public/scripts/3d.js:82-85 | `addMaterial` gives the material the next index and appends it to the material list and the texture load queue |
| PaintQueue.Renderer.TextureSettled | public/scripts/3d.js:150-156 | a settled texture load adds one entry to `allThreeMaterials` |
| PaintQueue.Renderer.EnqueueItems | public/scripts/3d.js:205-213 | one loop of `_prepareForLevelRender` appends `Items` |
| PaintQueue.Renderer.PrepareForLevelRender | public/scripts/3d.js:196-217 | appends exactly the level's expected items for the current material count |
| PaintQueue.Renderer.ProcessData | public/scripts/3d.js:234-242 | the queue logic of `processData`, as `Receive` states |
| PaintQueue.Renderer.RenderBuildingAsWritten | public/scripts/3d.js:623-628 | as written, `renderBuilding` enqueues every level's items in both modes, then posts `renderall` |
| PaintQueue.Renderer.RenderBuilding | public/scripts/3d.js:623-628 | corrected: the export segment's items once in export mode, every level's in edit mode, then `renderall` |
| PaintQueue.Renderer.RenderLevel | public/scripts/3d.js:630-634 | the level's items, then `renderlevel` |
| PaintQueue.Renderer.SetFloor | public/scripts/3d.js:637-640 | the level's items, then `drawtiles` with the same arguments |
| PaintQueue.Renderer.SetDoor | public/scripts/3d.js:642-645 | the level's items, then `setdoor` |
| PaintQueue.Renderer.SetWall | public/scripts/3d.js:647-650 | the level's items, then `drawwalls` |
| PaintQueue.Renderer.AddRoof | public/scripts/3d.js:652-655 | the level's items, then `addroof` |
| PaintQueue.Renderer.RemoveRoof | public/scripts/3d.js:657-660 | the level's items, then `removeroof` |
| PaintQueue.Renderer.AddLevel | public/scripts/3d.js:662-665 | one more scene library, then `addlevel`, with nothing enqueued |
| Agreement.TagFor | public/scripts/3d.js:196-217 | the item tag for a worker component: a physics tag exactly for the physics component |
| Agreement.FeedMatched | public/scripts/compilemesh_ww.js:1224-1230 | items matched to groups take exactly those groups' buffers without a throw and leave the rest of the queue alone |
| Agreement.MatchedAppend | public/scripts/3d.js:196-217 | matching is preserved by concatenation |
| Agreement.ComponentOutputsAt | public/scripts/compilemesh_ww.js:1226-1229 | group j of a component has its category and material j |
| Agreement.ComponentMatched | public/scripts/3d.js:205-216 | one tag's items match the corresponding component's groups |
| Agreement.EditOutputs | public/scripts/compilemesh_ww.js:53-68 | a level segment posts its floors, walls, roofs and physics components in that order |
| Agreement.ExportOutputs | public/scripts/compilemesh_ww.js:53-68 | the export segment posts its merged component, then physics |
| Agreement.LevelAgreement | public/scripts/compilemesh_ww.js:1209-1232 | a level render's 6m + 1 buffers fill exactly the level's items, each with its own group's buffers |
| Agreement.MatchedBuffers | public/scripts/3d.js:234-242 | matched items take as many buffers as their groups post |
| Agreement.ExportAgreement | public/scripts/compilemesh_ww.js:1105-1109 | the export segment's 2m + 1 buffers fill exactly one set of export items |
| Agreement.AllLevelsAgreement | public/scripts/compilemesh_ww.js:1110-1113 | the buffers of an edit-mode `renderall` over n levels fill the n levels' items without a throw, and the queue is left as it was |
| Agreement.NextLevelAgreement | public/scripts/compilemesh_ww.js:1110-1113 | once the earlier levels' buffers have gone through, the next level's buffers fill its items and the queue is back to what follows them |
| Agreement.AllLevelsFront | public/scripts/3d.js:623-628 | as written, the first m + 1 items of an export `renderBuilding` are level 0's, and there are n sets of them |
| Agreement.ExportAsWrittenLeavesItems | public/scripts/3d.js:623-628 | as written, an export render over n levels leaves (n - 1)(m + 1) items waiting |
| Agreement.ExportTwoLevelsOneMaterial | public/scripts/3d.js:623-628 | with two levels and one material, level 1's `building` and `exportphysics` items are left waiting |
| Agreement.RenderAllAgreement | public/scripts/compilemesh_ww.js:1105-1116 | the corrected `renderBuilding` and `renderall` agree in both modes: every buffer fills its item and the queue is back to what it was |
| Agreement.LevelOutputAgreement | public/scripts/compilemesh_ww.js:1117-1187 | `renderlevel` and the five level edits fill exactly the items the page enqueued for that level |
| EditorTools.CentreOffset | public/scripts/tools3d.js:556-557 | the offset from the tile centre lies in [-0.5, 0.5); it is negative exactly when the nearest grid line is the tile's own near edge |
| EditorTools.GetTileFromPt | public/scripts/tools3d.js:538-588 | no point gives no tile; the tile is clamped to the grid, the corner is clamped from above only; the nearest wall is a top or bottom wall exactly when the point is nearer a horizontal grid line than a vertical one, and top (left) exactly when that line is the tile's own top (left) edge or line 0 |
| EditorTools.DragRect | public/scripts/tools3d.js:257-261 | the drag rectangle has ordered corners spanned by the drop tile and the drag start, or is the drop tile alone |
| EditorTools.DragRectSymmetric | public/scripts/tools3d.js:257-261 | dragging from either end gives the same rectangle |
| EditorTools.WallWalk | public/scripts/tools3d.js:293-315 | the wall walk snaps to the axis the drag spans more of (vertical on a tie), starts on the start corner's row or column at the smaller coordinate, and covers the whole span |
| EditorTools.WalkCount | public/scripts/tools3d.js:316-320 | the walk keeps every step up to the first one whose moving coordinate leaves 0..TILES_H, and no more than the span |
| EditorTools.GetLinearWallsBetweenPts | public/scripts/tools3d.js:293-329 | the walls of the kept steps in walk order, left walls on a vertical walk and top walls on a horizontal one; it throws when a step reads a tile off the grid |
| EditorTools.AfterDelete | public/scripts/tools3d.js:590-597 | a deleted filled wall is unfilled with no door or window and keeps its materials; an unfilled wall is unchanged |
| EditorTools.AfterFill | public/scripts/tools3d.js:598-605 | a filled-in wall is filled with the default material on both sides, keeping door and window; a filled wall is unchanged |
| EditorTools.EditsIdempotent | public/scripts/tools3d.js:590-605 | deleting twice is deleting once, and so is filling |
| EditorTools.DeleteThenFill | public/scripts/tools3d.js:590-605 | a wall deleted and filled again has the default material on both sides; a filled wall loses its door and window, an unfilled one keeps them |
| EditorTools.DeleteWall | public/scripts/tools3d.js:590-597 | `deleteWall` in place, as `AfterDelete` states |
| EditorTools.FillWall | public/scripts/tools3d.js:598-605 | `fillWall` in place, as `AfterFill` states |
| EditorTools.DeleteTile | public/scripts/tools3d.js:607 | `deleteTile` only clears the fill flag |
| EditorTools.FillTile | public/scripts/tools3d.js:608-612 | `fillTile` fills the tile with the default floor and ceiling materials |
| EditorTools.Tools.constructor | public/scripts/tools3d.js:241 | the cursor starts on level 0 of a building with at least one level, with no drag under way |
| EditorTools.Tools.LevelUp | public/scripts/tools3d.js:504-514 | the cursor moves up one level; reaching the level count adds a level, so the cursor always names a level; the level left and the level reached are re-rendered, in that order |
| EditorTools.Tools.LevelDown | public/scripts/tools3d.js:516-525 | above level 0 the cursor moves down and both levels are re-rendered; on level 0 nothing happens |
| EditorTools.Tools.FillTileArea | public/scripts/tools3d.js:256-266 | a drop on a tile sends `drawtiles` for the ordered drag rectangle on the current level, filling unless in delete mode, with the default floor and ceiling materials and the room tool's wall material or -1; no tile, no command |
| EditorTools.Tools.FillRoofArea | public/scripts/tools3d.js:268-280 | a drop on a tile sends `addroof` for the ordered drag rectangle with the default roof material; no tile, no command |

## Left out

- `Building.js` is not part of this model. The worker's commands take the building as `Building.js` leaves it (`loadJson`, `new Building()`, `addLevel`, `paintTiles`, `paintWalls`, `addRoof`, `removeRoof`) as a parameter, or `None` when that call throws. `updateBoxes` is assumed to have filled the box collections the model reads.
- BuildingModel.Run and BuildingModel.PortalWall refer to their tiles by grid position, as the source's runs and door walls hold references to the live tile objects. A position off the grid stands for a tile there without walls; the runs `Building.js` builds always refer to grid tiles.
- MeshWorker.Worker.RenderLevel: a level holds one set of box collections, as `updateBoxes` last left them. The source recomputes them before every render, with `updateBoxes(true)` for the export segment (compilemesh_ww.js:1213) and `updateBoxes(false)` for an editor segment (compilemesh_ww.js:1218). What the two calls compute is decided in `Building.js`, and the model does not tell export collections from editor ones.
- MeshWorker.Worker.HandleMessage requires the model and every edited model to be well formed (`BuildingModel.WellFormed`): a non-zero roof slope, and roofs with ordered corners whose rows y1 and y2 + 1 and columns x1 and x2 + 1 have the tiles and walls the blocking loops read. These are assumptions about what `Building.js` produces. For other inputs the model promises nothing: in the source a zero slope gives infinite or NaN coordinates without a throw, unordered corners make the blocking loops read no wall, and a missing tile or wall throws a TypeError before anything is posted.
- RenderGroups.RenderGroup.DrawRoof and RenderGroups.RenderGroup.Render carry the same assumptions: a non-zero roof slope and roofs that fit the level's grid (`BuildingModel.RoofFits`).
- EditorTools.Wall.constructor and EditorTools.Tile.constructor stand in for the wall and tile objects `Building.js` makes: they take every field as given and model no source lines.
- `TILES_H` and `TILES_V` are globals defined outside the modelled files. The tools take them as parameters.
- `draw3d.js` and the worker's legacy functions (`disposeAll`, `clearFaces`, `drawWall`, `addVertex`, `join`, `getWallDrawSpecs`) are not used by the mesh pipeline and are left out.
- The `minx`/`miny`/`maxx`/`maxy` bookkeeping in `square` is left out: nothing in the pipeline reads it.
- Float32 rounding of the posted buffers is not modelled. Buffers are sequences of reals.
- Message passing is modelled as synchronous. The worker's buffers, in posting order, are fed to the page's queue logic.
- The group's back pointer to its component is dropped. A group's component type always equals its component's.
- `console` logging, Three.js meshes and scenes, physics bodies, jQuery UI, and `wall.undraw()` are left out.
- PaintQueue.Renderer.ProcessData: only the queue logic (3d.js:224-242) is modelled. The scene update after the shift is left out.
- PaintQueue.Feed stops at the first throw. In the page a throw leaves the queue unchanged and the next buffer is processed normally. The agreement lemmas prove that no throw happens, so this does not weaken them.
- PaintQueue.Renderer.AddMaterial: the default-material settings and the material chooser UI it updates are left out.
- The material count the page enqueues for is `allThreeMaterials.length`, the number of settled texture loads (`loadedMaterials`). The agreement lemmas assume the worker's segments hold that many groups per material component. Keeping the two in step is the page's `setgroups` traffic, which is not modelled.
- `loadfile` parsing (`JSON.parse`) is left out. The worker takes the parsed building.
- A message that is not an array makes the worker throw. It is left out: messages are typed.
- An unknown command is logged and ignored (`Unknown`).
- Faces.PortalPieces: a wall listed among a level's door walls whose tile carries no door draws nothing. In the source, reading that tile's missing door record throws.
- EditorTools.GetTileFromPt: JavaScript `NaN` coordinates are not modelled. Points are reals.
- EditorTools.GetLinearWallsBetweenPts returns the wall objects of a grid passed in. The level lookup `model.levels[mLevelCursor]` is left out.
- The tools' event handlers (pointer down, move and up), the cursor meshes, and `settings.floorheight` are left out.
- The `removeRoof` tool is left out. It sends `removeroof` for the tile under the pointer with no normalisation.
- `loadFile` and the camera switches are left out.

## Findings

| source | as written | input that shows it | evidently intended | confidence | as-written member | corrected member |
|---|---|---|---|---|---|---|
| public/scripts/3d.js:623-628 | `renderBuilding(true)` calls `_prepareForLevelRender(true, i)` for every level `i`, enqueuing m + 1 export items per level. The worker's `renderall` in export mode renders the single export segment once and posts 2m + 1 buffers (compilemesh_ww.js:1107-1108). | A building with two levels and one loaded material: after the export render, level 1's `building` and `exportphysics` items are still queued, so the next render's buffers fill the wrong items. | Enqueue the export segment's items once (level -1), as the worker posts them once. | not executed | Agreement.ExportTwoLevelsOneMaterial | PaintQueue.Renderer.RenderBuilding |
