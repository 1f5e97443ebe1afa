# EduRaycaster in Dafny

This project models EduRaycaster, a small MonoGame program for teaching how a grid raycaster works. The player stands on a tile map. Each frame, a ray is marched cell by cell with the DDA algorithm until it enters a wall. Every intermediate step can be overlaid on the map as coloured debug marks. The repository has two snapshots of the game, and both are modelled:

- `Raycaster.cs` is the later snapshot. It uses a 10 x 10 map with 64-pixel cells and six display modes. It casts one ray per screen column across a camera plane. For each column it stores a wall height, computed as the screen height divided by the column's `perpWallDist`.
- `Game1.cs` is the earlier snapshot. It uses a 20 x 20 map with 32-pixel cells and four display modes. It casts a single ray along the view direction.
- `DebugDrawer.cs` is the line batcher that draws the overlay. It queues line segments in fixed arrays of 4000 vertices and 4000 `ushort` indices, and submits the queued batch first whenever a segment would overflow the vertex buffer or bring the index count to 4000. Because the index test is `>=`, it flushes even when the last two index slots would still hold a segment.

The Dafny modules:

- `Dda` (dda.dfy) is shared by both snapshots.
  - It defines the flat row-major map and the ray.
  - The march itself is the recursive function `Trace`, which ends at the first solid cell.
  - The per-step debug marks are built by `TraceOverlay`.
  - The loop the source runs is the method `March`, with the set-up in `SetUp`. Both are proved against `Trace`.
- `Input` (input.dfy) covers the keyboard:
  - the Tab edge;
  - the WASD move, where opposite keys cancel;
  - the Q/E turn, where Q wins;
  - the C# truncating division that turns a pixel position into a map cell.
- `DebugInfo` (debug_info.dfy) is the key/value table shown as text: `Display` either overwrites a key or appends it.
- `RaycasterApp` (raycaster.dfy) holds the display modes and their flags, the frame and column overlays, the wall heights, the loaded map and the class `Raycaster`.
  - `Raycaster`'s methods change its fields in place.
  - `Raycast` is proved to leave the six debug lists equal to `FrameOverlay` and the height array equal to `FrameHeights`.
- `Game1App` (game1.dfy) does the same for `Game1.cs`:
  - `Raycast` is proved to leave the lists equal to `FrameMarks`.
  - Lemmas on `FrameMarks` state what each list holds.
- `Drawing` (debug_drawer.dfy) models the class `DebugDrawer` over its two arrays.
  - A ghost field `stream` holds the vertices of the submitted batches followed by the pending ones. `Begin` drops the pending ones from it.
  - A ghost field `submitted` keeps every batch handed to the GPU.
  - The invariant ties the two: the stream is the submitted batches followed by the pending vertices.

Cells follow the code: 0 is empty and any value above 0 is a wall. Lookups outside the map return 1.

In `Raycaster.cs`, `LoadMap` keeps the five obstacle writes `(14,1) (14,2) (14,3) (13,3) (12,3)` of the 20-wide map. On the 10-wide map these land in flat slots 24, 34, 44, 43 and 42, so the obstacle appears at cells (4,2), (4,3), (4,4), (3,4) and (2,4). The model keeps this as written: `RaycasterApp.LoadedMapCells` states the resulting cells.

Floating point is modelled with `real`. Square roots, `Vector2.Normalize`, `Math.Tan` and the rotation matrices are library calls, so they enter as parameters:
- `deltaOf` gives the two delta distances of a direction;
- `normalize` and `camWidth` give the camera plane;
- `rotate` gives the turned direction.

## Model

| member | source | states |
|---|---|---|
| Dda.AtSlot | MonoGamePlayground/Raycaster.cs:169-179 | inside the map, a lookup reads flat slot `y * width + x`, and that slot exists |
| Dda.InitialSideGeometry | MonoGamePlayground/Raycaster.cs:238-265 | the initial side distance is the distance along the ray to the first grid line in the step direction; for a player inside its cell it lies in `[0, delta]` and is 0 exactly when the ray steps toward lower coordinates from the cell's lower edge |
| Dda.Trace | MonoGamePlayground/Raycaster.cs:273-315 | the march stops on a solid cell and passes no solid cell before it |
| Dda.TraceLength | MonoGamePlayground/Raycaster.cs:273-315 | the march always ends: from a cell inside the map it takes at most width + height + 1 steps, because cells outside the map read as walls |
| Dda.TraceIsChain | MonoGamePlayground/Raycaster.cs:275-307 | each step of the march is one DDA advance from the cursor the previous step left |
| Dda.TraceSteps | MonoGamePlayground/Raycaster.cs:275-307 | step i moves along X exactly when sideDistX < sideDistY (ties go to Y); it moves mapX or mapY by the sign step, grows that side distance by its delta, and crosses at the old side distance |
| Dda.FirstCrossings | MonoGamePlayground/Raycaster.cs:238-307 | the first X step crosses at the initial sideDistX and the first Y step at the initial sideDistY |
| Dda.CountsAddUp | MonoGamePlayground/Raycaster.cs:275-307 | every step is either an X step or a Y step |
| Dda.GrownClosedForm | MonoGamePlayground/Raycaster.cs:285-305 | after k increments a side distance equals its start plus k deltas |
| Dda.ChainEnd | MonoGamePlayground/Raycaster.cs:273-315 | after a march the cell moved by `XCount` and `YCount` sign steps, and each side distance grew by that many deltas; the last step's axis was stepped at least once |
| Dda.AxisWallDistance | MonoGamePlayground/Raycaster.cs:317-327 | side distance minus one delta equals the axis distance from the player to the face the ray entered the hit cell through, times that axis's delta |
| Dda.ChainPerpDist | MonoGamePlayground/Raycaster.cs:317-327 | `perpWallDist` of any march equals that delta-scaled distance to the entry face of the hit cell, and it is non-negative when the player is inside its cell |
| Dda.PerpIsWallPlaneDistance | MonoGamePlayground/Raycaster.cs:317-327 | the same for the actual march from the player's cell |
| Dda.TraceOverlayShape | MonoGamePlayground/Raycaster.cs:273-315 | the loop adds one red point per X step and one green point per Y step when collision points are shown; one red or green line per X or Y step when equal-distance steps are shown; one grid point per step when grid steps are shown; no blue line |
| Dda.TraceOverlayCentres | MonoGamePlayground/Raycaster.cs:309 | with grid steps shown, the i-th grid point is the centre of the cell entered by step i |
| Dda.LastCollisionPoint | MonoGamePlayground/Raycaster.cs:275-298 | with collision points shown, the last red point (X hit) or last green point (Y hit) is the hit point |
| Dda.ChainIsTrace | MonoGamePlayground/Raycaster.cs:273-315 | any chain of DDA steps that stops at its first solid cell is the march itself, so the march is unique |
| Dda.CastRay | MonoGamePlayground/Raycaster.cs:220-315 | set-up plus loop yields the march's debug marks, its last axis, its hit point and its final cursor |
| Dda.SetUp | MonoGamePlayground/Raycaster.cs:238-265 | the step signs follow the ray direction's signs, and the side distances are those of the march's start |
| Dda.March | MonoGamePlayground/Raycaster.cs:273-315 | the while loop computes the march: the overlay, the side of the hit, the hit point and the hit cell |
| Dda.Iterate | MonoGamePlayground/Raycaster.cs:275-312 | one loop pass is one DDA advance, with its hit test and its marks |
| Input.MoveOf | MonoGamePlayground/Raycaster.cs:501-520 | each axis moves by -1, 0 or +1 pixel; opposite keys cancel; a single key moves one pixel its way |
| Input.TurnOf | MonoGamePlayground/Raycaster.cs:522-532 | the Q rotation is chosen whenever Q is held; the E rotation only when E is held without Q; with neither key no rotation is chosen |
| Input.Rotated | MonoGamePlayground/Raycaster.cs:522-534 | with neither Q nor E held the direction is kept, because the matrix stays the identity; Q applies its rotation whenever held; E applies its rotation only without Q |
| Input.TruncDivRoundsTowardZero | MonoGamePlayground/Raycaster.cs:538 | the pixel-to-cell division rounds toward zero for both signs |
| Input.CellContainsWorld | MonoGamePlayground/Raycaster.cs:537-542 | the world position lies in the derived cell exactly when the pixel is non-negative or on a cell boundary |
| DebugInfo.Upsert | MonoGamePlayground/Raycaster.cs:463-473 | the key maps to the new text; other keys keep their entries; an existing key keeps its place; a new key goes last |
| DebugInfo.UpsertIdempotent | MonoGamePlayground/Raycaster.cs:463-473 | displaying the same text twice equals displaying it once |
| DebugInfo.UpsertOverwrites | MonoGamePlayground/Raycaster.cs:463-473 | a second display of a key erases the first |
| DebugInfo.FirstOccurrences | MonoGamePlayground/Raycaster.cs:463-473 | each key appears once, in the order of its first occurrence |
| DebugInfo.UpsertAll | MonoGamePlayground/Raycaster.cs:187-198 | a sequence of displays keeps the table consistent |
| DebugInfo.UpsertAllOrder | MonoGamePlayground/Raycaster.cs:463-473 | the text lines appear in the order of each key's first display |
| RaycasterApp.Ordinal | MonoGamePlayground/Raycaster.cs:9 | each of the six modes has an ordinal below 6 |
| RaycasterApp.FromOrdinal | MonoGamePlayground/Raycaster.cs:9 | the cast from an int below 6 is the inverse of the ordinal |
| RaycasterApp.OrdinalInjective | MonoGamePlayground/Raycaster.cs:9 | distinct modes have distinct ordinals |
| RaycasterApp.Next | MonoGamePlayground/Raycaster.cs:115 | the next mode is the ordinal plus one, modulo 6 |
| RaycasterApp.CycleOrdinal | MonoGamePlayground/Raycaster.cs:115 | k presses of Tab add k to the ordinal, modulo 6 |
| RaycasterApp.CycleReturns | MonoGamePlayground/Raycaster.cs:115 | k presses return to the starting mode exactly when k is a multiple of 6 |
| RaycasterApp.SettingsFor | MonoGamePlayground/Raycaster.cs:113-167 | for each mode, which overlays are shown and how many rays are cast: 640 rays with the camera plane for MultipleRays, 4 for MultipleRaysWithCollisions, 1 otherwise |
| RaycasterApp.CameraX | MonoGamePlayground/Raycaster.cs:213 | column 0 maps to -1, and every column maps into [-1, 1) |
| RaycasterApp.CameraXBounds | MonoGamePlayground/Raycaster.cs:213 | `2 * column / RayCount` lies in [0, 2) for every column |
| RaycasterApp.ColumnDir | MonoGamePlayground/Raycaster.cs:209-218 | with a single ray, the ray direction is the player's direction |
| RaycasterApp.RayTrace | MonoGamePlayground/Raycaster.cs:273-315 | every column's march has at least one step |
| RaycasterApp.ColumnTrace | MonoGamePlayground/Raycaster.cs:211-315 | the same for the ray of a given column |
| RaycasterApp.PreCalcOverlay | MonoGamePlayground/Raycaster.cs:354-377 | one red and one green point; both red lines end at the foot of the first X crossing on the player's row, both green lines at the foot of the first Y crossing on the player's column; the first line of each starts at the player |
| RaycasterApp.BlueLines | MonoGamePlayground/Raycaster.cs:329-346 | each column adds the camera-plane line when it is shown, then the ray from its source to the hit point |
| RaycasterApp.FrameBlue | MonoGamePlayground/Raycaster.cs:211-350 | n columns with b blue lines each give n * b blue lines |
| RaycasterApp.FrameEmpty | MonoGamePlayground/Raycaster.cs:202-207 | before any column the lists are empty |
| RaycasterApp.FrameSnoc | MonoGamePlayground/Raycaster.cs:211-350 | each column appends its own marks to what the earlier columns left |
| RaycasterApp.RayOverlayShape | MonoGamePlayground/Raycaster.cs:267-346 | per column: the counts of red/green points and lines and of grid points follow the mode flags and the march's X/Y step counts |
| RaycasterApp.RayOverlaySplit | MonoGamePlayground/Raycaster.cs:267-346 | a column's marks are its pre-calculation marks, then the loop's marks, then its blue lines |
| RaycasterApp.JoinLengths | MonoGamePlayground/Raycaster.cs:202-346 | appending marks adds up the lengths of all six lists |
| RaycasterApp.ColumnOverlayShape | MonoGamePlayground/Raycaster.cs:211-346 | the per-column counts hold for every column's own ray |
| RaycasterApp.ColumnBlueCount | MonoGamePlayground/Raycaster.cs:329-346 | each column adds 2 blue lines with the camera plane shown, 1 otherwise |
| RaycasterApp.FrameBlueLines | MonoGamePlayground/Raycaster.cs:200-351 | a frame has RayCount times that many blue lines |
| RaycasterApp.WallHeightBounds | MonoGamePlayground/Raycaster.cs:348-349 | a column gets an int height exactly when the distance is non-zero and the quotient fits an int; that height is the largest n with n * abs(perp) <= screen height |
| RaycasterApp.FloorScales | MonoGamePlayground/Raycaster.cs:348 | the truncated quotient is bracketed by the screen height |
| RaycasterApp.WallHeightMonotone | MonoGamePlayground/Raycaster.cs:348-349 | a farther wall is never drawn taller |
| RaycasterApp.QuotientAntitone | MonoGamePlayground/Raycaster.cs:348 | the height quotient shrinks as the distance grows |
| RaycasterApp.Heights | MonoGamePlayground/Raycaster.cs:211-349 | the height array keeps its length |
| RaycasterApp.HeightsAt | MonoGamePlayground/Raycaster.cs:211-349 | after n columns, columns below n hold their new heights and the rest are unchanged |
| RaycasterApp.FrameHeightsAt | MonoGamePlayground/Raycaster.cs:211-349 | after a frame, each cast column holds the height of its own perpendicular distance, and the other columns keep the old value |
| RaycasterApp.ColumnPerpIsWallDistance | MonoGamePlayground/Raycaster.cs:317-327 | every column's `perpWallDist` is the axis distance to the entry face of the cell it hit, times that axis's delta, and it is non-negative when the player is inside its cell |
| RaycasterApp.CameraPlanePerpendicular | MonoGamePlayground/Raycaster.cs:547-552 | the camera plane is perpendicular to the view direction |
| RaycasterApp.SlotCoordinates | MonoGamePlayground/Raycaster.cs:169-172 | the flat slot of an in-map cell exists and decodes back to x and y |
| RaycasterApp.LoadedMap | MonoGamePlayground/Raycaster.cs:89-111 | the loaded map has one value per cell |
| RaycasterApp.LoadedMapCells | MonoGamePlayground/Raycaster.cs:89-111 | each cell is a wall exactly on the border or at the five wrapped obstacle cells (4,2) (4,3) (4,4) (3,4) (2,4) |
| RaycasterApp.LoadedMapClosed | MonoGamePlayground/Raycaster.cs:89-111 | the map is closed: every border cell is a wall |
| RaycasterApp.PixelInCell | MonoGamePlayground/Raycaster.cs:537-542 | on non-negative pixels the world position lies in the derived cell |
| RaycasterApp.JoinNothing | MonoGamePlayground/Raycaster.cs:267 | a column without pre-calculation adds nothing before its loop |
| RaycasterApp.PerpOfLastStep | MonoGamePlayground/Raycaster.cs:317-327 | `perpWallDist` is read from the side distance of the last step's axis |
| RaycasterApp.RayOverlayParts | MonoGamePlayground/Raycaster.cs:267-346 | adding a column's parts one after another appends the column's marks |
| RaycasterApp.JoinAssociative | MonoGamePlayground/Raycaster.cs:202-346 | appending to the lists is associative |
| RaycasterApp.Raycaster.constructor | MonoGamePlayground/Raycaster.cs:61-87 | Default mode, the loaded map, the player at the screen centre, a zero camera plane, empty lists and table, and zero heights in all 640 columns |
| RaycasterApp.Raycaster.LoadMap | MonoGamePlayground/Raycaster.cs:89-111 | the nested loops and the five writes leave a fresh map equal to `LoadedMap` |
| RaycasterApp.Raycaster.SetMapAt | MonoGamePlayground/Raycaster.cs:169-172 | exactly the flat slot `y * 10 + x` changes |
| RaycasterApp.Raycaster.GetMapAt | MonoGamePlayground/Raycaster.cs:174-179 | an in-map lookup reads the map; outside the map the result is 1 |
| RaycasterApp.Raycaster.NextDisplayMode | MonoGamePlayground/Raycaster.cs:113-167 | the mode advances cyclically, and the flags and RayCount become those of the new mode |
| RaycasterApp.Raycaster.Display | MonoGamePlayground/Raycaster.cs:463-473 | the debug table is updated by `Upsert`, and the class invariant is kept |
| RaycasterApp.Raycaster.HandleInput | MonoGamePlayground/Raycaster.cs:489-545 | the class invariant is kept; the mode advances only on a fresh Tab press; the direction turns by Q or E and is kept without either; the camera plane is recomputed from the direction; the pixel moves; the cell and world position are derived; the keys are remembered |
| RaycasterApp.Raycaster.SwitchMode | MonoGamePlayground/Raycaster.cs:496-499 | the mode advances exactly on a fresh Tab press |
| RaycasterApp.Raycaster.Steer | MonoGamePlayground/Raycaster.cs:501-544 | the direction turns by Q or E and is kept without either, and then the plane too if it matched the direction; the pixel moves; the cell and world position are derived |
| RaycasterApp.Raycaster.UpdateCameraPlane | MonoGamePlayground/Raycaster.cs:547-552 | the plane is the perpendicular of the direction scaled by the camera width |
| RaycasterApp.Raycaster.Append | MonoGamePlayground/Raycaster.cs:202-346 | the lists are extended by the given marks and nothing else changes |
| RaycasterApp.Raycaster.DrawPreCalcSteps | MonoGamePlayground/Raycaster.cs:354-377 | the pre-calculation marks are appended |
| RaycasterApp.Raycaster.Raycast | MonoGamePlayground/Raycaster.cs:200-351 | the class invariant is kept; after a frame the lists equal the frame overlay of all RayCount columns, and the height array holds each column's height |
| RaycasterApp.Raycaster.ClearAndCast | MonoGamePlayground/Raycaster.cs:200-351 | clearing the lists and running the column loop gives that frame overlay and those heights |
| RaycasterApp.Raycaster.CastColumns | MonoGamePlayground/Raycaster.cs:211-350 | the column loop casts every column in order |
| RaycasterApp.Raycaster.CastFrameColumn | MonoGamePlayground/Raycaster.cs:211-350 | one loop pass adds exactly column c's marks and height |
| RaycasterApp.Raycaster.CastColumn | MonoGamePlayground/Raycaster.cs:220-349 | a column's march appends its marks and stores its height |
| RaycasterApp.Raycaster.StoreHeight | MonoGamePlayground/Raycaster.cs:349 | only that column's height changes |
| RaycasterApp.Raycaster.DrawColumn | MonoGamePlayground/Raycaster.cs:267-346 | the column's pre-calculation marks, loop marks and blue lines are appended |
| RaycasterApp.Raycaster.DrawRay | MonoGamePlayground/Raycaster.cs:329-346 | the camera-plane line (if shown) and the ray line are appended |
| Game1App.Ordinal | MonoGamePlayground/Game1.cs:11 | each of the four modes has an ordinal below 4 |
| Game1App.FromOrdinal | MonoGamePlayground/Game1.cs:11 | the cast from an int below 4 is the inverse of the ordinal |
| Game1App.Next | MonoGamePlayground/Game1.cs:108 | the next mode is the ordinal plus one, modulo 4 |
| Game1App.CycleOrdinal | MonoGamePlayground/Game1.cs:108 | k presses of Tab add k to the ordinal, modulo 4 |
| Game1App.CycleReturns | MonoGamePlayground/Game1.cs:108 | k presses return to the starting mode exactly when k is a multiple of 4 |
| Game1App.FlagsFor | MonoGamePlayground/Game1.cs:106-136 | each overlay is shown exactly in its own mode; Collisions shows both collision points and grid steps |
| Game1App.FrameTrace | MonoGamePlayground/Game1.cs:239-288 | the player's march has at least one step |
| Game1App.FrameMarksCollisionPoints | MonoGamePlayground/Game1.cs:232-288 | the red and green points are the pre-calculation points followed by the loop's points |
| Game1App.FrameMarksCentres | MonoGamePlayground/Game1.cs:279 | the grid points all come from the loop |
| Game1App.FrameMarksBlue | MonoGamePlayground/Game1.cs:281-287 | the blue lines are exactly the hit line |
| Game1App.FrameMarksShape | MonoGamePlayground/Game1.cs:232-288 | the counts of each list follow the flags and the march's X/Y step counts; there is exactly one blue line |
| Game1App.BlueLineFromHit | MonoGamePlayground/Game1.cs:241-288 | the single blue line runs from the hit point back to the player; the hit cell is solid and no earlier cell is |
| Game1App.BlueLineStartsAtLastRedPoint | MonoGamePlayground/Game1.cs:244-287 | on an X hit with collision points shown, the blue line starts at the last red point |
| Game1App.BlueLineStartsAtLastGreenPoint | MonoGamePlayground/Game1.cs:262-287 | on a Y hit with collision points shown, the blue line starts at the last green point |
| Game1App.GridStepsEndAtHitCell | MonoGamePlayground/Game1.cs:279-287 | with grid steps shown, there is one cell centre per step, in order, and the last one is the solid hit cell |
| Game1App.PreCalcPointsAreFirstCrossings | MonoGamePlayground/Game1.cs:232-288 | with pre-calculation shown, the first red point is where the march first crosses a vertical grid line and the first green point where it first crosses a horizontal one |
| Game1App.FrameMarksSteps | MonoGamePlayground/Game1.cs:232-288 | the marks are pre-calculation, then loop marks, then the hit line |
| Game1App.CastMarks | MonoGamePlayground/Game1.cs:178-288 | set-up, pre-calculation and loop produce exactly the frame's marks |
| Game1App.SlotCoordinates | MonoGamePlayground/Game1.cs:138-141 | the flat slot of an in-map cell exists and decodes back to x and y |
| Game1App.LoadedMap | MonoGamePlayground/Game1.cs:82-104 | the loaded map has one value per cell |
| Game1App.LoadedMapCells | MonoGamePlayground/Game1.cs:82-104 | each cell is a wall exactly on the border or at (14,1) (14,2) (14,3) (13,3) (12,3) |
| Game1App.LoadedMapClosed | MonoGamePlayground/Game1.cs:82-104 | the map is closed: every border cell is a wall |
| Game1App.Game1.constructor | MonoGamePlayground/Game1.cs:58-80 | Default mode, the loaded map, the player at the screen centre, empty lists and table |
| Game1App.Game1.LoadMap | MonoGamePlayground/Game1.cs:82-104 | the nested loops and the five writes leave a fresh map equal to `LoadedMap` |
| Game1App.Game1.SetMapAt | MonoGamePlayground/Game1.cs:138-141 | exactly the flat slot `y * 20 + x` changes |
| Game1App.Game1.GetMapAt | MonoGamePlayground/Game1.cs:143-148 | an in-map lookup reads the map; outside the map the result is 1 |
| Game1App.Game1.NextDisplayMode | MonoGamePlayground/Game1.cs:106-136 | the mode advances cyclically, and the flags become those of the new mode |
| Game1App.Game1.Raycast | MonoGamePlayground/Game1.cs:169-289 | the class invariant is kept; after a frame the lists hold exactly the marks of the player's march |
| Game1App.Game1.Clear | MonoGamePlayground/Game1.cs:171-176 | all six lists are emptied |
| Game1App.Game1.Append | MonoGamePlayground/Game1.cs:232-287 | the lists are extended by the given marks |
| Game1App.Game1.Display | MonoGamePlayground/Game1.cs:359-369 | the debug table is updated by `Upsert`, and the class invariant is kept |
| Game1App.Game1.HandleInput | MonoGamePlayground/Game1.cs:385-439 | the class invariant is kept; the mode advances only on a fresh Tab press; the direction turns by Q or E and is kept without either; the pixel moves; the cell and world position are derived; the keys are remembered |
| Game1App.Game1.SwitchMode | MonoGamePlayground/Game1.cs:392-395 | the mode advances exactly on a fresh Tab press |
| Game1App.Game1.Steer | MonoGamePlayground/Game1.cs:397-438 | the direction turns by Q or E and is kept without either; the pixel moves; the cell and world position are derived |
| Drawing.ToUShort | MonoGamePlayground/DebugDrawer.cs:74-75 | the `ushort` cast keeps values below 65536 and otherwise wraps modulo 65536 |
| Drawing.PathVertices | MonoGamePlayground/DebugDrawer.cs:48-51 | k path segments queue 2k vertices |
| Drawing.PathSide | MonoGamePlayground/DebugDrawer.cs:48-51 | segment i of the path runs from vertex i to vertex i + 1 |
| Drawing.PolygonSides | MonoGamePlayground/DebugDrawer.cs:46-53 | a polygon of n corners queues n segments, and side i runs from corner i to corner (i + 1) mod n, closing the outline |
| Drawing.Drawn | MonoGamePlayground/DebugDrawer.cs:126 | a line-list draw of p primitives reads 2p vertices |
| Drawing.DrawnIsQueued | MonoGamePlayground/DebugDrawer.cs:112-134 | a submitted batch draws exactly the vertices that were queued, in order |
| Drawing.DrawnPrefix | MonoGamePlayground/DebugDrawer.cs:126 | with identity indices, p primitives draw the first 2p vertices |
| Drawing.DebugDrawer.constructor | MonoGamePlayground/DebugDrawer.cs:23-33 | fresh 4000-slot arrays, nothing queued, nothing submitted |
| Drawing.DebugDrawer.Begin | MonoGamePlayground/DebugDrawer.cs:34-45 | the counters reset, so the pending vertices are dropped without being drawn |
| Drawing.DebugDrawer.FlushDrawing | MonoGamePlayground/DebugDrawer.cs:112-134 | the pending vertices are submitted as one batch only when there is at least one index; the counters reset; nothing queued is lost |
| Drawing.DebugDrawer.Reserve | MonoGamePlayground/DebugDrawer.cs:96-109 | the request is refused exactly when it exceeds a whole buffer; it flushes first when the vertices would overflow or the indices would reach the limit |
| Drawing.DebugDrawer.DrawSegment | MonoGamePlayground/DebugDrawer.cs:70-79 | the two end points are queued; at 3998 indices a batch is submitted first, so a buffer never holds more than 3998 indices |
| Drawing.DebugDrawer.Enqueue | MonoGamePlayground/DebugDrawer.cs:74-77 | the two indices and vertices are written after the pending ones |
| Drawing.DebugDrawer.DrawPoint | MonoGamePlayground/DebugDrawer.cs:81-92 | a point is queued as the two diagonals of a square of half-side 4 |
| Drawing.DebugDrawer.DrawPolygon | MonoGamePlayground/DebugDrawer.cs:46-53 | the closed outline of the first n corners is queued |

## Left out

- Drawing, the 3D view, the grid, the text and the map-to-screen scaling are left out: `Draw`, `Draw3DView`, `DrawGrid`, `TextDraw`, `ToScreen`, `LoadContent`, the sprite batch and the font are rendering calls with no state the model observes.
- The GPU calls in `FlushDrawing` are left out: buffer `SetData`, `DrawIndexedPrimitives`, `BasicEffect` and the projection in `Begin`. A submission is recorded as a `Batch` value in the ghost history `submitted`.
- `DrawCircle` is left out. It is floating-point trigonometry, and it divides by zero when `pointCount` is 1. Its effect is `DrawPolygon` on the computed corners.
- `Update` is left out as a member. It is `HandleInput`, then `Raycast`, then three `Display` calls, and each part is modelled.
- Escape and the gamepad's Back button call `Exit()`, which ends the process and is not modelled.
- `Math.Sqrt`, `Vector2.Normalize`, `Math.Tan` and the rotation matrix are parameters (`deltaOf`, `normalize`, `camWidth`, `rotate`). Where deltas are non-positive (an axis-aligned ray gives an infinite delta in C#), the distance lemmas require `PositiveDeltas`.
- Single-precision rounding is not modelled: the model computes with `real`.
- The player's pixel position is a `Vector2`. It starts at (320, 320) and moves only by whole pixels, so it is modelled as two ints. The float-to-int cast before the division is the identity on those values.
- `Dda.TraceLength`: the bound is stated only for a march that starts inside the map. From outside the map the first step already reads a wall, and the general bound is stated in terms of `Room`.
- `RaycasterApp.ColumnDir`: the contract states only the single-ray case. With several rays the direction is `Normalize(dir + plane * cameraX)`, and `Normalize` is a parameter.
- `RaycasterApp.WallHeightOf`: when the distance is 0 or the quotient does not fit an int, C# gives an unspecified int. This is modelled as `Unbounded` rather than as a particular value.
- `Drawing.DebugDrawer.DrawPolygon`: requires `1 <= n <= |vs|`. Outside that range the C# indexes out of bounds and throws, which is not modelled. The C# array is modelled as a sequence.
- `Drawing.DebugDrawer.DrawPoint`: the contract states the queued vertices, not how many batches were submitted on the way.
- The debug lists collected inside the march are gathered as a value and then appended with one update (`Dda.March` returns the overlay). The per-step list appends in the source happen in the same order.
- `RaycasterApp.Raycaster.SetMapAt` and `Game1App.Game1.SetMapAt`: require the flat slot to lie inside the array. C# throws `IndexOutOfRangeException` otherwise, which is not modelled. Every call in both `LoadMap`s writes an in-range slot.
- `DebugInfo.UpsertAllOrder` and `DebugInfo.Upsert`: the text lines are listed in the order each key was first displayed. This assumes that `Dictionary<string, string>` enumerates in insertion order. .NET does not document that order; it holds in practice while no key is removed, and the program never removes one.
- `Program.cs` and `Sprite.cs` are not part of this model: `Program.cs` only starts the game, and `Sprite.cs` declares a sprite record that the core never uses.
