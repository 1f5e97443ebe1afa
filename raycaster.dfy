/** Raycaster.cs: the multi-column raycaster on a 10 x 10 map with 64-pixel cells. Each
    frame reads the keyboard, casts one ray per screen column through the DDA march of
    module Dda, records a wall height per column and fills the six debug lists drawn over
    the map. Square roots, vector normalisation and the rotation matrices are floating-point
    library calls; they are parameters here. */
module RaycasterApp {
  import opened Dda
  import Input
  import DebugInfo

  const UnitSize := 64
  const MapWidth := 10
  const MapHeight := 10
  /** mScreenWidth and mScreenHeight: the map drawn at UnitSize pixels per cell. */
  const ScreenWidth := 640
  const ScreenHeight := 640
  /** mRayCountNeeded: one ray per pixel column of the 3D view. */
  const RayCountNeeded := 640

  // ---------------------------------------------------------------------------
  // Display modes

  datatype DisplayMode =
    Default | Precalculations | EqualDistanceSteps | Collisions | MultipleRaysWithCollisions | MultipleRays

  const ModeCount := 6

  /** The enum's integer value, in declaration order. */
  function Ordinal(m: DisplayMode): (k: nat)
    ensures k < ModeCount
  {
    match m
    case Default => 0
    case Precalculations => 1
    case EqualDistanceSteps => 2
    case Collisions => 3
    case MultipleRaysWithCollisions => 4
    case MultipleRays => 5
  }

  /** The cast from an integer back to the enum; it inverts Ordinal. */
  function FromOrdinal(k: nat): (m: DisplayMode)
    requires k < ModeCount
    ensures Ordinal(m) == k
  {
    if k == 0 then Default
    else if k == 1 then Precalculations
    else if k == 2 then EqualDistanceSteps
    else if k == 3 then Collisions
    else if k == 4 then MultipleRaysWithCollisions
    else MultipleRays
  }

  lemma OrdinalInjective(a: DisplayMode, b: DisplayMode)
    ensures Ordinal(a) == Ordinal(b) ==> a == b
  {
  }

  /** The mode NextDisplayMode switches to: the next one in declaration order, wrapping
      from the last back to Default. */
  function Next(m: DisplayMode): (n: DisplayMode)
    ensures Ordinal(n) == (Ordinal(m) + 1) % ModeCount
  {
    FromOrdinal((Ordinal(m) + 1) % ModeCount)
  }

  /** The mode after k presses of Tab. */
  function Cycle(m: DisplayMode, k: nat): DisplayMode {
    if k == 0 then m else Next(Cycle(m, k - 1))
  }

  lemma {:induction false} CycleOrdinal(m: DisplayMode, k: nat)
    ensures Ordinal(Cycle(m, k)) == (Ordinal(m) + k) % ModeCount
  {
    if k > 0 {
      CycleOrdinal(m, k - 1);
      var a := Ordinal(m) + k - 1;
      var q := a / ModeCount;
      if a % ModeCount < ModeCount - 1 {
        Input.DivModUnique(a + 1, ModeCount, q, a % ModeCount + 1);
      } else {
        Input.DivModUnique(a + 1, ModeCount, q + 1, 0);
      }
    }
  }

  /** k presses of Tab restore the mode exactly when k is a multiple of six. */
  lemma CycleReturns(m: DisplayMode, k: nat)
    ensures Cycle(m, k) == m <==> k % ModeCount == 0
  {
    CycleOrdinal(m, k);
    OrdinalInjective(Cycle(m, k), m);
  }

  /** The display properties NextDisplayMode sets, and RayCount. */
  datatype Settings = Settings(preCalcSteps: bool, equalDistanceSteps: bool, collisionPoints: bool,
                               gridSteps: bool, cameraPlane: bool, rayCount: int)

  /** What each mode switches on: the multi-ray modes show the camera plane and cast 4 rays
      or one per column, every other mode casts the single ray along the view direction;
      grid steps are shown only together with collision points. */
  function SettingsFor(m: DisplayMode): (s: Settings)
    ensures s.cameraPlane <==> m == MultipleRays || m == MultipleRaysWithCollisions
    ensures s.cameraPlane <==> s.rayCount > 1
    ensures m == MultipleRays ==> s.rayCount == RayCountNeeded
    ensures m == MultipleRaysWithCollisions ==> s.rayCount == 4
    ensures 1 <= s.rayCount <= RayCountNeeded
    ensures s.preCalcSteps <==> m == Precalculations
    ensures s.equalDistanceSteps <==> m == EqualDistanceSteps
    ensures s.gridSteps <==> m == Collisions
    ensures s.collisionPoints <==> m == Collisions || m == MultipleRaysWithCollisions
  {
    match m
    case Default => Settings(false, false, false, false, false, 1)
    case MultipleRays => Settings(false, false, false, false, true, RayCountNeeded)
    case MultipleRaysWithCollisions => Settings(false, false, true, false, true, 4)
    case Precalculations => Settings(true, false, false, false, false, 1)
    case EqualDistanceSteps => Settings(false, true, false, false, false, 1)
    case Collisions => Settings(false, false, true, true, false, 1)
  }

  /** The flags the stepping loop consults. */
  function LoopFlags(s: Settings): StepFlags {
    StepFlags(s.collisionPoints, s.equalDistanceSteps, s.gridSteps)
  }

  // ---------------------------------------------------------------------------
  // One frame's rays

  /** What a frame's Raycast reads: the map, the player's world position and map cell, the
      view direction, the camera plane and the display settings. */
  datatype View = View(grid: Grid, pos: Vec, mapX: int, mapY: int, dir: Vec, plane: Vec, settings: Settings)

  /** cameraX: the column's position across the camera plane, from -1 at column 0 towards 1. */
  function CameraX(column: int, rayCount: int): (x: real)
    requires rayCount > 0
    ensures 0 <= column < rayCount ==> -1.0 <= x < 1.0
    ensures column == 0 ==> x == -1.0
  {
    CameraXBounds(column, rayCount);
    (2.0 * column as real) / rayCount as real - 1.0
  }

  lemma CameraXBounds(column: int, rayCount: int)
    requires rayCount > 0
    ensures 0 <= column < rayCount ==> 0.0 <= (2.0 * column as real) / rayCount as real < 2.0
  {
    var n := rayCount as real;
    var q := (2.0 * column as real) / n;
    assert q * n == 2.0 * column as real;
  }

  /** raydir for a column: with more than one ray, the normalised sum of the view direction
      and the camera plane scaled by cameraX; with a single ray, the view direction itself. */
  function ColumnDir(v: View, column: int, normalize: Vec -> Vec): (d: Vec)
    requires v.settings.rayCount > 0
    ensures v.settings.rayCount == 1 ==> d == v.dir
  {
    if v.settings.rayCount > 1
    then normalize(Add(v.dir, Scale(v.plane, CameraX(column, v.settings.rayCount))))
    else v.dir
  }

  /** The ray cast from the player along d; `deltaOf` gives deltaDistX and deltaDistY (the
      two square roots) for a direction. */
  function RayAlong(v: View, d: Vec, deltaOf: Vec -> Vec): Ray {
    Ray(v.pos, d, deltaOf(d).x, deltaOf(d).y)
  }

  function ColumnRay(v: View, column: int, normalize: Vec -> Vec, deltaOf: Vec -> Vec): Ray
    requires v.settings.rayCount > 0
  {
    RayAlong(v, ColumnDir(v, column, normalize), deltaOf)
  }

  /** The loop iterations of a ray, from the player's map cell. */
  function RayTrace(v: View, r: Ray): (t: seq<Step>)
    ensures |t| >= 1
  {
    Trace(v.grid, r, Start(r, v.mapX, v.mapY))
  }

  function ColumnTrace(v: View, column: int, normalize: Vec -> Vec, deltaOf: Vec -> Vec): (t: seq<Step>)
    requires v.settings.rayCount > 0
    ensures |t| >= 1
  {
    RayTrace(v, ColumnRay(v, column, normalize, deltaOf))
  }

  /** DrawPreCalcSteps: the first crossing on each axis as a point, with a line from the
      player across to it and a line from it to the player's row (X) or column (Y). */
  function PreCalcOverlay(origin: Vec, raydir: Vec, sideDistX: real, sideDistY: real): (o: Overlay)
    ensures |o.redPoints| == 1 && |o.greenPoints| == 1 && |o.redLines| == 2 && |o.greenLines| == 2
    ensures o.blueLines == [] && o.points == []
    // both red lines end at the foot of the first X crossing on the player's row, both
    // green lines at the foot of the first Y crossing on the player's column
    ensures o.redLines[0].to == o.redLines[1].to == Vec(o.redPoints[0].x, origin.y)
    ensures o.greenLines[0].to == o.greenLines[1].to == Vec(origin.x, o.greenPoints[0].y)
    ensures o.redLines[0].from == o.greenLines[0].from == origin
  {
    var firstX := Add(origin, Scale(raydir, sideDistX));
    var firstY := Add(origin, Scale(raydir, sideDistY));
    Overlay([Segment(origin, Vec(firstX.x, origin.y)), Segment(firstX, Vec(firstX.x, origin.y))],
            [Segment(origin, Vec(origin.x, firstY.y)), Segment(firstY, Vec(origin.x, firstY.y))],
            [],
            [],
            [firstX],
            [firstY])
  }

  /** sourceOfRay: the player, or with several rays the point of the camera plane at cameraX. */
  function RaySource(v: View, cameraX: real): Vec {
    if v.settings.rayCount > 1 then Add(v.pos, Scale(v.plane, cameraX)) else v.pos
  }

  /** The blue lines of a ray: the camera plane when it is shown, then the ray from its
      source to the last crossing. */
  function BlueLines(v: View, source: Vec, hit: Vec): (b: seq<Segment>)
    ensures |b| == if v.settings.cameraPlane then 2 else 1
    ensures b[|b| - 1] == Segment(source, hit)
  {
    (if v.settings.cameraPlane
     then [Segment(Add(v.pos, Scale(v.plane, -1.0)), Add(v.pos, Scale(v.plane, 1.0)))]
     else [])
    + [Segment(source, hit)]
  }

  function BlueOnly(b: seq<Segment>): Overlay {
    Overlay([], [], b, [], [], [])
  }

  /** Everything one ray appends to the debug lists, in order: the pre-calculation marks,
      the loop's marks, then the blue lines. */
  function RayOverlay(v: View, r: Ray, cameraX: real): Overlay {
    var start := Start(r, v.mapX, v.mapY);
    var t := RayTrace(v, r);
    var pre := if v.settings.preCalcSteps then PreCalcOverlay(v.pos, r.dir, start.sideX, start.sideY) else NoOverlay;
    Join(Join(pre, TraceOverlay(r, t, LoopFlags(v.settings))),
         BlueOnly(BlueLines(v, RaySource(v, cameraX), Collision(r, t[|t| - 1]))))
  }

  function ColumnOverlay(v: View, column: int, normalize: Vec -> Vec, deltaOf: Vec -> Vec): Overlay
    requires v.settings.rayCount > 0
  {
    RayOverlay(v, ColumnRay(v, column, normalize, deltaOf), CameraX(column, v.settings.rayCount))
  }

  /** The debug lists after the first n columns of a frame, `column` giving each column's marks. */
  function Frame(column: int -> Overlay, n: nat): Overlay {
    if n == 0 then NoOverlay else Join(Frame(column, n - 1), column(n - 1))
  }

  /** The marks of each column of the view. */
  function Columns(v: View, normalize: Vec -> Vec, deltaOf: Vec -> Vec): int -> Overlay {
    c => if v.settings.rayCount > 0 then ColumnOverlay(v, c, normalize, deltaOf) else NoOverlay
  }

  function FrameOverlay(v: View, n: nat, normalize: Vec -> Vec, deltaOf: Vec -> Vec): Overlay {
    Frame(Columns(v, normalize, deltaOf), n)
  }

  lemma {:induction false} FrameBlue(column: int -> Overlay, n: nat, b: nat)
    requires forall c :: 0 <= c < n ==> |column(c).blueLines| == b
    ensures |Frame(column, n).blueLines| == n * b
  {
    if n > 0 {
      FrameBlue(column, n - 1, b);
      assert n * b == (n - 1) * b + b;
    }
  }

  /** A frame of no columns leaves the cleared lists empty. */
  lemma FrameEmpty(v: View, normalize: Vec -> Vec, deltaOf: Vec -> Vec)
    ensures FrameOverlay(v, 0, normalize, deltaOf) == NoOverlay
  {
  }

  /** A frame of n + 1 columns is the frame of n columns followed by column n. */
  lemma FrameSnoc(v: View, n: nat, normalize: Vec -> Vec, deltaOf: Vec -> Vec)
    requires v.settings.rayCount > 0
    ensures FrameOverlay(v, n + 1, normalize, deltaOf)
            == Join(FrameOverlay(v, n, normalize, deltaOf), ColumnOverlay(v, n, normalize, deltaOf))
  {
  }

  /** The list lengths of a ray's marks o, fixed by the flags s and the step counts of
      the ray's trace t. */
  ghost predicate Shaped(s: Settings, t: seq<Step>, o: Overlay) {
    |o.redPoints| == (if s.preCalcSteps then 1 else 0) + (if s.collisionPoints then XCount(t) else 0) &&
    |o.greenPoints| == (if s.preCalcSteps then 1 else 0) + (if s.collisionPoints then YCount(t) else 0) &&
    |o.redLines| == (if s.preCalcSteps then 2 else 0) + (if s.equalDistanceSteps then XCount(t) else 0) &&
    |o.greenLines| == (if s.preCalcSteps then 2 else 0) + (if s.equalDistanceSteps then YCount(t) else 0) &&
    |o.points| == (if s.gridSteps then |t| else 0) &&
    |o.blueLines| == (if s.cameraPlane then 2 else 1)
  }

  /** Per ray, the list lengths are fixed by the flags and the step counts of its trace. */
  lemma RayOverlayShape(v: View, r: Ray, cameraX: real)
    ensures Shaped(v.settings, RayTrace(v, r), RayOverlay(v, r, cameraX))
  {
    var start := Start(r, v.mapX, v.mapY);
    var t := RayTrace(v, r);
    var pre := if v.settings.preCalcSteps then PreCalcOverlay(v.pos, r.dir, start.sideX, start.sideY) else NoOverlay;
    var loop := TraceOverlay(r, t, LoopFlags(v.settings));
    var blue := BlueLines(v, RaySource(v, cameraX), Collision(r, t[|t| - 1]));
    TraceOverlayShape(r, t, LoopFlags(v.settings));
    RayOverlaySplit(v, r, cameraX, pre, loop, blue);
    JoinLengths(Join(pre, loop), BlueOnly(blue));
    JoinLengths(pre, loop);
  }

  lemma RayOverlaySplit(v: View, r: Ray, cameraX: real, pre: Overlay, loop: Overlay, blue: seq<Segment>)
    requires var start := Start(r, v.mapX, v.mapY);
             pre == if v.settings.preCalcSteps then PreCalcOverlay(v.pos, r.dir, start.sideX, start.sideY) else NoOverlay
    requires var t := RayTrace(v, r);
             loop == TraceOverlay(r, t, LoopFlags(v.settings)) &&
             blue == BlueLines(v, RaySource(v, cameraX), Collision(r, t[|t| - 1]))
    ensures RayOverlay(v, r, cameraX) == Join(Join(pre, loop), BlueOnly(blue))
  {
  }

  lemma JoinLengths(a: Overlay, b: Overlay)
    ensures var j := Join(a, b);
            |j.redLines| == |a.redLines| + |b.redLines| && |j.greenLines| == |a.greenLines| + |b.greenLines| &&
            |j.blueLines| == |a.blueLines| + |b.blueLines| && |j.points| == |a.points| + |b.points| &&
            |j.redPoints| == |a.redPoints| + |b.redPoints| && |j.greenPoints| == |a.greenPoints| + |b.greenPoints|
  {
  }

  /** The same for the ray of a frame column. */
  lemma ColumnOverlayShape(v: View, column: int, normalize: Vec -> Vec, deltaOf: Vec -> Vec)
    requires v.settings.rayCount > 0
    ensures Shaped(v.settings, ColumnTrace(v, column, normalize, deltaOf), ColumnOverlay(v, column, normalize, deltaOf))
  {
    RayOverlayShape(v, ColumnRay(v, column, normalize, deltaOf), CameraX(column, v.settings.rayCount));
  }

  lemma ColumnBlueCount(v: View, column: int, normalize: Vec -> Vec, deltaOf: Vec -> Vec)
    requires v.settings.rayCount > 0
    ensures |ColumnOverlay(v, column, normalize, deltaOf).blueLines| == if v.settings.cameraPlane then 2 else 1
  {
    ColumnOverlayShape(v, column, normalize, deltaOf);
  }

  /** After a frame of n columns there are n blue ray lines, plus n copies of the camera
      plane when it is shown. */
  lemma FrameBlueLines(v: View, n: nat, normalize: Vec -> Vec, deltaOf: Vec -> Vec)
    requires v.settings.rayCount > 0
    ensures |FrameOverlay(v, n, normalize, deltaOf).blueLines| == n * (if v.settings.cameraPlane then 2 else 1)
  {
    var column := Columns(v, normalize, deltaOf);
    forall c | 0 <= c < n
      ensures |column(c).blueLines| == if v.settings.cameraPlane then 2 else 1
    {
      ColumnBlueCount(v, c, normalize, deltaOf);
    }
    FrameBlue(column, n, if v.settings.cameraPlane then 2 else 1);
  }

  // ---------------------------------------------------------------------------
  // Wall heights

  /** A column's wall height: (int)|ScreenHeight / perpWallDist|. A zero distance or a
      quotient beyond the int range has no defined int value in C#. */
  datatype WallHeight = Pixels(n: int) | Unbounded

  /** 2^31: the first double that no longer converts to an int. */
  const IntLimit := 0x8000_0000

  function Abs(x: real): real {
    if x < 0.0 then -x else x
  }

  function WallHeightOf(perp: real): WallHeight {
    if perp == 0.0 then Unbounded
    else
      var q := ScreenHeight as real / Abs(perp);
      if q < IntLimit as real then Pixels(q.Floor) else Unbounded
  }

  /** A column gets a height exactly when the quotient is finite and fits an int; the
      height n is then the number of whole distances |perp| that fit in the screen height. */
  lemma WallHeightBounds(perp: real)
    ensures var h := WallHeightOf(perp);
            (h.Pixels? <==> perp != 0.0 && ScreenHeight as real / Abs(perp) < IntLimit as real) &&
            (h.Pixels? ==> 0 <= h.n && h.n as real * Abs(perp) <= ScreenHeight as real < (h.n + 1) as real * Abs(perp))
  {
    if perp != 0.0 {
      FloorScales(ScreenHeight as real / Abs(perp), Abs(perp));
    }
  }

  /** The truncated quotient n of s / a satisfies n * a <= s < (n + 1) * a. */
  lemma FloorScales(q: real, a: real)
    requires a > 0.0 && q == ScreenHeight as real / a
    ensures 0 <= q.Floor && q.Floor as real * a <= ScreenHeight as real < (q.Floor + 1) as real * a
  {
    var n := q.Floor as real;
    assert q * a == ScreenHeight as real;
    assert n <= q < n + 1.0;
    assert n * a <= q * a;
    assert q * a < (n + 1.0) * a;
  }

  /** Farther walls are never drawn taller. */
  lemma WallHeightMonotone(p1: real, p2: real)
    requires 0.0 < Abs(p1) <= Abs(p2)
    requires WallHeightOf(p1).Pixels?
    ensures WallHeightOf(p2).Pixels? && WallHeightOf(p2).n <= WallHeightOf(p1).n
  {
    WallHeightBounds(p1);
    QuotientAntitone(Abs(p1), Abs(p2));
  }

  lemma QuotientAntitone(a: real, b: real)
    requires 0.0 < a <= b
    ensures ScreenHeight as real / b <= ScreenHeight as real / a
  {
    var qa, qb := ScreenHeight as real / a, ScreenHeight as real / b;
    assert qa * a == ScreenHeight as real && qb * b == ScreenHeight as real;
    assert qb * a <= qb * b;
  }

  // ---------------------------------------------------------------------------
  // Wall distance of a column

  /** perpWallDist of a ray. */
  function RayPerp(v: View, r: Ray): real {
    PerpDist(r, RayTrace(v, r))
  }

  /** perpWallDist of a column's ray. */
  function ColumnPerp(v: View, column: int, normalize: Vec -> Vec, deltaOf: Vec -> Vec): real
    requires v.settings.rayCount > 0
  {
    RayPerp(v, ColumnRay(v, column, normalize, deltaOf))
  }

  /** The heights h0 with slot c overwritten by height(c) for each c < n, in column order. */
  function Heights(height: int -> WallHeight, n: nat, h0: seq<WallHeight>): (h: seq<WallHeight>)
    requires n <= |h0|
    ensures |h| == |h0|
  {
    if n == 0 then h0 else Heights(height, n - 1, h0)[n - 1 := height(n - 1)]
  }

  /** Slot c holds height(c) once column c is done, and its old value before. */
  lemma {:induction false} HeightsAt(height: int -> WallHeight, n: nat, h0: seq<WallHeight>)
    requires n <= |h0|
    ensures forall c :: 0 <= c < n ==> Heights(height, n, h0)[c] == height(c)
    ensures forall c :: n <= c < |h0| ==> Heights(height, n, h0)[c] == h0[c]
  {
    if n > 0 {
      HeightsAt(height, n - 1, h0);
    }
  }

  /** The wall height of each column of the view. */
  function ColumnHeights(v: View, normalize: Vec -> Vec, deltaOf: Vec -> Vec): int -> WallHeight {
    c => if v.settings.rayCount > 0 then WallHeightOf(ColumnPerp(v, c, normalize, deltaOf)) else Pixels(0)
  }

  /** mWallHeights after the first n columns of a frame that started with heights h0. */
  function FrameHeights(v: View, n: nat, normalize: Vec -> Vec, deltaOf: Vec -> Vec, h0: seq<WallHeight>): seq<WallHeight>
    requires n <= |h0|
  {
    Heights(ColumnHeights(v, normalize, deltaOf), n, h0)
  }

  /** After a frame, slot c of mWallHeights holds column c's wall height for each column
      cast, and every later slot its old value. */
  lemma FrameHeightsAt(v: View, n: nat, normalize: Vec -> Vec, deltaOf: Vec -> Vec, h0: seq<WallHeight>)
    requires v.settings.rayCount > 0 && n <= |h0|
    ensures |FrameHeights(v, n, normalize, deltaOf, h0)| == |h0|
    ensures forall c :: 0 <= c < n ==> FrameHeights(v, n, normalize, deltaOf, h0)[c] == WallHeightOf(ColumnPerp(v, c, normalize, deltaOf))
    ensures forall c :: n <= c < |h0| ==> FrameHeights(v, n, normalize, deltaOf, h0)[c] == h0[c]
  {
    HeightsAt(ColumnHeights(v, normalize, deltaOf), n, h0);
  }

  /** The player's world position lies inside its map cell. */
  predicate InCell(v: View) {
    v.mapX as real <= v.pos.x < v.mapX as real + 1.0 && v.mapY as real <= v.pos.y < v.mapY as real + 1.0
  }

  /** A column's perpendicular distance is the distance to the plane of the wall face its ray
      entered, and it is never negative while the player lies inside its map cell. */
  lemma ColumnPerpIsWallDistance(v: View, column: int, normalize: Vec -> Vec, deltaOf: Vec -> Vec)
    requires v.settings.rayCount > 0 && PositiveDeltas(ColumnRay(v, column, normalize, deltaOf))
    ensures var t := ColumnTrace(v, column, normalize, deltaOf);
            ColumnPerp(v, column, normalize, deltaOf) == WallPlaneDistance(ColumnRay(v, column, normalize, deltaOf), t[|t| - 1])
    ensures InCell(v) ==> ColumnPerp(v, column, normalize, deltaOf) >= 0.0
  {
    var r := ColumnRay(v, column, normalize, deltaOf);
    PerpIsWallPlaneDistance(v.grid, r, v.mapX, v.mapY);
  }

  // ---------------------------------------------------------------------------
  // The camera plane

  function Dot(a: Vec, b: Vec): real {
    a.x * b.x + a.y * b.y
  }

  /** UpdateCameraPlane: the view direction turned a quarter, normalised, scaled by
      tan(fov / 2) (`camWidth`). */
  function CameraPlane(dir: Vec, normalize: Vec -> Vec, camWidth: real): Vec {
    Scale(normalize(Vec(-dir.y, dir.x)), camWidth)
  }

  /** When normalisation only rescales its argument, the camera plane is perpendicular to
      the view direction. */
  lemma CameraPlanePerpendicular(dir: Vec, normalize: Vec -> Vec, camWidth: real, k: real)
    requires normalize(Vec(-dir.y, dir.x)) == Scale(Vec(-dir.y, dir.x), k)
    ensures Dot(CameraPlane(dir, normalize, camWidth), dir) == 0.0
  {
    var c := k * camWidth;
    assert CameraPlane(dir, normalize, camWidth) == Vec(-dir.y * c, dir.x * c);
    assert -dir.y * c * dir.x + dir.x * c * dir.y == 0.0;
  }

  // ---------------------------------------------------------------------------
  // The map LoadMap builds

  /** Slot of cell (x, y) in the flat map: y * mMapWidth + x, without a bounds check. */
  function Slot(x: int, y: int): int {
    y * MapWidth + x
  }

  predicate Border(x: int, y: int) {
    x == 0 || y == 0 || x == MapWidth - 1 || y == MapHeight - 1
  }

  /** The value the nested loops store in slot i: 1 on the border, 0 inside. */
  function BorderAt(i: int): int {
    if Border(i % MapWidth, i / MapWidth) then 1 else 0
  }

  /** In range, (x, y) is the cell slot Slot(x, y) belongs to. */
  lemma SlotCoordinates(x: int, y: int)
    requires 0 <= x < MapWidth && 0 <= y < MapHeight
    ensures 0 <= Slot(x, y) < MapWidth * MapHeight
    ensures Slot(x, y) % MapWidth == x && Slot(x, y) / MapWidth == y
  {
    Input.DivModUnique(Slot(x, y), MapWidth, y, x);
  }

  /** The map after LoadMap: the walled border, then the five extra walls at the slots
      the calls SetMapAt(14, 1), (14, 2), (14, 3), (13, 3) and (12, 3) address. */
  function LoadedMap(): (m: seq<int>)
    ensures |m| == MapWidth * MapHeight
  {
    seq(MapWidth * MapHeight, BorderAt)[Slot(14, 1) := 1][Slot(14, 2) := 1][Slot(14, 3) := 1][Slot(13, 3) := 1][Slot(12, 3) := 1]
  }

  /** The loaded map is 1 exactly on the border and on the cells (4,2), (4,3), (4,4),
      (3,4), (2,4): the extra walls written for x = 12..14 wrap into the rows below on a
      10-wide map. */
  lemma LoadedMapCells(x: int, y: int)
    requires 0 <= x < MapWidth && 0 <= y < MapHeight
    ensures At(Grid(MapWidth, MapHeight, LoadedMap()), x, y)
            == if Border(x, y) || (x, y) in {(4, 2), (4, 3), (4, 4), (3, 4), (2, 4)} then 1 else 0
  {
    SlotCoordinates(x, y);
    var i := Slot(x, y);
    assert LoadedMap()[i] == if i in {24, 34, 44, 43, 42} then 1 else BorderAt(i);
  }

  /** Every cell outside the 10 x 10 grid and every border cell reads as a wall. */
  lemma LoadedMapClosed(x: int, y: int)
    requires !(1 <= x < MapWidth - 1 && 1 <= y < MapHeight - 1)
    ensures At(Grid(MapWidth, MapHeight, LoadedMap()), x, y) == 1
  {
    if 0 <= x < MapWidth && 0 <= y < MapHeight {
      LoadedMapCells(x, y);
    }
  }

  /** A non-negative pixel coordinate lies in the cell derived from it. */
  lemma PixelInCell(p: int)
    ensures p >= 0 ==> Input.CellOf(p, UnitSize) as real <= Input.WorldOf(p, UnitSize) < Input.CellOf(p, UnitSize) as real + 1.0
  {
    Input.CellContainsWorld(p, UnitSize);
  }

  lemma JoinNothing(l: Overlay)
    ensures Join(l, NoOverlay) == l
  {
  }

  /** perpWallDist as Raycast computes it from the last step of the loop. */
  lemma PerpOfLastStep(r: Ray, t: seq<Step>, northSouthSide: bool, last: Cursor)
    requires |t| >= 1 && northSouthSide == t[|t| - 1].alongX && last == t[|t| - 1].after
    ensures PerpDist(r, t) == if northSouthSide then last.sideX - r.deltaX else last.sideY - r.deltaY
  {
  }

  /** The lists after a column, assembled from its three parts, are RayOverlay appended. */
  lemma RayOverlayParts(v: View, r: Ray, cameraX: real, l0: Overlay, pre: Overlay, o: Overlay, hit: Vec)
    requires r.origin == v.pos
    requires var start := Start(r, v.mapX, v.mapY);
             pre == if v.settings.preCalcSteps then PreCalcOverlay(v.pos, r.dir, start.sideX, start.sideY) else NoOverlay
    requires var t := RayTrace(v, r);
             o == TraceOverlay(r, t, LoopFlags(v.settings)) && hit == Collision(r, t[|t| - 1])
    ensures Join(Join(Join(l0, pre), o), BlueOnly(BlueLines(v, RaySource(v, cameraX), hit)))
            == Join(l0, RayOverlay(v, r, cameraX))
  {
    var b := BlueOnly(BlueLines(v, RaySource(v, cameraX), hit));
    RayOverlaySplit(v, r, cameraX, pre, o, BlueLines(v, RaySource(v, cameraX), hit));
    JoinAssociative(l0, pre, o);
    JoinAssociative(l0, Join(pre, o), b);
  }

  lemma JoinAssociative(a: Overlay, b: Overlay, c: Overlay)
    ensures Join(Join(a, b), c) == Join(a, Join(b, c))
  {
  }

  // ---------------------------------------------------------------------------
  // The game object

  class Raycaster {
    var mode: DisplayMode
    var oldKeys: Input.KeyState
    /** mPlayerPixelPos: it starts on whole pixels and moves by whole pixels. */
    var pixelX: int
    var pixelY: int
    var dir: Vec
    var plane: Vec
    var mapPosX: int
    var mapPosY: int
    var pos: Vec
    var debugInfo: DebugInfo.Table
    var redLines: seq<Segment>
    var greenLines: seq<Segment>
    var blueLines: seq<Segment>
    var points: seq<Vec>
    var redPoints: seq<Vec>
    var greenPoints: seq<Vec>
    var cells: array<int>
    var showPreCalcSteps: bool
    var showEqualDistanceSteps: bool
    var showCollisionPoints: bool
    var showGridSteps: bool
    var showCameraPlane: bool
    var rayCount: int
    var wallHeights: array<WallHeight>

    /** The map has one slot per cell, there is a wall height per screen column, the flags
        and RayCount are those of the current mode, and the debug table is consistent. */
    ghost predicate Valid()
      reads this`cells, this`wallHeights, this`debugInfo, this`mode,
            this`showPreCalcSteps, this`showEqualDistanceSteps, this`showCollisionPoints,
            this`showGridSteps, this`showCameraPlane, this`rayCount
    {
      cells.Length == MapWidth * MapHeight && wallHeights.Length == RayCountNeeded &&
      ModeShown() && DebugInfo.WellFormed(debugInfo)
    }

    /** The flags and RayCount are those of the current mode. */
    predicate ModeShown()
      reads this`mode, this`showPreCalcSteps, this`showEqualDistanceSteps, this`showCollisionPoints,
            this`showGridSteps, this`showCameraPlane, this`rayCount
    {
      CurrentSettings() == SettingsFor(mode)
    }

    function CurrentSettings(): Settings
      reads this`showPreCalcSteps, this`showEqualDistanceSteps, this`showCollisionPoints,
            this`showGridSteps, this`showCameraPlane, this`rayCount
    {
      Settings(showPreCalcSteps, showEqualDistanceSteps, showCollisionPoints, showGridSteps, showCameraPlane, rayCount)
    }

    function Lists(): Overlay
      reads this`redLines, this`greenLines, this`blueLines, this`points, this`redPoints, this`greenPoints
    {
      Overlay(redLines, greenLines, blueLines, points, redPoints, greenPoints)
    }

    function Map(): Grid
      reads this`cells, cells
    {
      Grid(MapWidth, MapHeight, cells[..])
    }

    /** What Raycast reads. */
    function CurrentView(): View
      reads this`cells, cells, this`pos, this`mapPosX, this`mapPosY, this`dir, this`plane,
            this`showPreCalcSteps, this`showEqualDistanceSteps, this`showCollisionPoints,
            this`showGridSteps, this`showCameraPlane, this`rayCount
    {
      View(Map(), pos, mapPosX, mapPosY, dir, plane, CurrentSettings())
    }

    /** The constructor: one ray, the player at the screen centre facing `initialDir` (the
        normalised (2, 1)); the map cell, the world position and the camera plane keep their
        zero defaults until the first HandleInput. */
    constructor (initialDir: Vec)
      ensures Valid() && fresh(cells) && fresh(wallHeights)
      ensures mode == Default && cells[..] == LoadedMap()
      ensures pixelX == ScreenWidth / 2 && pixelY == ScreenHeight / 2 && dir == initialDir
      ensures plane == Vec(0.0, 0.0) && mapPosX == 0 && mapPosY == 0 && pos == Vec(0.0, 0.0)
      ensures Lists() == NoOverlay && debugInfo == DebugInfo.Empty && oldKeys == Input.NoKeys
      ensures forall c :: 0 <= c < wallHeights.Length ==> wallHeights[c] == Pixels(0)
    {
      mode := Default;
      oldKeys := Input.NoKeys;
      pixelX, pixelY := ScreenWidth / 2, ScreenHeight / 2;
      dir := initialDir;
      plane := Vec(0.0, 0.0);
      mapPosX, mapPosY := 0, 0;
      pos := Vec(0.0, 0.0);
      debugInfo := DebugInfo.Empty;
      redLines, greenLines, blueLines := [], [], [];
      points, redPoints, greenPoints := [], [], [];
      cells := new int[0];
      showPreCalcSteps, showEqualDistanceSteps, showCollisionPoints := false, false, false;
      showGridSteps, showCameraPlane := false, false;
      rayCount := 1;
      wallHeights := new WallHeight[RayCountNeeded](_ => Pixels(0));
      new;
      LoadMap();
    }

    /** LoadMap: a fresh map, walls along the border, then the five extra walls. */
    method LoadMap()
      modifies this`cells
      ensures fresh(cells) && cells[..] == LoadedMap()
    {
      cells := new int[MapWidth * MapHeight];
      var x := 0;
      while x < MapWidth
        invariant 0 <= x <= MapWidth && fresh(cells) && cells.Length == MapWidth * MapHeight
        invariant forall i :: 0 <= i < cells.Length && i % MapWidth < x ==> cells[i] == BorderAt(i)
      {
        var y := 0;
        while y < MapHeight
          invariant 0 <= y <= MapHeight && fresh(cells) && cells.Length == MapWidth * MapHeight
          invariant forall i :: 0 <= i < cells.Length && (i % MapWidth < x || (i % MapWidth == x && i / MapWidth < y))
                      ==> cells[i] == BorderAt(i)
        {
          var value := 0;
          if x == 0 || y == 0 || x == MapWidth - 1 || y == MapHeight - 1 {
            value := 1;
          }
          SlotCoordinates(x, y);
          SetMapAt(x, y, value);
          y := y + 1;
        }
        x := x + 1;
      }
      assert cells[..] == seq(MapWidth * MapHeight, BorderAt);
      SetMapAt(14, 1, 1);
      SetMapAt(14, 2, 1);
      SetMapAt(14, 3, 1);
      SetMapAt(13, 3, 1);
      SetMapAt(12, 3, 1);
    }

    /** SetMapAt: writes slot y * width + x and nothing else; the slot must exist. */
    method SetMapAt(x: int, y: int, value: int)
      requires 0 <= Slot(x, y) < cells.Length
      modifies cells
      ensures cells[..] == old(cells[..])[Slot(x, y) := value]
    {
      cells[Slot(x, y)] := value;
    }

    /** GetMapAt: the grid's cell value, 1 for any coordinate outside the map. */
    function GetMapAt(x: int, y: int): (r: int)
      reads this`cells, cells
      requires cells.Length == MapWidth * MapHeight
      ensures r == At(Map(), x, y)
      ensures !(0 <= x < MapWidth && 0 <= y < MapHeight) ==> r == 1
    {
      if x < 0 || x >= MapWidth || y < 0 || y >= MapHeight then 1 else cells[Slot(x, y)]
    }

    /** NextDisplayMode: the next mode in declaration order, with its flags and RayCount. */
    method NextDisplayMode()
      modifies this`mode, this`showPreCalcSteps, this`showEqualDistanceSteps, this`showCollisionPoints,
               this`showGridSteps, this`showCameraPlane, this`rayCount
      ensures mode == Next(old(mode)) && ModeShown()
    {
      mode := FromOrdinal((Ordinal(mode) + 1) % ModeCount);
      match mode
      case Default =>
        showPreCalcSteps, showEqualDistanceSteps, showCollisionPoints := false, false, false;
        showGridSteps, showCameraPlane, rayCount := false, false, 1;
      case MultipleRays =>
        showPreCalcSteps, showEqualDistanceSteps, showCollisionPoints := false, false, false;
        showGridSteps, showCameraPlane, rayCount := false, true, RayCountNeeded;
      case MultipleRaysWithCollisions =>
        showPreCalcSteps, showEqualDistanceSteps, showCollisionPoints := false, false, true;
        showGridSteps, showCameraPlane, rayCount := false, true, 4;
      case Precalculations =>
        showPreCalcSteps, showEqualDistanceSteps, showCollisionPoints := true, false, false;
        showGridSteps, showCameraPlane, rayCount := false, false, 1;
      case EqualDistanceSteps =>
        showPreCalcSteps, showEqualDistanceSteps, showCollisionPoints := false, true, false;
        showGridSteps, showCameraPlane, rayCount := false, false, 1;
      case Collisions =>
        showPreCalcSteps, showEqualDistanceSteps, showCollisionPoints := false, false, true;
        showGridSteps, showCameraPlane, rayCount := true, false, 1;
    }

    /** Display: overwrite the text of a label already shown, or add the label at the end. */
    method Display(key: string, text: string)
      requires Valid()
      modifies this`debugInfo
      ensures Valid()
      ensures debugInfo == DebugInfo.Upsert(old(debugInfo), key, text)
    {
      if key in debugInfo.entries {
        debugInfo := debugInfo.(entries := debugInfo.entries[key := text]);
      } else {
        debugInfo := DebugInfo.Table(debugInfo.order + [key], debugInfo.entries[key := text]);
      }
    }

    /** The frame's keyboard handling: Tab's rising edge switches the mode, then the view
        turns and the player moves. */
    method HandleInput(keys: Input.KeyState, rotate: (Input.Turn, Vec) -> Vec, normalize: Vec -> Vec, camWidth: real)
      requires Valid()
      modifies this`mode, this`showPreCalcSteps, this`showEqualDistanceSteps, this`showCollisionPoints,
               this`showGridSteps, this`showCameraPlane, this`rayCount,
               this`dir, this`plane, this`pixelX, this`pixelY, this`mapPosX, this`mapPosY, this`pos, this`oldKeys
      ensures Valid() && ModeShown()
      ensures mode == if Input.TabPressed(keys, old(oldKeys)) then Next(old(mode)) else old(mode)
      ensures dir == Input.Rotated(keys, old(dir), rotate) && plane == CameraPlane(dir, normalize, camWidth)
      // without Q or E the view keeps its direction, and a plane that matched it is kept
      ensures !keys.q && !keys.e ==> dir == old(dir)
      ensures !keys.q && !keys.e && old(plane) == CameraPlane(old(dir), normalize, camWidth) ==> plane == old(plane)
      ensures pixelX == old(pixelX) + Input.MoveOf(keys).dx && pixelY == old(pixelY) + Input.MoveOf(keys).dy
      ensures mapPosX == Input.CellOf(pixelX, UnitSize) && mapPosY == Input.CellOf(pixelY, UnitSize)
      ensures pos == Vec(Input.WorldOf(pixelX, UnitSize), Input.WorldOf(pixelY, UnitSize))
      ensures oldKeys == keys
      // on non-negative pixels the world position lies in the derived cell
      ensures pixelX >= 0 ==> mapPosX as real <= pos.x < mapPosX as real + 1.0
      ensures pixelY >= 0 ==> mapPosY as real <= pos.y < mapPosY as real + 1.0
    {
      SwitchMode(keys);
      Steer(keys, rotate, normalize, camWidth);
    }

    /** The Tab test of HandleInput: NextDisplayMode on Tab's rising edge only. */
    method SwitchMode(keys: Input.KeyState)
      requires ModeShown()
      modifies this`mode, this`showPreCalcSteps, this`showEqualDistanceSteps, this`showCollisionPoints,
               this`showGridSteps, this`showCameraPlane, this`rayCount
      ensures ModeShown()
      ensures mode == if Input.TabPressed(keys, oldKeys) then Next(old(mode)) else old(mode)
    {
      if keys.tab && !oldKeys.tab {
        NextDisplayMode();
      }
    }

    /** The rest of HandleInput: turn the view (`rotate` stands for the rotation matrices)
        and the camera plane with it, move the pixel position by the key move, derive the
        map cell with truncating integer division and the world position with real
        division, and remember the key state. */
    method Steer(keys: Input.KeyState, rotate: (Input.Turn, Vec) -> Vec, normalize: Vec -> Vec, camWidth: real)
      modifies this`dir, this`plane, this`pixelX, this`pixelY, this`mapPosX, this`mapPosY, this`pos, this`oldKeys
      ensures dir == Input.Rotated(keys, old(dir), rotate) && plane == CameraPlane(dir, normalize, camWidth)
      // without Q or E the view keeps its direction, and a plane that matched it is kept
      ensures !keys.q && !keys.e ==> dir == old(dir)
      ensures !keys.q && !keys.e && old(plane) == CameraPlane(old(dir), normalize, camWidth) ==> plane == old(plane)
      ensures pixelX == old(pixelX) + Input.MoveOf(keys).dx && pixelY == old(pixelY) + Input.MoveOf(keys).dy
      ensures mapPosX == Input.CellOf(pixelX, UnitSize) && mapPosY == Input.CellOf(pixelY, UnitSize)
      ensures pos == Vec(Input.WorldOf(pixelX, UnitSize), Input.WorldOf(pixelY, UnitSize))
      ensures oldKeys == keys
      ensures pixelX >= 0 ==> mapPosX as real <= pos.x < mapPosX as real + 1.0
      ensures pixelY >= 0 ==> mapPosY as real <= pos.y < mapPosY as real + 1.0
    {
      var move := Input.MoveOf(keys);
      dir := Input.Rotated(keys, dir, rotate);
      UpdateCameraPlane(normalize, camWidth);
      pixelX, pixelY := pixelX + move.dx, pixelY + move.dy;
      mapPosX, mapPosY := Input.TruncDiv(pixelX, UnitSize), Input.TruncDiv(pixelY, UnitSize);
      pos := Vec(pixelX as real / UnitSize as real, pixelY as real / UnitSize as real);
      PixelInCell(pixelX);
      PixelInCell(pixelY);
      oldKeys := keys;
    }

    /** UpdateCameraPlane; `camWidth` is tan(66 degrees / 2). */
    method UpdateCameraPlane(normalize: Vec -> Vec, camWidth: real)
      modifies this`plane
      ensures plane == CameraPlane(dir, normalize, camWidth)
    {
      plane := Scale(normalize(Vec(-dir.y, dir.x)), camWidth);
    }

    /** Append o's lists to the debug lists, list by list. */
    method Append(o: Overlay)
      modifies this`redLines, this`greenLines, this`blueLines, this`points, this`redPoints, this`greenPoints
      ensures CurrentView() == old(CurrentView())
      ensures Lists() == Join(old(Lists()), o)
    {
      redLines, greenLines, blueLines := redLines + o.redLines, greenLines + o.greenLines, blueLines + o.blueLines;
      points, redPoints, greenPoints := points + o.points, redPoints + o.redPoints, greenPoints + o.greenPoints;
    }

    /** DrawPreCalcSteps: marks the first X and Y crossings and their feet on the player's
        row and column. */
    method DrawPreCalcSteps(raydir: Vec, sideDistX: real, sideDistY: real)
      modifies this`redLines, this`greenLines, this`redPoints, this`greenPoints
      ensures CurrentView() == old(CurrentView())
      ensures Lists() == Join(old(Lists()), PreCalcOverlay(pos, raydir, sideDistX, sideDistY))
    {
      var firstCollisionX := Add(pos, Scale(raydir, sideDistX));
      redPoints := redPoints + [firstCollisionX];
      redLines := redLines + [Segment(pos, Vec(firstCollisionX.x, pos.y))];
      redLines := redLines + [Segment(firstCollisionX, Vec(firstCollisionX.x, pos.y))];
      var firstCollisionY := Add(pos, Scale(raydir, sideDistY));
      greenPoints := greenPoints + [firstCollisionY];
      greenLines := greenLines + [Segment(pos, Vec(pos.x, firstCollisionY.y))];
      greenLines := greenLines + [Segment(firstCollisionY, Vec(pos.x, firstCollisionY.y))];
    }

    /** Raycast: clear the debug lists, then cast one ray per column. Column c's marks are
        appended in column order and mWallHeights[c] receives the height of its wall; the
        heights of the columns beyond RayCount keep their old values. */
    method Raycast(normalize: Vec -> Vec, deltaOf: Vec -> Vec)
      requires Valid()
      modifies this`redLines, this`greenLines, this`blueLines, this`points, this`redPoints, this`greenPoints, wallHeights
      ensures Valid()
      ensures Lists() == FrameOverlay(CurrentView(), rayCount, normalize, deltaOf)
      ensures wallHeights[..] == FrameHeights(CurrentView(), rayCount, normalize, deltaOf, old(wallHeights[..]))
    {
      ClearAndCast(normalize, deltaOf);
    }

    /** The body of Raycast, apart from the invariant. */
    method ClearAndCast(normalize: Vec -> Vec, deltaOf: Vec -> Vec)
      requires 0 < rayCount <= wallHeights.Length
      modifies this`redLines, this`greenLines, this`blueLines, this`points, this`redPoints, this`greenPoints, wallHeights
      ensures Lists() == FrameOverlay(CurrentView(), rayCount, normalize, deltaOf)
      ensures wallHeights[..] == FrameHeights(CurrentView(), rayCount, normalize, deltaOf, old(wallHeights[..]))
    {
      redLines, greenLines, blueLines := [], [], [];
      points, redPoints, greenPoints := [], [], [];
      FrameEmpty(CurrentView(), normalize, deltaOf);
      CastColumns(CurrentView(), wallHeights[..], normalize, deltaOf);
    }

    /** Raycast's loop over the screen columns, from the cleared lists. */
    method CastColumns(ghost v: View, ghost h0: seq<WallHeight>, normalize: Vec -> Vec, deltaOf: Vec -> Vec)
      requires v == CurrentView() && 0 < rayCount <= wallHeights.Length && wallHeights[..] == h0
      requires Lists() == FrameOverlay(v, 0, normalize, deltaOf)
      modifies this`redLines, this`greenLines, this`blueLines, this`points, this`redPoints, this`greenPoints, wallHeights
      ensures CurrentView() == v
      ensures Lists() == FrameOverlay(v, v.settings.rayCount, normalize, deltaOf)
      ensures wallHeights[..] == FrameHeights(v, v.settings.rayCount, normalize, deltaOf, h0)
    {
      var raydir := dir;
      var columnOnScreen := 0;
      while columnOnScreen < rayCount
        invariant 0 <= columnOnScreen <= rayCount <= wallHeights.Length
        invariant CurrentView() == v
        invariant Lists() == FrameOverlay(v, columnOnScreen, normalize, deltaOf)
        invariant wallHeights[..] == FrameHeights(v, columnOnScreen, normalize, deltaOf, h0)
        invariant rayCount == 1 ==> raydir == dir
      {
        raydir := CastFrameColumn(v, h0, columnOnScreen, raydir, normalize, deltaOf);
        columnOnScreen := columnOnScreen + 1;
      }
    }

    /** The body of Raycast's loop for column `column`: its camera x and, with several rays,
        its direction (with one ray it stays the player's); then the column is cast, which
        adds its marks to the frame so far and writes its height over slot `column`. */
    method CastFrameColumn(ghost v: View, ghost h0: seq<WallHeight>, column: int, raydir0: Vec,
                           normalize: Vec -> Vec, deltaOf: Vec -> Vec)
        returns (raydir: Vec)
      requires v == CurrentView() && 0 <= column < rayCount <= wallHeights.Length == |h0|
      requires rayCount == 1 ==> raydir0 == dir
      requires Lists() == FrameOverlay(v, column, normalize, deltaOf)
      requires wallHeights[..] == FrameHeights(v, column, normalize, deltaOf, h0)
      modifies this`redLines, this`greenLines, this`blueLines, this`points, this`redPoints, this`greenPoints, wallHeights
      ensures CurrentView() == v
      ensures Lists() == FrameOverlay(v, column + 1, normalize, deltaOf)
      ensures wallHeights[..] == FrameHeights(v, column + 1, normalize, deltaOf, h0)
      ensures rayCount == 1 ==> raydir == dir
    {
      var cameraX := (2.0 * column as real) / rayCount as real - 1.0;
      raydir := raydir0;
      if rayCount > 1 {
        raydir := normalize(Add(dir, Scale(plane, cameraX)));
      }
      assert cameraX == CameraX(column, v.settings.rayCount) && raydir == ColumnDir(v, column, normalize);
      CastColumn(v, column, raydir, cameraX, deltaOf);
      FrameSnoc(v, column, normalize, deltaOf);
    }

    /** One column of Raycast: set the ray along raydir up, optionally mark the
        pre-calculations, run the stepping loop, draw the ray in blue and store the
        column's wall height. */
    method CastColumn(ghost v: View, column: int, raydir: Vec, cameraX: real, deltaOf: Vec -> Vec)
      requires v == CurrentView() && 0 <= column < wallHeights.Length
      modifies this`redLines, this`greenLines, this`blueLines, this`points, this`redPoints, this`greenPoints, wallHeights
      ensures CurrentView() == v
      ensures Lists() == Join(old(Lists()), RayOverlay(v, RayAlong(v, raydir, deltaOf), cameraX))
      ensures wallHeights[..] == old(wallHeights[..])[column := WallHeightOf(RayPerp(v, RayAlong(v, raydir, deltaOf)))]
    {
      var deltas := deltaOf(raydir);
      var r := Ray(pos, raydir, deltas.x, deltas.y);
      var grid := Map();
      var mapStepX, mapStepY, start := SetUp(r, mapPosX, mapPosY);
      ghost var t := Trace(grid, r, start);
      assert r == RayAlong(v, raydir, deltaOf) && t == RayTrace(v, r);
      var o, northSouthSide, nextCollision, last := March(grid, r, start, mapStepX, mapStepY, LoopFlags(CurrentSettings()));
      PerpOfLastStep(r, t, northSouthSide, last);
      DrawColumn(v, r, start, cameraX, o, nextCollision);
      var perpWallDist := if northSouthSide then last.sideX - r.deltaX else last.sideY - r.deltaY;
      StoreHeight(v, column, WallHeightOf(perpWallDist));
    }

    /** mWallHeights[column] = wallHeight; nothing Raycast reads changes. */
    method StoreHeight(ghost v: View, column: int, h: WallHeight)
      requires v == CurrentView() && 0 <= column < wallHeights.Length
      modifies wallHeights
      ensures CurrentView() == v
      ensures wallHeights[..] == old(wallHeights[..])[column := h]
    {
      wallHeights[column] := h;
    }

    /** The marks of one column in the order Raycast adds them: the pre-calculations when
        shown, the stepping loop's marks `o`, then the blue lines. */
    method DrawColumn(ghost v: View, r: Ray, start: Cursor, cameraX: real, o: Overlay, nextCollision: Vec)
      requires v.pos == pos && v.plane == plane && v.settings == CurrentSettings()
      requires r.origin == pos && start == Start(r, v.mapX, v.mapY)
      requires var t := RayTrace(v, r);
               o == TraceOverlay(r, t, LoopFlags(v.settings)) && nextCollision == Collision(r, t[|t| - 1])
      modifies this`redLines, this`greenLines, this`blueLines, this`points, this`redPoints, this`greenPoints
      ensures CurrentView() == old(CurrentView())
      ensures Lists() == Join(old(Lists()), RayOverlay(v, r, cameraX))
    {
      ghost var l0 := Lists();
      ghost var pre := if showPreCalcSteps then PreCalcOverlay(pos, r.dir, start.sideX, start.sideY) else NoOverlay;
      if showPreCalcSteps {
        DrawPreCalcSteps(r.dir, start.sideX, start.sideY);
      } else {
        JoinNothing(l0);
      }
      Append(o);
      DrawRay(v, cameraX, nextCollision);
      RayOverlayParts(v, r, cameraX, l0, pre, o, nextCollision);
    }

    /** The blue lines of a column: the camera plane when shown, then the ray from its
        source to the last crossing. */
    method DrawRay(ghost v: View, cameraX: real, targetOfRay: Vec)
      requires v.pos == pos && v.plane == plane && v.settings == CurrentSettings()
      modifies this`blueLines
      ensures CurrentView() == old(CurrentView())
      ensures Lists() == Join(old(Lists()), BlueOnly(BlueLines(v, RaySource(v, cameraX), targetOfRay)))
    {
      var sourceOfRay := pos;
      if rayCount > 1 {
        sourceOfRay := Add(pos, Scale(plane, cameraX));
      }
      if showCameraPlane {
        blueLines := blueLines + [Segment(Add(pos, Scale(plane, -1.0)), Add(pos, Scale(plane, 1.0)))];
      }
      blueLines := blueLines + [Segment(sourceOfRay, targetOfRay)];
    }
  }
}
