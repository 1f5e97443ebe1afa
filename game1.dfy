/** Game1.cs: the earlier single-ray snapshot of the raycaster, on a 20 x 20 map with
    32-pixel cells and four display modes. Each frame reads the keyboard and casts one ray
    along the view direction through the DDA march of module Dda, filling the six debug
    lists; it keeps no wall heights. The square roots of deltaDist and the rotation matrix
    are floating-point library calls; they are parameters here. */
module Game1App {
  import opened Dda
  import Input
  import DebugInfo

  /** Extensions.UnitSize: pixels per map cell. */
  const UnitSize := 32
  const MapWidth := 20
  const MapHeight := 20
  /** mScreenWidth and mScreenHeight: the map at UnitSize pixels per cell. */
  const ScreenWidth := 640
  const ScreenHeight := 640

  // ---------------------------------------------------------------------------
  // Display modes

  datatype DisplayMode = Default | Precalculations | EqualDistanceSteps | Collisions

  const ModeCount := 4

  /** The enum's integer value, in declaration order. */
  function Ordinal(m: DisplayMode): (k: nat)
    ensures k < ModeCount
  {
    match m
    case Default => 0
    case Precalculations => 1
    case EqualDistanceSteps => 2
    case Collisions => 3
  }

  /** The cast from an integer back to the enum; it inverts Ordinal. */
  function FromOrdinal(k: nat): (m: DisplayMode)
    requires k < ModeCount
    ensures Ordinal(m) == k
  {
    if k == 0 then Default
    else if k == 1 then Precalculations
    else if k == 2 then EqualDistanceSteps
    else Collisions
  }

  /** The mode NextDisplayMode switches to: the next one in declaration order, wrapping
      from Collisions back to Default. */
  function Next(m: DisplayMode): (n: DisplayMode)
    ensures Ordinal(n) == (Ordinal(m) + 1) % ModeCount
  {
    FromOrdinal((Ordinal(m) + 1) % ModeCount)
  }

  /** The mode after k presses of Tab. */
  function Cycle(m: DisplayMode, k: nat): DisplayMode {
    if k == 0 then m else Next(Cycle(m, k - 1))
  }

  lemma {:induction false} CycleOrdinal(m: DisplayMode, k: nat)
    ensures Ordinal(Cycle(m, k)) == (Ordinal(m) + k) % ModeCount
  {
    if k > 0 {
      CycleOrdinal(m, k - 1);
      var a := Ordinal(m) + k - 1;
      var q := a / ModeCount;
      if a % ModeCount < ModeCount - 1 {
        Input.DivModUnique(a + 1, ModeCount, q, a % ModeCount + 1);
      } else {
        Input.DivModUnique(a + 1, ModeCount, q + 1, 0);
      }
    }
  }

  /** k presses of Tab restore the mode exactly when k is a multiple of four. */
  lemma CycleReturns(m: DisplayMode, k: nat)
    ensures Cycle(m, k) == m <==> k % ModeCount == 0
  {
    CycleOrdinal(m, k);
    if Ordinal(Cycle(m, k)) == Ordinal(m) {
      assert Cycle(m, k) == FromOrdinal(Ordinal(m));
    }
  }

  /** The display properties NextDisplayMode sets. */
  datatype Flags = Flags(preCalcSteps: bool, equalDistanceSteps: bool, collisionPoints: bool, gridSteps: bool)

  /** What each mode switches on: Default shows nothing, every other mode one kind of mark,
      Collisions its collision points together with the grid steps. */
  function FlagsFor(m: DisplayMode): (f: Flags)
    ensures f.preCalcSteps <==> m == Precalculations
    ensures f.equalDistanceSteps <==> m == EqualDistanceSteps
    ensures f.collisionPoints <==> m == Collisions
    ensures f.gridSteps <==> m == Collisions
  {
    match m
    case Default => Flags(false, false, false, false)
    case Precalculations => Flags(true, false, false, false)
    case EqualDistanceSteps => Flags(false, true, false, false)
    case Collisions => Flags(false, false, true, true)
  }

  /** The flags the stepping loop consults. */
  function LoopFlags(f: Flags): StepFlags {
    StepFlags(f.collisionPoints, f.equalDistanceSteps, f.gridSteps)
  }

  // ---------------------------------------------------------------------------
  // The frame's ray

  /** What Raycast reads: the map, the player's world position and map cell, the view
      direction and the display flags. */
  datatype View = View(grid: Grid, pos: Vec, mapX: int, mapY: int, dir: Vec, flags: Flags)

  /** The ray from the player along the view direction; `deltas` holds deltaDistX and
      deltaDistY, the two square roots computed for that direction. */
  function PlayerRay(v: View, deltas: Vec): Ray {
    Ray(v.pos, v.dir, deltas.x, deltas.y)
  }

  /** The loop iterations of the frame's ray, from the player's map cell. */
  function FrameTrace(v: View, deltas: Vec): (t: seq<Step>)
    ensures |t| >= 1
  {
    var r := PlayerRay(v, deltas);
    Trace(v.grid, r, Start(r, v.mapX, v.mapY))
  }

  /** With ShowPreCalcSteps: the first X crossing as a red point and the first Y crossing as
      a green point, nothing else. */
  function PreCalcPoints(origin: Vec, raydir: Vec, start: Cursor): Overlay {
    Overlay([], [], [], [], [Add(origin, Scale(raydir, start.sideX))], [Add(origin, Scale(raydir, start.sideY))])
  }

  /** The pre-calculation points of the frame, none without ShowPreCalcSteps. */
  function PreOf(v: View, deltas: Vec): Overlay {
    var r := PlayerRay(v, deltas);
    if v.flags.preCalcSteps then PreCalcPoints(v.pos, v.dir, Start(r, v.mapX, v.mapY)) else NoOverlay
  }

  /** The blue line from the collision that stopped the ray back to the player. */
  function BlueOf(v: View, deltas: Vec): Overlay {
    var t := FrameTrace(v, deltas);
    Overlay([], [], [Segment(Collision(PlayerRay(v, deltas), t[|t| - 1]), v.pos)], [], [], [])
  }

  /** The debug lists after Raycast: the pre-calculation points, the loop's marks, and the
      blue line. */
  function FrameMarks(v: View, deltas: Vec): Overlay {
    Join(Join(PreOf(v, deltas), TraceOverlay(PlayerRay(v, deltas), FrameTrace(v, deltas), LoopFlags(v.flags))),
         BlueOf(v, deltas))
  }

  /** The collision points of FrameMarks: the pre-calculation points, then the loop's. */
  lemma FrameMarksCollisionPoints(v: View, deltas: Vec)
    ensures var lo := TraceOverlay(PlayerRay(v, deltas), FrameTrace(v, deltas), LoopFlags(v.flags));
            var o := FrameMarks(v, deltas);
            o.redPoints == PreOf(v, deltas).redPoints + lo.redPoints &&
            o.greenPoints == PreOf(v, deltas).greenPoints + lo.greenPoints
  {
  }

  /** The cell centres of FrameMarks are the loop's. */
  lemma FrameMarksCentres(v: View, deltas: Vec)
    ensures FrameMarks(v, deltas).points == TraceOverlay(PlayerRay(v, deltas), FrameTrace(v, deltas), LoopFlags(v.flags)).points
  {
  }

  /** The only blue line of FrameMarks is BlueOf's. */
  lemma FrameMarksBlue(v: View, deltas: Vec)
    ensures FrameMarks(v, deltas).blueLines == BlueOf(v, deltas).blueLines
  {
    TraceOverlayShape(PlayerRay(v, deltas), FrameTrace(v, deltas), LoopFlags(v.flags));
  }

  /** The list lengths after Raycast are fixed by the flags and the step counts of the ray:
      one red (green) point per X-step (Y-step) with ShowCollisionPoints plus one each with
      ShowPreCalcSteps, one line per step of the matching axis with ShowEqualDistanceSteps,
      one cell centre per step with ShowGridSteps, and always exactly one blue line. */
  lemma FrameMarksShape(v: View, deltas: Vec)
    ensures var t := FrameTrace(v, deltas);
            var f := v.flags;
            var o := FrameMarks(v, deltas);
            |o.redPoints| == (if f.preCalcSteps then 1 else 0) + (if f.collisionPoints then XCount(t) else 0) &&
            |o.greenPoints| == (if f.preCalcSteps then 1 else 0) + (if f.collisionPoints then YCount(t) else 0) &&
            |o.redLines| == (if f.equalDistanceSteps then XCount(t) else 0) &&
            |o.greenLines| == (if f.equalDistanceSteps then YCount(t) else 0) &&
            |o.points| == (if f.gridSteps then |t| else 0) &&
            |o.blueLines| == 1
  {
    var r := PlayerRay(v, deltas);
    TraceOverlayShape(r, FrameTrace(v, deltas), LoopFlags(v.flags));
  }

  /** The one blue line runs from the point where the ray entered the first solid cell back
      to the player; every cell entered before it is empty. */
  lemma BlueLineFromHit(v: View, deltas: Vec)
    ensures var r := PlayerRay(v, deltas);
            var t := FrameTrace(v, deltas);
            var e := t[|t| - 1];
            FrameMarks(v, deltas).blueLines == [Segment(Collision(r, e), v.pos)] &&
            Solid(v.grid, e.after) && forall i :: 0 <= i < |t| - 1 ==> !Solid(v.grid, t[i].after)
  {
    var r := PlayerRay(v, deltas);
    TraceOverlayShape(r, FrameTrace(v, deltas), LoopFlags(v.flags));
  }

  /** With ShowCollisionPoints, when the ray hit the wall on an X-step, the blue line starts
      at the last red point drawn. */
  lemma BlueLineStartsAtLastRedPoint(v: View, deltas: Vec)
    requires v.flags.collisionPoints && var t := FrameTrace(v, deltas); t[|t| - 1].alongX
    ensures var o := FrameMarks(v, deltas);
            |o.redPoints| > 0 && o.redPoints[|o.redPoints| - 1] == o.blueLines[0].from
  {
    LastCollisionPoint(PlayerRay(v, deltas), FrameTrace(v, deltas), LoopFlags(v.flags));
    FrameMarksCollisionPoints(v, deltas);
    FrameMarksBlue(v, deltas);
  }

  /** With ShowCollisionPoints, when the ray hit the wall on a Y-step, the blue line starts
      at the last green point drawn. */
  lemma BlueLineStartsAtLastGreenPoint(v: View, deltas: Vec)
    requires v.flags.collisionPoints && var t := FrameTrace(v, deltas); !t[|t| - 1].alongX
    ensures var o := FrameMarks(v, deltas);
            |o.greenPoints| > 0 && o.greenPoints[|o.greenPoints| - 1] == o.blueLines[0].from
  {
    LastCollisionPoint(PlayerRay(v, deltas), FrameTrace(v, deltas), LoopFlags(v.flags));
    FrameMarksCollisionPoints(v, deltas);
    FrameMarksBlue(v, deltas);
  }

  /** With ShowGridSteps the cell centres are those of the cells entered, in order, the last
      one being the solid cell that stopped the ray. */
  lemma GridStepsEndAtHitCell(v: View, deltas: Vec)
    requires v.flags.gridSteps
    ensures var o := FrameMarks(v, deltas);
            var t := FrameTrace(v, deltas);
            |o.points| == |t| && (forall i :: 0 <= i < |t| ==> o.points[i] == CellCentre(t[i].after)) &&
            Solid(v.grid, t[|t| - 1].after)
  {
    var r := PlayerRay(v, deltas);
    var t := FrameTrace(v, deltas);
    var lo := TraceOverlay(r, t, LoopFlags(v.flags));
    var o := FrameMarks(v, deltas);
    FrameMarksCentres(v, deltas);
    TraceOverlayCentres(r, t, LoopFlags(v.flags));
    forall i | 0 <= i < |t| ensures o.points[i] == CellCentre(t[i].after) {
      assert o.points[i] == lo.points[i];
    }
  }

  /** With ShowPreCalcSteps the red (green) point placed before the loop is exactly where the
      loop's first X-step (Y-step) crosses its grid line. */
  lemma PreCalcPointsAreFirstCrossings(v: View, deltas: Vec, i: nat)
    requires v.flags.preCalcSteps && i < |FrameTrace(v, deltas)|
    ensures var o := FrameMarks(v, deltas);
            var r := PlayerRay(v, deltas);
            var t := FrameTrace(v, deltas);
            (t[i].alongX && (forall j :: 0 <= j < i ==> !t[j].alongX) ==> o.redPoints[0] == Collision(r, t[i])) &&
            (!t[i].alongX && (forall j :: 0 <= j < i ==> t[j].alongX) ==> o.greenPoints[0] == Collision(r, t[i]))
  {
    var r := PlayerRay(v, deltas);
    FirstCrossings(v.grid, r, Start(r, v.mapX, v.mapY), i);
    FrameMarksShape(v, deltas);
  }

  /** FrameMarks in the order Raycast builds it: the pre-calculation points, the loop's
      overlay, then the blue line. */
  lemma FrameMarksSteps(v: View, deltas: Vec, r: Ray, start: Cursor, pre: Overlay, o: Overlay, hit: Vec)
    requires r == PlayerRay(v, deltas) && start == Start(r, v.mapX, v.mapY)
    requires pre == if v.flags.preCalcSteps then PreCalcPoints(v.pos, v.dir, start) else NoOverlay
    requires var t := Trace(v.grid, r, start);
             o == TraceOverlay(r, t, LoopFlags(v.flags)) && hit == Collision(r, t[|t| - 1])
    ensures FrameMarks(v, deltas) == Join(Join(pre, o), Overlay([], [], [Segment(hit, v.pos)], [], [], []))
  {
  }

  /** The body of Raycast after the lists are cleared: set the ray along the view direction
      up, mark the first crossings when ShowPreCalcSteps is on, run the stepping loop and
      draw the ray in blue from its final collision back to the player. */
  method CastMarks(v: View, deltas: Vec) returns (marks: Overlay)
    ensures marks == FrameMarks(v, deltas)
  {
    var raydir := v.dir;
    var r := Ray(v.pos, raydir, deltas.x, deltas.y);
    var mapStepX, mapStepY, start := SetUp(r, v.mapX, v.mapY);
    // the lists were just cleared, so the pre-calculation points are all they hold
    marks := if v.flags.preCalcSteps then PreCalcPoints(v.pos, raydir, start) else NoOverlay;
    ghost var pre := marks;
    var o, northSouthSide, nextCollision, last := March(v.grid, r, start, mapStepX, mapStepY, LoopFlags(v.flags));
    marks := Join(marks, o);
    marks := Join(marks, Overlay([], [], [Segment(nextCollision, v.pos)], [], [], []));
    FrameMarksSteps(v, deltas, r, start, pre, o, nextCollision);
  }

  // ---------------------------------------------------------------------------
  // The map LoadMap builds

  /** Slot of cell (x, y) in the flat map: y * mMapWidth + x, without a bounds check. */
  function Slot(x: int, y: int): int {
    y * MapWidth + x
  }

  predicate Border(x: int, y: int) {
    x == 0 || y == 0 || x == MapWidth - 1 || y == MapHeight - 1
  }

  /** The value the nested loops store in slot i: 1 on the border, 0 inside. */
  function BorderAt(i: int): int {
    if Border(i % MapWidth, i / MapWidth) then 1 else 0
  }

  /** In range, (x, y) is the cell slot Slot(x, y) belongs to. */
  lemma SlotCoordinates(x: int, y: int)
    requires 0 <= x < MapWidth && 0 <= y < MapHeight
    ensures 0 <= Slot(x, y) < MapWidth * MapHeight
    ensures Slot(x, y) % MapWidth == x && Slot(x, y) / MapWidth == y
  {
    Input.DivModUnique(Slot(x, y), MapWidth, y, x);
  }

  /** The map after LoadMap: the walled border, then the five extra walls. */
  function LoadedMap(): (m: seq<int>)
    ensures |m| == MapWidth * MapHeight
  {
    seq(MapWidth * MapHeight, BorderAt)[Slot(14, 1) := 1][Slot(14, 2) := 1][Slot(14, 3) := 1][Slot(13, 3) := 1][Slot(12, 3) := 1]
  }

  /** The loaded map is 1 exactly on the border and on the five cells (14,1), (14,2), (14,3),
      (13,3), (12,3), which all lie inside this 20 x 20 map. */
  lemma LoadedMapCells(x: int, y: int)
    requires 0 <= x < MapWidth && 0 <= y < MapHeight
    ensures At(Grid(MapWidth, MapHeight, LoadedMap()), x, y)
            == if Border(x, y) || (x, y) in {(14, 1), (14, 2), (14, 3), (13, 3), (12, 3)} then 1 else 0
  {
    SlotCoordinates(x, y);
    var i := Slot(x, y);
    assert LoadedMap()[i] == if i in {34, 54, 74, 73, 72} then 1 else BorderAt(i);
    if i in {34, 54, 74, 73, 72} {
      assert (x, y) in {(14, 1), (14, 2), (14, 3), (13, 3), (12, 3)};
    }
  }

  /** Every cell outside the 20 x 20 grid and every border cell reads as a wall. */
  lemma LoadedMapClosed(x: int, y: int)
    requires !(1 <= x < MapWidth - 1 && 1 <= y < MapHeight - 1)
    ensures At(Grid(MapWidth, MapHeight, LoadedMap()), x, y) == 1
  {
    if 0 <= x < MapWidth && 0 <= y < MapHeight {
      LoadedMapCells(x, y);
    }
  }

  // ---------------------------------------------------------------------------
  // The game object

  class Game1 {
    var mode: DisplayMode
    var oldKeys: Input.KeyState
    /** mPlayerPixelPos: it starts on whole pixels and moves by whole pixels. */
    var pixelX: int
    var pixelY: int
    var dir: Vec
    var mapPosX: int
    var mapPosY: int
    var pos: Vec
    var debugInfo: DebugInfo.Table
    var redLines: seq<Segment>
    var greenLines: seq<Segment>
    var blueLines: seq<Segment>
    var points: seq<Vec>
    var redPoints: seq<Vec>
    var greenPoints: seq<Vec>
    var cells: array<int>
    var showPreCalcSteps: bool
    var showEqualDistanceSteps: bool
    var showCollisionPoints: bool
    var showGridSteps: bool

    /** The map has one slot per cell, the flags are those of the current mode and the
        debug table is consistent. */
    ghost predicate Valid()
      reads this`cells, this`debugInfo, this`mode, this`showPreCalcSteps, this`showEqualDistanceSteps,
            this`showCollisionPoints, this`showGridSteps
    {
      cells.Length == MapWidth * MapHeight && ModeShown() && DebugInfo.WellFormed(debugInfo)
    }

    /** The flags are those of the current mode. */
    predicate ModeShown()
      reads this`mode, this`showPreCalcSteps, this`showEqualDistanceSteps, this`showCollisionPoints, this`showGridSteps
    {
      CurrentFlags() == FlagsFor(mode)
    }

    function CurrentFlags(): Flags
      reads this`showPreCalcSteps, this`showEqualDistanceSteps, this`showCollisionPoints, this`showGridSteps
    {
      Flags(showPreCalcSteps, showEqualDistanceSteps, showCollisionPoints, showGridSteps)
    }

    function Lists(): Overlay
      reads this`redLines, this`greenLines, this`blueLines, this`points, this`redPoints, this`greenPoints
    {
      Overlay(redLines, greenLines, blueLines, points, redPoints, greenPoints)
    }

    function Map(): Grid
      reads this`cells, cells
    {
      Grid(MapWidth, MapHeight, cells[..])
    }

    /** What Raycast reads. */
    function CurrentView(): View
      reads this`cells, cells, this`pos, this`mapPosX, this`mapPosY, this`dir,
            this`showPreCalcSteps, this`showEqualDistanceSteps, this`showCollisionPoints, this`showGridSteps
    {
      View(Map(), pos, mapPosX, mapPosY, dir, CurrentFlags())
    }

    /** The constructor: the player at the screen centre facing `initialDir` (the normalised
        (2, 1)); the map cell and the world position keep their zero defaults until the
        first HandleInput. */
    constructor (initialDir: Vec)
      ensures Valid() && fresh(cells)
      ensures mode == Default && cells[..] == LoadedMap()
      ensures pixelX == ScreenWidth / 2 && pixelY == ScreenHeight / 2 && dir == initialDir
      ensures mapPosX == 0 && mapPosY == 0 && pos == Vec(0.0, 0.0)
      ensures Lists() == NoOverlay && debugInfo == DebugInfo.Empty && oldKeys == Input.NoKeys
    {
      mode := Default;
      oldKeys := Input.NoKeys;
      pixelX, pixelY := ScreenWidth / 2, ScreenHeight / 2;
      dir := initialDir;
      mapPosX, mapPosY := 0, 0;
      pos := Vec(0.0, 0.0);
      debugInfo := DebugInfo.Empty;
      redLines, greenLines, blueLines := [], [], [];
      points, redPoints, greenPoints := [], [], [];
      showPreCalcSteps, showEqualDistanceSteps, showCollisionPoints, showGridSteps := false, false, false, false;
      cells := new int[0];
      new;
      LoadMap();
    }

    /** LoadMap: a fresh map, walls along the border, then the five extra walls. */
    method LoadMap()
      modifies this`cells
      ensures fresh(cells) && cells[..] == LoadedMap()
    {
      cells := new int[MapWidth * MapHeight];
      var x := 0;
      while x < MapWidth
        invariant 0 <= x <= MapWidth && fresh(cells) && cells.Length == MapWidth * MapHeight
        invariant forall i :: 0 <= i < cells.Length && i % MapWidth < x ==> cells[i] == BorderAt(i)
      {
        var y := 0;
        while y < MapHeight
          invariant 0 <= y <= MapHeight && fresh(cells) && cells.Length == MapWidth * MapHeight
          invariant forall i :: 0 <= i < cells.Length && (i % MapWidth < x || (i % MapWidth == x && i / MapWidth < y))
                      ==> cells[i] == BorderAt(i)
        {
          var value := 0;
          if x == 0 || y == 0 || x == MapWidth - 1 || y == MapHeight - 1 {
            value := 1;
          }
          SlotCoordinates(x, y);
          SetMapAt(x, y, value);
          y := y + 1;
        }
        x := x + 1;
      }
      assert cells[..] == seq(MapWidth * MapHeight, BorderAt);
      SetMapAt(14, 1, 1);
      SetMapAt(14, 2, 1);
      SetMapAt(14, 3, 1);
      SetMapAt(13, 3, 1);
      SetMapAt(12, 3, 1);
    }

    /** SetMapAt: writes slot y * width + x and nothing else; the slot must exist. */
    method SetMapAt(x: int, y: int, value: int)
      requires 0 <= Slot(x, y) < cells.Length
      modifies cells
      ensures cells[..] == old(cells[..])[Slot(x, y) := value]
    {
      cells[Slot(x, y)] := value;
    }

    /** GetMapAt: the grid's cell value, 1 for any coordinate outside the map, including
        x == 20 or y == 20. */
    function GetMapAt(x: int, y: int): (r: int)
      reads this`cells, cells
      requires cells.Length == MapWidth * MapHeight
      ensures r == At(Map(), x, y)
      ensures !(0 <= x < MapWidth && 0 <= y < MapHeight) ==> r == 1
    {
      if x < 0 || x >= MapWidth || y < 0 || y >= MapHeight then 1 else cells[Slot(x, y)]
    }

    /** NextDisplayMode: the next mode in declaration order, with its flags. */
    method NextDisplayMode()
      modifies this`mode, this`showPreCalcSteps, this`showEqualDistanceSteps, this`showCollisionPoints, this`showGridSteps
      ensures mode == Next(old(mode)) && ModeShown()
    {
      mode := FromOrdinal((Ordinal(mode) + 1) % ModeCount);
      match mode
      case Default =>
        showPreCalcSteps, showEqualDistanceSteps, showCollisionPoints, showGridSteps := false, false, false, false;
      case Precalculations =>
        showPreCalcSteps, showEqualDistanceSteps, showCollisionPoints, showGridSteps := true, false, false, false;
      case EqualDistanceSteps =>
        showPreCalcSteps, showEqualDistanceSteps, showCollisionPoints, showGridSteps := false, true, false, false;
      case Collisions =>
        showPreCalcSteps, showEqualDistanceSteps, showCollisionPoints, showGridSteps := false, false, true, true;
    }

    /** Raycast: clear the debug lists, then add the marks of the frame's single ray;
        `deltaOf` gives deltaDistX and deltaDistY for a direction. */
    method Raycast(deltaOf: Vec -> Vec)
      requires Valid()
      modifies this`redLines, this`greenLines, this`blueLines, this`points, this`redPoints, this`greenPoints
      ensures Valid()
      ensures Lists() == FrameMarks(old(CurrentView()), deltaOf(old(dir)))
    {
      var v := CurrentView();
      Clear();
      var marks := CastMarks(v, deltaOf(v.dir));
      Append(marks);
    }

    /** Empty the six debug lists. */
    method Clear()
      modifies this`redLines, this`greenLines, this`blueLines, this`points, this`redPoints, this`greenPoints
      ensures Lists() == NoOverlay
    {
      redLines, greenLines, greenPoints := [], [], [];
      redPoints, blueLines, points := [], [], [];
    }

    /** Append o's lists to the debug lists, list by list. */
    method Append(o: Overlay)
      modifies this`redLines, this`greenLines, this`blueLines, this`points, this`redPoints, this`greenPoints
      ensures Lists() == Join(old(Lists()), o)
    {
      redLines, greenLines, blueLines := redLines + o.redLines, greenLines + o.greenLines, blueLines + o.blueLines;
      points, redPoints, greenPoints := points + o.points, redPoints + o.redPoints, greenPoints + o.greenPoints;
    }

    /** Display: overwrite the text of a label already shown, or add the label at the end. */
    method Display(key: string, text: string)
      requires Valid()
      modifies this`debugInfo
      ensures Valid()
      ensures debugInfo == DebugInfo.Upsert(old(debugInfo), key, text)
    {
      if key in debugInfo.entries {
        debugInfo := debugInfo.(entries := debugInfo.entries[key := text]);
      } else {
        debugInfo := DebugInfo.Table(debugInfo.order + [key], debugInfo.entries[key := text]);
      }
    }

    /** HandleInput without Escape and the game pad: Tab's rising edge switches the mode,
        the view turns (`rotate` stands for the rotation matrices of Q and E), the pixel
        position moves by the key move, the map cell is derived with truncating integer
        division and the world position with real division, and the key state is kept. */
    method HandleInput(keys: Input.KeyState, rotate: (Input.Turn, Vec) -> Vec)
      requires Valid()
      modifies this`mode, this`showPreCalcSteps, this`showEqualDistanceSteps, this`showCollisionPoints,
               this`showGridSteps, this`dir, this`pixelX, this`pixelY, this`mapPosX, this`mapPosY, this`pos, this`oldKeys
      ensures Valid() && ModeShown()
      ensures mode == if Input.TabPressed(keys, old(oldKeys)) then Next(old(mode)) else old(mode)
      ensures dir == Input.Rotated(keys, old(dir), rotate)
      // without Q or E the view keeps its direction
      ensures !keys.q && !keys.e ==> dir == old(dir)
      ensures pixelX == old(pixelX) + Input.MoveOf(keys).dx && pixelY == old(pixelY) + Input.MoveOf(keys).dy
      ensures mapPosX == Input.CellOf(pixelX, UnitSize) && mapPosY == Input.CellOf(pixelY, UnitSize)
      ensures pos == Vec(Input.WorldOf(pixelX, UnitSize), Input.WorldOf(pixelY, UnitSize))
      ensures oldKeys == keys
      // on non-negative pixels the world position lies in the derived cell
      ensures pixelX >= 0 ==> mapPosX as real <= pos.x < mapPosX as real + 1.0
      ensures pixelY >= 0 ==> mapPosY as real <= pos.y < mapPosY as real + 1.0
    {
      SwitchMode(keys);
      Steer(keys, rotate);
    }

    /** The Tab test of HandleInput: NextDisplayMode on Tab's rising edge only. */
    method SwitchMode(keys: Input.KeyState)
      requires ModeShown()
      modifies this`mode, this`showPreCalcSteps, this`showEqualDistanceSteps, this`showCollisionPoints, this`showGridSteps
      ensures ModeShown()
      ensures mode == if Input.TabPressed(keys, oldKeys) then Next(old(mode)) else old(mode)
    {
      if keys.tab && !oldKeys.tab {
        NextDisplayMode();
      }
    }

    /** The rest of HandleInput: turn, move, derive the map cell and world position, and
        remember the key state. */
    method Steer(keys: Input.KeyState, rotate: (Input.Turn, Vec) -> Vec)
      modifies this`dir, this`pixelX, this`pixelY, this`mapPosX, this`mapPosY, this`pos, this`oldKeys
      ensures dir == Input.Rotated(keys, old(dir), rotate)
      ensures !keys.q && !keys.e ==> dir == old(dir)
      ensures pixelX == old(pixelX) + Input.MoveOf(keys).dx && pixelY == old(pixelY) + Input.MoveOf(keys).dy
      ensures mapPosX == Input.CellOf(pixelX, UnitSize) && mapPosY == Input.CellOf(pixelY, UnitSize)
      ensures pos == Vec(Input.WorldOf(pixelX, UnitSize), Input.WorldOf(pixelY, UnitSize))
      ensures oldKeys == keys
      ensures pixelX >= 0 ==> mapPosX as real <= pos.x < mapPosX as real + 1.0
      ensures pixelY >= 0 ==> mapPosY as real <= pos.y < mapPosY as real + 1.0
    {
      var move := Input.MoveOf(keys);
      dir := Input.Rotated(keys, dir, rotate);
      pixelX, pixelY := pixelX + move.dx, pixelY + move.dy;
      mapPosX, mapPosY := Input.TruncDiv(pixelX, UnitSize), Input.TruncDiv(pixelY, UnitSize);
      pos := Vec(pixelX as real / UnitSize as real, pixelY as real / UnitSize as real);
      Input.CellContainsWorld(pixelX, UnitSize);
      Input.CellContainsWorld(pixelY, UnitSize);
      oldKeys := keys;
    }
  }
}
