/** The tile grid and the DDA ("digital differential analyser") ray march shared by
    both snapshots of the raycaster (Raycaster.cs and its single-ray predecessor Game1.cs).

    Distances are real numbers: the source's single-precision rounding is not modelled.
    The per-axis step lengths deltaDistX/deltaDistY come from a square root and are
    therefore inputs (fields of Ray), not computed here. */
module Dda {

  datatype Vec = Vec(x: real, y: real)

  function Add(a: Vec, b: Vec): Vec { Vec(a.x + b.x, a.y + b.y) }

  function Scale(a: Vec, k: real): Vec { Vec(a.x * k, a.y * k) }

  /** A line between two world points, as the debug overlay stores it (a Tuple of two Vector2). */
  datatype Segment = Segment(from: Vec, to: Vec)

  // ---------------------------------------------------------------------------
  // The tile grid: width by height cells kept in a flat array, row after row.

  datatype Grid = Grid(width: int, height: int, cells: seq<int>)

  predicate InRange(g: Grid, x: int, y: int) {
    0 <= x < g.width && 0 <= y < g.height
  }

  /** The flat array has exactly one slot per cell. */
  predicate WellSized(g: Grid) {
    g.width >= 0 && g.height >= 0 && |g.cells| == g.width * g.height
  }

  /** GetMapAt: the stored value inside the grid, the solid value 1 anywhere outside it.
      Cell (x, y) lives in slot y * width + x; a grid that is not WellSized reads 0 where
      that slot does not exist (the source's arrays always have every slot). */
  function At(g: Grid, x: int, y: int): int {
    if x < 0 || x >= g.width || y < 0 || y >= g.height then 1
    else if 0 <= y * g.width + x < |g.cells| then g.cells[y * g.width + x]
    else 0
  }

  /** Row y of a w-wide flat grid occupies the slots y * w .. y * w + w - 1. */
  lemma {:induction false} RowSlots(w: nat, h: nat, y: nat)
    requires y < h
    ensures 0 <= y * w && y * w + w <= w * h
    decreases h
  {
    if y < h - 1 {
      RowSlots(w, h - 1, y);
      assert w * h == w * (h - 1) + w;
    } else {
      assert y * w + w == (y + 1) * w;
    }
  }

  /** In a WellSized grid every in-range cell reads its own slot y * width + x. */
  lemma AtSlot(g: Grid, x: int, y: int)
    requires WellSized(g) && InRange(g, x, y)
    ensures 0 <= y * g.width + x < |g.cells| && At(g, x, y) == g.cells[y * g.width + x]
  {
    RowSlots(g.width, g.height, y);
  }

  // ---------------------------------------------------------------------------
  // Ray set-up

  /** A ray as the stepping loop sees it: the player's world position, the ray
      direction and the two per-axis step lengths. */
  datatype Ray = Ray(origin: Vec, dir: Vec, deltaX: real, deltaY: real)

  predicate PositiveDeltas(r: Ray) {
    r.deltaX > 0.0 && r.deltaY > 0.0
  }

  /** mapStepX / mapStepY: -1 for a negative component, +1 otherwise (zero included). */
  function StepOf(component: real): int {
    if component < 0.0 then -1 else 1
  }

  /** sideDistX / sideDistY before the loop: the intra-cell fraction towards the first
      grid line in the step direction, times the axis step length. */
  function InitialSide(pos: real, cell: int, component: real, delta: real): real {
    if component < 0.0 then (pos - cell as real) * delta
    else (cell as real + 1.0 - pos) * delta
  }

  /** The first grid line the ray crosses on one axis, starting in column/row `cell`. */
  function FirstLine(cell: int, step: int): int {
    if step > 0 then cell + 1 else cell
  }

  /** The initial side distance is the axis distance from the position to the first grid
      line in the step direction, scaled by delta; when the position lies in its cell
      (cell <= pos < cell + 1) it is between 0 and delta, and 0 only for a negative
      component starting exactly on the cell's low edge. */
  lemma InitialSideGeometry(pos: real, cell: int, component: real, delta: real)
    requires delta > 0.0
    ensures InitialSide(pos, cell, component, delta)
            == StepOf(component) as real * (FirstLine(cell, StepOf(component)) as real - pos) * delta
    ensures cell as real <= pos < cell as real + 1.0 ==>
              0.0 <= InitialSide(pos, cell, component, delta) <= delta &&
              (InitialSide(pos, cell, component, delta) == 0.0 <==> component < 0.0 && pos == cell as real)
  {
    var side := InitialSide(pos, cell, component, delta);
    if cell as real <= pos < cell as real + 1.0 {
      var f := if component < 0.0 then pos - cell as real else cell as real + 1.0 - pos;
      assert side == f * delta;
      assert 0.0 <= f <= 1.0;
      assert f * delta <= 1.0 * delta;
      assert side == 0.0 ==> f == 0.0;
    }
  }

  // ---------------------------------------------------------------------------
  // The stepping loop

  /** The loop variables mapX, mapY, sideDistX, sideDistY. */
  datatype Cursor = Cursor(mapX: int, mapY: int, sideX: real, sideY: real)

  /** One iteration: which axis was stepped (northSouthSide), the ray length at which the
      ray crossed the grid line, and the loop variables afterwards. */
  datatype Step = Step(alongX: bool, crossing: real, after: Cursor)

  /** nextCollision: the point where the ray crossed the grid line in step s. */
  function Collision(r: Ray, s: Step): Vec {
    Add(r.origin, Scale(r.dir, s.crossing))
  }

  function Start(r: Ray, mapX: int, mapY: int): Cursor {
    Cursor(mapX, mapY,
           InitialSide(r.origin.x, mapX, r.dir.x, r.deltaX),
           InitialSide(r.origin.y, mapY, r.dir.y, r.deltaY))
  }

  /** One loop iteration: the X axis is stepped only when sideDistX < sideDistY strictly;
      a tie steps Y. */
  function Advance(r: Ray, c: Cursor): Step {
    if c.sideX < c.sideY then
      Step(true, c.sideX, Cursor(c.mapX + StepOf(r.dir.x), c.mapY, c.sideX + r.deltaX, c.sideY))
    else
      Step(false, c.sideY, Cursor(c.mapX, c.mapY + StepOf(r.dir.y), c.sideX, c.sideY + r.deltaY))
  }

  /** Number of cells one axis can still move in its step direction before it leaves the grid. */
  function AxisRoom(m: int, step: int, size: int): nat {
    var k := if step > 0 then size - m else m + 1;
    if k > 0 then k else 0
  }

  /** The termination measure: a step into an empty cell always stays inside the grid
      and so uses up one unit of room on the stepped axis. */
  function Room(g: Grid, r: Ray, c: Cursor): nat {
    AxisRoom(c.mapX, StepOf(r.dir.x), g.width) + AxisRoom(c.mapY, StepOf(r.dir.y), g.height)
  }

  /** The loop's stop test: GetMapAt(mapX, mapY) > 0. */
  predicate Solid(g: Grid, c: Cursor) {
    At(g, c.mapX, c.mapY) > 0
  }

  /** The iterations the stepping loop performs from cursor c. It ends exactly on the first
      solid cell entered and every earlier cell it enters is empty; the starting cell itself
      is never looked up. Termination needs no closed border: outside the grid every cell reads
      as solid, so a step into an empty cell always uses up room inside the grid. */
  function Trace(g: Grid, r: Ray, c: Cursor): (t: seq<Step>)
    ensures |t| >= 1
    ensures Solid(g, t[|t| - 1].after)
    ensures forall i :: 0 <= i < |t| - 1 ==> !Solid(g, t[i].after)
    decreases Room(g, r, c)
  {
    var s := Advance(r, c);
    if Solid(g, s.after) then [s]
    else
      assert InRange(g, s.after.mapX, s.after.mapY);
      [s] + Trace(g, r, s.after)
  }

  /** The loop runs at most Room + 1 times: on a grid of width w and height h, a ray that
      starts inside it takes at most w + h + 1 steps. */
  lemma {:induction false} TraceLength(g: Grid, r: Ray, c: Cursor)
    ensures |Trace(g, r, c)| <= Room(g, r, c) + 1
    ensures InRange(g, c.mapX, c.mapY) ==> |Trace(g, r, c)| <= g.width + g.height + 1
    decreases Room(g, r, c)
  {
    var s := Advance(r, c);
    if !Solid(g, s.after) {
      assert InRange(g, s.after.mapX, s.after.mapY);
      TraceLength(g, r, s.after);
    }
  }

  /** The cursor before step i of t (the start cursor c for i == 0). */
  function Before(c: Cursor, t: seq<Step>, i: nat): Cursor
    requires i < |t|
  {
    if i == 0 then c else t[i - 1].after
  }

  /** The cursor after the steps t (c itself when there are none). */
  function Last(c: Cursor, t: seq<Step>): Cursor {
    if t == [] then c else t[|t| - 1].after
  }

  /** t is what the loop body produces from c, iteration after iteration. */
  predicate IsChain(r: Ray, c: Cursor, t: seq<Step>) {
    forall i {:trigger Before(c, t, i)} :: 0 <= i < |t| ==> t[i] == Advance(r, Before(c, t, i))
  }

  lemma {:induction false} TraceIsChain(g: Grid, r: Ray, c: Cursor)
    ensures IsChain(r, c, Trace(g, r, c))
    decreases Room(g, r, c)
  {
    var t := Trace(g, r, c);
    var s := Advance(r, c);
    if !Solid(g, s.after) {
      assert InRange(g, s.after.mapX, s.after.mapY);
      var t' := Trace(g, r, s.after);
      assert t == [s] + t';
      TraceIsChain(g, r, s.after);
      forall i | 1 <= i < |t|
        ensures t[i] == Advance(r, Before(c, t, i))
      {
        assert t[i] == t'[i - 1];
        assert Before(c, t, i) == Before(s.after, t', i - 1);
      }
    }
  }

  /** Each iteration moves exactly one map coordinate, by that axis's step, and adds that
      axis's delta to its side distance; the other axis is untouched. The axis is X exactly
      when sideDistX < sideDistY (a tie steps Y), and the ray crosses the grid line (at
      nextCollision) at the side distance the stepped axis had before the step. */
  lemma TraceSteps(g: Grid, r: Ray, c: Cursor, i: nat)
    requires i < |Trace(g, r, c)|
    ensures var t := Trace(g, r, c);
            var b := Before(c, t, i);
            var s := t[i];
            (s.alongX <==> b.sideX < b.sideY) &&
            (s.alongX ==> s.after == Cursor(b.mapX + StepOf(r.dir.x), b.mapY, b.sideX + r.deltaX, b.sideY)
                          && s.crossing == b.sideX) &&
            (!s.alongX ==> s.after == Cursor(b.mapX, b.mapY + StepOf(r.dir.y), b.sideX, b.sideY + r.deltaY)
                           && s.crossing == b.sideY)
  {
    TraceIsChain(g, r, c);
  }

  /** The other axis's side distance is untouched until that axis is first stepped, so the
      first X-step crosses its grid line at the initial sideDistX and the first Y-step at the
      initial sideDistY: the first crossings DrawPreCalcSteps marks are the loop's own. */
  lemma {:induction false} FirstCrossings(g: Grid, r: Ray, c: Cursor, i: nat)
    requires i < |Trace(g, r, c)|
    ensures var t := Trace(g, r, c);
            (t[i].alongX && (forall j :: 0 <= j < i ==> !t[j].alongX) ==> t[i].crossing == c.sideX) &&
            (!t[i].alongX && (forall j :: 0 <= j < i ==> t[j].alongX) ==> t[i].crossing == c.sideY)
    decreases i
  {
    var t := Trace(g, r, c);
    var s := Advance(r, c);
    if i > 0 {
      var t' := Trace(g, r, s.after);
      assert t == [s] + t';
      FirstCrossings(g, r, s.after, i - 1);
      assert t[i] == t'[i - 1];
      if t[i].alongX && (forall j :: 0 <= j < i ==> !t[j].alongX) {
        assert !t[0].alongX;
        forall j | 0 <= j < i - 1 ensures !t'[j].alongX { assert t'[j] == t[j + 1]; }
      }
      if !t[i].alongX && (forall j :: 0 <= j < i ==> t[j].alongX) {
        assert t[0].alongX;
        forall j | 0 <= j < i - 1 ensures t'[j].alongX { assert t'[j] == t[j + 1]; }
      }
    }
  }

  /** How many iterations of t stepped the X axis. */
  function XCount(t: seq<Step>): nat {
    if t == [] then 0 else XCount(t[..|t| - 1]) + (if t[|t| - 1].alongX then 1 else 0)
  }

  /** How many iterations of t stepped the Y axis. */
  function YCount(t: seq<Step>): nat {
    if t == [] then 0 else YCount(t[..|t| - 1]) + (if t[|t| - 1].alongX then 0 else 1)
  }

  /** Every iteration steps exactly one axis. */
  lemma {:induction false} CountsAddUp(t: seq<Step>)
    ensures XCount(t) + YCount(t) == |t|
  {
    if t != [] { CountsAddUp(t[..|t| - 1]); }
  }

  /** A coordinate after k steps of `step` (+1 or -1). */
  function Moved(m: int, step: int, k: nat): int {
    if step > 0 then m + k else m - k
  }

  /** A side distance after k more deltas. */
  function Grown(side: real, delta: real, k: nat): real {
    if k == 0 then side else Grown(side, delta, k - 1) + delta
  }

  lemma {:induction false} GrownClosedForm(side: real, delta: real, k: nat)
    ensures Grown(side, delta, k) == side + k as real * delta
  {
    if k > 0 {
      GrownClosedForm(side, delta, k - 1);
      assert (k - 1) as real * delta + delta == k as real * delta;
    }
  }

  /** Where a run of iterations leaves the loop variables: after kx X-steps and ky Y-steps,
      mapX has moved by kx steps and sideDistX has grown by kx deltas (likewise for Y), and
      the axis stepped last has been stepped at least once. */
  lemma {:induction false} ChainEnd(r: Ray, c: Cursor, t: seq<Step>)
    requires IsChain(r, c, t)
    ensures Last(c, t) == Cursor(Moved(c.mapX, StepOf(r.dir.x), XCount(t)),
                                 Moved(c.mapY, StepOf(r.dir.y), YCount(t)),
                                 Grown(c.sideX, r.deltaX, XCount(t)),
                                 Grown(c.sideY, r.deltaY, YCount(t)))
    ensures t != [] && t[|t| - 1].alongX ==> XCount(t) >= 1
    ensures t != [] && !t[|t| - 1].alongX ==> YCount(t) >= 1
  {
    if t != [] {
      var t0 := t[..|t| - 1];
      assert IsChain(r, c, t0) by {
        forall i | 0 <= i < |t0| ensures t0[i] == Advance(r, Before(c, t0, i)) {
          assert t0[i] == t[i] && Before(c, t0, i) == Before(c, t, i);
        }
      }
      ChainEnd(r, c, t0);
      var b := Last(c, t0);
      var s := t[|t| - 1];
      assert Before(c, t, |t| - 1) == b;
      assert s == Advance(r, b);
      assert t[..|t| - 1] == t0;
      if s.alongX {
        assert XCount(t) == XCount(t0) + 1 && YCount(t) == YCount(t0);
        assert s.after == Cursor(b.mapX + StepOf(r.dir.x), b.mapY, b.sideX + r.deltaX, b.sideY);
      } else {
        assert YCount(t) == YCount(t0) + 1 && XCount(t) == XCount(t0);
        assert s.after == Cursor(b.mapX, b.mapY + StepOf(r.dir.y), b.sideX, b.sideY + r.deltaY);
      }
    }
  }

  /** perpWallDist: the side distance of the last-stepped axis minus that axis's delta. */
  function PerpDist(r: Ray, t: seq<Step>): real
    requires |t| >= 1
  {
    var last := t[|t| - 1];
    if last.alongX then last.after.sideX - r.deltaX else last.after.sideY - r.deltaY
  }

  /** The face of the hit cell through which a ray stepping in direction `step` enters. */
  function EntryFace(cell: int, step: int): int {
    if step > 0 then cell else cell + 1
  }

  /** The distance from the player's position to the plane of the face through which the
      step e entered its cell, measured along the stepped axis and scaled by that axis's delta. */
  function WallPlaneDistance(r: Ray, e: Step): real {
    if e.alongX
    then StepOf(r.dir.x) as real * (EntryFace(e.after.mapX, StepOf(r.dir.x)) as real - r.origin.x) * r.deltaX
    else StepOf(r.dir.y) as real * (EntryFace(e.after.mapY, StepOf(r.dir.y)) as real - r.origin.y) * r.deltaY
  }

  /** One axis of PerpIsWallPlaneDistance: k >= 1 steps from `cell` leave the side distance
      one delta past the entry face of the last cell entered. */
  lemma AxisWallDistance(pos: real, cell: int, component: real, k: nat, delta: real)
    requires k >= 1 && delta > 0.0
    ensures var step := StepOf(component);
            Grown(InitialSide(pos, cell, component, delta), delta, k) - delta
              == step as real * (EntryFace(Moved(cell, step, k), step) as real - pos) * delta
    ensures cell as real <= pos < cell as real + 1.0 ==>
              Grown(InitialSide(pos, cell, component, delta), delta, k) - delta >= 0.0
  {
    var side := InitialSide(pos, cell, component, delta);
    GrownClosedForm(side, delta, k);
    var f := if component < 0.0 then pos - cell as real else cell as real + 1.0 - pos;
    assert side == f * delta;
    var step := StepOf(component);
    assert step as real * (EntryFace(Moved(cell, step, k), step) as real - pos) == f + (k - 1) as real;
    assert f * delta + k as real * delta - delta == (f + (k - 1) as real) * delta;
    if cell as real <= pos < cell as real + 1.0 {
      assert f + (k - 1) as real >= 0.0;
    }
  }

  /** PerpIsWallPlaneDistance for any run of loop iterations from the start cursor. */
  lemma ChainPerpDist(r: Ray, mapX: int, mapY: int, t: seq<Step>)
    requires PositiveDeltas(r) && |t| >= 1 && IsChain(r, Start(r, mapX, mapY), t)
    ensures PerpDist(r, t) == WallPlaneDistance(r, t[|t| - 1])
    ensures mapX as real <= r.origin.x < mapX as real + 1.0 &&
            mapY as real <= r.origin.y < mapY as real + 1.0
            ==> PerpDist(r, t) >= 0.0
  {
    var c := Start(r, mapX, mapY);
    ChainEnd(r, c, t);
    var e := t[|t| - 1];
    assert Last(c, t) == e.after;
    if e.alongX {
      AxisWallDistance(r.origin.x, mapX, r.dir.x, XCount(t), r.deltaX);
      assert e.after.sideX == Grown(c.sideX, r.deltaX, XCount(t));
      assert e.after.mapX == Moved(mapX, StepOf(r.dir.x), XCount(t));
    } else {
      AxisWallDistance(r.origin.y, mapY, r.dir.y, YCount(t), r.deltaY);
      assert e.after.sideY == Grown(c.sideY, r.deltaY, YCount(t));
      assert e.after.mapY == Moved(mapY, StepOf(r.dir.y), YCount(t));
    }
  }

  /** The perpendicular wall distance obtained by undoing the last increment equals the
      axis distance from the player to the face of the hit cell the ray entered, scaled by
      that axis's delta; it is never negative while the player lies inside the cell the
      march starts from. */
  lemma PerpIsWallPlaneDistance(g: Grid, r: Ray, mapX: int, mapY: int)
    requires PositiveDeltas(r)
    ensures var t := Trace(g, r, Start(r, mapX, mapY));
            PerpDist(r, t) == WallPlaneDistance(r, t[|t| - 1])
    ensures mapX as real <= r.origin.x < mapX as real + 1.0 &&
            mapY as real <= r.origin.y < mapY as real + 1.0
            ==> PerpDist(r, Trace(g, r, Start(r, mapX, mapY))) >= 0.0
  {
    TraceIsChain(g, r, Start(r, mapX, mapY));
    ChainPerpDist(r, mapX, mapY, Trace(g, r, Start(r, mapX, mapY)));
  }

  // ---------------------------------------------------------------------------
  // The debug overlay lists the loop fills

  /** The six debug lists of one frame (mRedLines, mGreenLines, mBlueLines, mPoints,
      mRedPoints, mGreenPoints). */
  datatype Overlay = Overlay(redLines: seq<Segment>, greenLines: seq<Segment>, blueLines: seq<Segment>,
                             points: seq<Vec>, redPoints: seq<Vec>, greenPoints: seq<Vec>)

  const NoOverlay := Overlay([], [], [], [], [], [])

  /** Appending list by list. */
  function Join(a: Overlay, b: Overlay): Overlay {
    Overlay(a.redLines + b.redLines, a.greenLines + b.greenLines, a.blueLines + b.blueLines,
            a.points + b.points, a.redPoints + b.redPoints, a.greenPoints + b.greenPoints)
  }

  /** The display flags the loop body consults. */
  datatype StepFlags = StepFlags(collisionPoints: bool, equalDistanceSteps: bool, gridSteps: bool)

  /** Centre of a grid cell, in world units. */
  function CellCentre(c: Cursor): Vec {
    Vec(c.mapX as real + 0.5, c.mapY as real + 0.5)
  }

  /** What one loop iteration appends: an X-step gives a red collision point and a red line
      across to the player's column, a Y-step a green point and a green line across to the
      player's row; every step may add the centre of the cell just entered. */
  function StepOverlay(r: Ray, s: Step, f: StepFlags): Overlay {
    var p := Collision(r, s);
    Overlay(if s.alongX && f.equalDistanceSteps then [Segment(p, Vec(r.origin.x, p.y))] else [],
            if !s.alongX && f.equalDistanceSteps then [Segment(p, Vec(p.x, r.origin.y))] else [],
            [],
            if f.gridSteps then [CellCentre(s.after)] else [],
            if s.alongX && f.collisionPoints then [p] else [],
            if !s.alongX && f.collisionPoints then [p] else [])
  }

  /** Everything the loop appends over the iterations t, in order. */
  function TraceOverlay(r: Ray, t: seq<Step>, f: StepFlags): Overlay {
    if t == [] then NoOverlay else Join(TraceOverlay(r, t[..|t| - 1], f), StepOverlay(r, t[|t| - 1], f))
  }

  /** The list lengths are fixed by the step counts and the flags: one red point (and red
      line) per X-step, one green point (and green line) per Y-step, no blue line, and one
      cell centre per step with ShowGridSteps. */
  lemma {:induction false} TraceOverlayShape(r: Ray, t: seq<Step>, f: StepFlags)
    ensures var o := TraceOverlay(r, t, f);
            |o.redPoints| == (if f.collisionPoints then XCount(t) else 0) &&
            |o.greenPoints| == (if f.collisionPoints then YCount(t) else 0) &&
            |o.redLines| == (if f.equalDistanceSteps then XCount(t) else 0) &&
            |o.greenLines| == (if f.equalDistanceSteps then YCount(t) else 0) &&
            o.blueLines == [] &&
            |o.points| == (if f.gridSteps then |t| else 0)
  {
    if t != [] {
      var t0 := t[..|t| - 1];
      var e := t[|t| - 1];
      TraceOverlayShape(r, t0, f);
      var o0 := TraceOverlay(r, t0, f);
      var so := StepOverlay(r, e, f);
      assert TraceOverlay(r, t, f) == Join(o0, so);
      assert XCount(t) == XCount(t0) + (if e.alongX then 1 else 0);
      assert YCount(t) == YCount(t0) + (if e.alongX then 0 else 1);
    }
  }

  /** With ShowGridSteps the cell centres are exactly the centres of the cells entered, in order. */
  lemma {:induction false} TraceOverlayCentres(r: Ray, t: seq<Step>, f: StepFlags)
    requires f.gridSteps
    ensures var o := TraceOverlay(r, t, f);
            |o.points| == |t| && forall i :: 0 <= i < |t| ==> o.points[i] == CellCentre(t[i].after)
  {
    if t != [] {
      var t0 := t[..|t| - 1];
      TraceOverlayCentres(r, t0, f);
      var o0 := TraceOverlay(r, t0, f);
      var o := TraceOverlay(r, t, f);
      assert o.points == o0.points + [CellCentre(t[|t| - 1].after)];
      forall i | 0 <= i < |t| ensures o.points[i] == CellCentre(t[i].after) {
        if i < |t| - 1 {
          assert o.points[i] == o0.points[i];
          assert t0[i] == t[i];
        }
      }
    }
  }

  /** With ShowCollisionPoints the last collision point recorded is the crossing of the
      last step: a red point after an X-step, a green point after a Y-step. */
  lemma LastCollisionPoint(r: Ray, t: seq<Step>, f: StepFlags)
    requires |t| >= 1 && f.collisionPoints
    ensures var o := TraceOverlay(r, t, f);
            var e := t[|t| - 1];
            (e.alongX ==> |o.redPoints| > 0 && o.redPoints[|o.redPoints| - 1] == Collision(r, e)) &&
            (!e.alongX ==> |o.greenPoints| > 0 && o.greenPoints[|o.greenPoints| - 1] == Collision(r, e))
  {
    var o0 := TraceOverlay(r, t[..|t| - 1], f);
    assert TraceOverlay(r, t, f) == Join(o0, StepOverlay(r, t[|t| - 1], f));
  }

  /** No cell entered by the first n steps of t is solid. */
  predicate EmptyBefore(g: Grid, t: seq<Step>, n: nat)
    requires n <= |t|
  {
    forall i :: 0 <= i < n ==> !Solid(g, t[i].after)
  }

  /** Appending the next iteration keeps a chain a chain. */
  lemma ChainSnoc(r: Ray, c: Cursor, t: seq<Step>)
    requires IsChain(r, c, t)
    ensures IsChain(r, c, t + [Advance(r, Last(c, t))])
  {
    var t' := t + [Advance(r, Last(c, t))];
    forall i | 0 <= i < |t'| ensures t'[i] == Advance(r, Before(c, t', i)) {
      if i < |t| {
        assert Before(c, t', i) == Before(c, t, i);
      } else {
        assert Before(c, t', i) == Last(c, t);
      }
    }
  }

  /** Trace is the only run of the loop body that stops exactly at its first solid cell:
      any chain of iterations whose last cell is solid and whose earlier cells are all
      empty is the trace. */
  lemma {:induction false} ChainIsTrace(g: Grid, r: Ray, c: Cursor, t: seq<Step>)
    requires IsChain(r, c, t) && |t| >= 1 && Solid(g, t[|t| - 1].after) && EmptyBefore(g, t, |t| - 1)
    ensures Trace(g, r, c) == t
    decreases |t|
  {
    var s := Advance(r, c);
    assert t[0] == Advance(r, Before(c, t, 0));
    if |t| == 1 {
      assert Trace(g, r, c) == [s];
    } else {
      assert !Solid(g, t[0].after);
      assert InRange(g, s.after.mapX, s.after.mapY);
      var t' := t[1..];
      assert IsChain(r, s.after, t') by {
        forall i | 0 <= i < |t'| ensures t'[i] == Advance(r, Before(s.after, t', i)) {
          assert t'[i] == t[i + 1];
          assert Before(s.after, t', i) == Before(c, t, i + 1);
        }
      }
      assert EmptyBefore(g, t', |t'| - 1) by {
        forall i | 0 <= i < |t'| - 1 ensures !Solid(g, t'[i].after) {
          assert t'[i] == t[i + 1];
        }
      }
      assert t'[|t'| - 1] == t[|t| - 1];
      ChainIsTrace(g, r, s.after, t');
      assert t == [s] + t';
    }
  }

  /** What the loop has established after the steps t: while it runs, every cell entered
      is empty; once it has stopped, the last cell entered is solid and all earlier ones
      are empty. */
  predicate Stopped(g: Grid, t: seq<Step>, hitWall: bool) {
    if hitWall then t != [] && Solid(g, t[|t| - 1].after) && EmptyBefore(g, t, |t| - 1)
    else EmptyBefore(g, t, |t|)
  }

  /** One more iteration of a running loop: the chain grows by the next step, the loop stops
      exactly when that step enters a solid cell, and otherwise the room left shrinks. */
  lemma MarchStep(g: Grid, r: Ray, c: Cursor, t: seq<Step>)
    requires IsChain(r, c, t) && Stopped(g, t, false)
    ensures var s := Advance(r, Last(c, t));
            IsChain(r, c, t + [s]) && Stopped(g, t + [s], Solid(g, s.after)) &&
            Last(c, t + [s]) == s.after &&
            (!Solid(g, s.after) ==> Room(g, r, s.after) < Room(g, r, Last(c, t)))
  {
    var s := Advance(r, Last(c, t));
    ChainSnoc(r, c, t);
    var t' := t + [s];
    assert forall i :: 0 <= i < |t| ==> t'[i] == t[i];
    if !Solid(g, s.after) {
      assert InRange(g, s.after.mapX, s.after.mapY);
    }
  }

  lemma TraceOverlaySnoc(r: Ray, t: seq<Step>, s: Step, f: StepFlags)
    ensures TraceOverlay(r, t + [s], f) == Join(TraceOverlay(r, t, f), StepOverlay(r, s, f))
  {
    assert (t + [s])[..|t|] == t;
  }

  /** The loop invariant of March after the iterations t: t is a chain from start ending
      at the cursor c, stopped exactly when hitWall says, the axis and crossing point are
      those of the last step, and the debug lists are those of TraceOverlay. */
  predicate Marching(g: Grid, r: Ray, start: Cursor, f: StepFlags, t: seq<Step>, hitWall: bool,
                     c: Cursor, alongX: bool, p: Vec, o: Overlay) {
    Last(start, t) == c && IsChain(r, start, t) && Stopped(g, t, hitWall) &&
    (t != [] ==> alongX == t[|t| - 1].alongX && p == Collision(r, t[|t| - 1])) &&
    o == TraceOverlay(r, t, f)
  }

  /** One iteration of a running loop re-establishes Marching with the next step. */
  lemma MarchAdvance(g: Grid, r: Ray, start: Cursor, f: StepFlags, t: seq<Step>,
                     c: Cursor, alongX: bool, p: Vec, o: Overlay,
                     hitWall': bool, c': Cursor, alongX': bool, p': Vec, o': Overlay)
    requires Marching(g, r, start, f, t, false, c, alongX, p, o)
    requires var s := Advance(r, c);
             c' == s.after && alongX' == s.alongX && p' == Collision(r, s) && hitWall' == Solid(g, c') &&
             o' == Join(o, StepOverlay(r, s, f))
    ensures Marching(g, r, start, f, t + [Advance(r, c)], hitWall', c', alongX', p', o')
    ensures !hitWall' ==> Room(g, r, c') < Room(g, r, c)
  {
    var s := Advance(r, c);
    MarchStep(g, r, start, t);
    TraceOverlaySnoc(r, t, s, f);
    var t' := t + [s];
    assert t'[|t'| - 1] == s;
  }

  // ---------------------------------------------------------------------------
  // The loop itself

  /** The ray set-up of Raycast: the per-axis steps and the initial side distances, then
      the stepping loop. It performs exactly the iterations Trace describes and returns the
      debug lists of TraceOverlay, the axis of the last step, the last crossing point and
      the final loop variables. */
  method CastRay(g: Grid, r: Ray, mapX: int, mapY: int, f: StepFlags)
      returns (o: Overlay, northSouthSide: bool, nextCollision: Vec, last: Cursor)
    ensures var t := Trace(g, r, Start(r, mapX, mapY));
            var e := t[|t| - 1];
            o == TraceOverlay(r, t, f) && northSouthSide == e.alongX &&
            nextCollision == Collision(r, e) && last == e.after
  {
    var mapStepX, mapStepY, start := SetUp(r, mapX, mapY);
    o, northSouthSide, nextCollision, last := March(g, r, start, mapStepX, mapStepY, f);
  }

  /** Before the loop: the per-axis map steps and the loop variables with their initial
      side distances. */
  method SetUp(r: Ray, mapX: int, mapY: int) returns (mapStepX: int, mapStepY: int, start: Cursor)
    ensures mapStepX == StepOf(r.dir.x) && mapStepY == StepOf(r.dir.y)
    ensures start == Start(r, mapX, mapY)
  {
    var sideDistX, sideDistY: real;
    if r.dir.x < 0.0 {
      mapStepX := -1;
      sideDistX := (r.origin.x - mapX as real) * r.deltaX;
    } else {
      mapStepX := 1;
      sideDistX := (mapX as real + 1.0 - r.origin.x) * r.deltaX;
    }
    if r.dir.y < 0.0 {
      mapStepY := -1;
      sideDistY := (r.origin.y - mapY as real) * r.deltaY;
    } else {
      mapStepY := 1;
      sideDistY := (mapY as real + 1.0 - r.origin.y) * r.deltaY;
    }
    start := Cursor(mapX, mapY, sideDistX, sideDistY);
  }

  /** The `while (!hitWall)` loop: from the loop variables in `start`, step the axis with
      the smaller side distance until a solid cell is entered, appending to the debug lists. */
  method March(g: Grid, r: Ray, start: Cursor, mapStepX: int, mapStepY: int, f: StepFlags)
      returns (o: Overlay, northSouthSide: bool, nextCollision: Vec, last: Cursor)
    requires mapStepX == StepOf(r.dir.x) && mapStepY == StepOf(r.dir.y)
    ensures var t := Trace(g, r, start);
            var e := t[|t| - 1];
            o == TraceOverlay(r, t, f) && northSouthSide == e.alongX &&
            nextCollision == Collision(r, e) && last == e.after
  {
    var mapX, mapY, sideDistX, sideDistY := start.mapX, start.mapY, start.sideX, start.sideY;
    ghost var steps: seq<Step> := [];
    o := NoOverlay;
    northSouthSide := false;
    nextCollision := Vec(0.0, 0.0);
    var hitWall := false;
    while !hitWall
      invariant Marching(g, r, start, f, steps, hitWall, Cursor(mapX, mapY, sideDistX, sideDistY), northSouthSide, nextCollision, o)
      decreases if hitWall then 0 else Room(g, r, Cursor(mapX, mapY, sideDistX, sideDistY)) + 1
    {
      ghost var c0, nss0, nc0, o0 := Cursor(mapX, mapY, sideDistX, sideDistY), northSouthSide, nextCollision, o;
      mapX, mapY, sideDistX, sideDistY, northSouthSide, nextCollision, hitWall, o :=
        Iterate(g, r, mapStepX, mapStepY, f, mapX, mapY, sideDistX, sideDistY, o);
      MarchAdvance(g, r, start, f, steps, c0, nss0, nc0, o0, hitWall, Cursor(mapX, mapY, sideDistX, sideDistY),
                   northSouthSide, nextCollision, o);
      steps := steps + [Advance(r, c0)];
    }
    ChainIsTrace(g, r, start, steps);
    last := Cursor(mapX, mapY, sideDistX, sideDistY);
  }

  /** One pass of the loop body: step the axis whose side distance is strictly smaller
      (a tie steps Y), record the crossing point and what the debug flags ask for, and
      test the cell entered. */
  method Iterate(g: Grid, r: Ray, mapStepX: int, mapStepY: int, f: StepFlags,
                 mapX: int, mapY: int, sideDistX: real, sideDistY: real, o: Overlay)
      returns (mapX': int, mapY': int, sideDistX': real, sideDistY': real,
               northSouthSide: bool, nextCollision: Vec, hitWall: bool, o': Overlay)
    requires mapStepX == StepOf(r.dir.x) && mapStepY == StepOf(r.dir.y)
    ensures var s := Advance(r, Cursor(mapX, mapY, sideDistX, sideDistY));
            Cursor(mapX', mapY', sideDistX', sideDistY') == s.after && northSouthSide == s.alongX &&
            nextCollision == Collision(r, s) && hitWall == Solid(g, s.after) &&
            o' == Join(o, StepOverlay(r, s, f))
  {
    mapX', mapY', sideDistX', sideDistY', o' := mapX, mapY, sideDistX, sideDistY, o;
    if sideDistX < sideDistY {
      nextCollision := Add(r.origin, Scale(r.dir, sideDistX));
      if f.collisionPoints {
        o' := o'.(redPoints := o'.redPoints + [nextCollision]);
      }
      if f.equalDistanceSteps {
        o' := o'.(redLines := o'.redLines + [Segment(nextCollision, Vec(r.origin.x, nextCollision.y))]);
      }
      mapX' := mapX + mapStepX;
      northSouthSide := true;
      sideDistX' := sideDistX + r.deltaX;
    } else {
      nextCollision := Add(r.origin, Scale(r.dir, sideDistY));
      if f.collisionPoints {
        o' := o'.(greenPoints := o'.greenPoints + [nextCollision]);
      }
      if f.equalDistanceSteps {
        o' := o'.(greenLines := o'.greenLines + [Segment(nextCollision, Vec(nextCollision.x, r.origin.y))]);
      }
      mapY' := mapY + mapStepY;
      northSouthSide := false;
      sideDistY' := sideDistY + r.deltaY;
    }
    if f.gridSteps {
      o' := o'.(points := o'.points + [Vec(mapX' as real + 0.5, mapY' as real + 0.5)]);
    }
    hitWall := false;
    if At(g, mapX', mapY') > 0 {
      hitWall := true;
    }
  }
}
