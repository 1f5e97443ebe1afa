/** Per-frame keyboard handling shared by both snapshots: the move vector, the Tab rising
    edge, the turn selection and the derivation of the player's map cell and world position
    from the pixel position. The keyboard itself is polled by the framework; here a frame's
    key state is a value. */
module Input {

  /** The keys HandleInput consults, true while held down. */
  datatype KeyState = KeyState(tab: bool, a: bool, d: bool, w: bool, s: bool, q: bool, e: bool)

  /** The framework's initial keyboard state: nothing held. */
  const NoKeys := KeyState(false, false, false, false, false, false, false)

  /** Tab was pressed this frame: down now, up in the state remembered from the last frame. */
  predicate TabPressed(now: KeyState, before: KeyState) {
    now.tab && !before.tab
  }

  /** The whole-pixel move of one frame: A subtracts one from x, D adds one, W subtracts one
      from y, S adds one. */
  datatype Move = Move(dx: int, dy: int)

  function Axis(minus: bool, plus: bool): int {
    (if plus then 1 else 0) - (if minus then 1 else 0)
  }

  function MoveOf(k: KeyState): (m: Move)
    ensures -1 <= m.dx <= 1 && -1 <= m.dy <= 1
    // opposite keys cancel; a single key moves one pixel its way
    ensures m.dx == 0 <==> k.a == k.d
    ensures m.dx < 0 <==> k.a && !k.d
    ensures m.dy == 0 <==> k.w == k.s
    ensures m.dy < 0 <==> k.w && !k.s
  {
    Move(Axis(k.a, k.d), Axis(k.w, k.s))
  }

  /** The rotation chosen for the frame: Q turns by -2 degrees, E by +2 degrees. */
  datatype Turn = Straight | TurnQ | TurnE

  function TurnOf(k: KeyState): (t: Turn)
    // Q takes precedence when both are held
    ensures t == TurnQ <==> k.q
    ensures t == TurnE <==> !k.q && k.e
    ensures t == Straight <==> !k.q && !k.e
  {
    if k.q then TurnQ else if k.e then TurnE else Straight
  }

  /** The new view direction d': the rotation matrix stays the identity unless Q or E is
      held, and `rotate` stands for the rotation matrices of the two turns. */
  function Rotated<V>(k: KeyState, d: V, rotate: (Turn, V) -> V): (r: V)
    ensures !k.q && !k.e ==> r == d
    ensures k.q ==> r == rotate(TurnQ, d)
    ensures !k.q && k.e ==> r == rotate(TurnE, d)
  {
    var t := TurnOf(k);
    if t == Straight then d else rotate(t, d)
  }

  /** C#'s integer division, which truncates toward zero (Dafny's / on int is Euclidean). */
  function TruncDiv(a: int, b: int): int
    requires b > 0
  {
    if a >= 0 then a / b else -((-a) / b)
  }

  /** Euclidean division of a natural number: the quotient's multiple of b is within b below n. */
  lemma DivBounds(n: int, b: int)
    requires n >= 0 && b > 0
    ensures 0 <= (n / b) * b <= n < (n / b) * b + b
  {
    var q := n / b;
    assert n == q * b + n % b;
    assert q >= 0;
  }

  /** TruncDiv rounds toward zero: the quotient's multiple of b lies between 0 and a, within
      one b of a. */
  lemma TruncDivRoundsTowardZero(a: int, b: int)
    requires b > 0
    ensures var q := TruncDiv(a, b);
            (a >= 0 ==> 0 <= q * b <= a < q * b + b) &&
            (a < 0 ==> q * b - b < a <= q * b <= 0)
  {
    if a >= 0 {
      DivBounds(a, b);
    } else {
      DivBounds(-a, b);
      var m := ((-a) / b) * b;
      assert TruncDiv(a, b) * b == -m;
    }
  }

  lemma {:induction false} MultipleAtLeast(k: int, b: int)
    requires k >= 1 && b > 0
    ensures k * b >= b && (-k) * b <= -b
  {
    if k > 1 {
      MultipleAtLeast(k - 1, b);
      assert k * b == (k - 1) * b + b;
    }
  }

  lemma SmallMultiple(k: int, b: int)
    requires b > 0 && -b < k * b < b
    ensures k == 0
  {
    if k >= 1 {
      MultipleAtLeast(k, b);
    } else if k <= -1 {
      MultipleAtLeast(-k, b);
    }
  }

  lemma DivModUnique(a: int, b: int, q: int, r: int)
    requires b > 0 && a == q * b + r && 0 <= r < b
    ensures a / b == q && a % b == r
  {
    var q' := a / b;
    var r' := a % b;
    assert a == q' * b + r' && 0 <= r' < b;
    assert (q - q') * b == r' - r;
    SmallMultiple(q - q', b);
  }

  lemma ModOfNegation(n: int, b: int)
    requires b > 0 && n > 0
    ensures (-n) % b == 0 <==> n % b == 0
  {
    var q := n / b;
    var r := n % b;
    assert n == q * b + r;
    if r == 0 {
      DivModUnique(-n, b, -q, 0);
    } else {
      DivModUnique(-n, b, -q - 1, b - r);
    }
  }

  /** mPlayerMapPos: the pixel coordinate converted to whole cells with truncating division. */
  function CellOf(pixel: int, unit: int): int
    requires unit > 0
  {
    TruncDiv(pixel, unit)
  }

  /** mPlayerPos: the pixel coordinate in cell units, without rounding. */
  function WorldOf(pixel: int, unit: int): real
    requires unit > 0
  {
    pixel as real / unit as real
  }

  lemma ScaleCompare(x: real, y: real, u: real)
    requires u > 0.0
    ensures x <= y / u <==> x * u <= y
    ensures x > y / u <==> x * u > y
  {
    assert (y / u) * u == y;
    if x <= y / u { assert x * u <= (y / u) * u; }
    if x * u <= y { assert x <= y / u; }
  }

  /** The derived cell is the cell containing the world position exactly when the pixel
      coordinate is not negative or falls on a cell boundary: truncation toward zero puts a
      negative in-between pixel in the cell on the far side of zero. */
  lemma CellContainsWorld(pixel: int, unit: int)
    requires unit > 0
    ensures var c := CellOf(pixel, unit) as real;
            var p := WorldOf(pixel, unit);
            (c <= p < c + 1.0) <==> (pixel >= 0 || pixel % unit == 0)
  {
    var q := TruncDiv(pixel, unit);
    var u := unit as real;
    TruncDivRoundsTowardZero(pixel, unit);
    ScaleCompare(q as real, pixel as real, u);
    ScaleCompare(q as real + 1.0, pixel as real, u);
    assert q as real * u == (q * unit) as real;
    assert (q as real + 1.0) * u == (q * unit + unit) as real;
    if pixel < 0 {
      var n := -pixel;
      ModOfNegation(n, unit);
      assert q * unit == -((n / unit) * unit);
      assert n == (n / unit) * unit + n % unit;
    }
  }
}
