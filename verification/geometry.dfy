/**
 * Points of the drawing plane and the polar offset every joint of the stick
 * figure is computed with.
 *
 * Coordinates are exact reals. Angles are restricted to the four cardinal
 * directions the layout uses, so the cosine and sine of each angle are the
 * exact values 1, 0 and -1 rather than their floating-point approximations.
 */
module Geometry {

  datatype Point = Point(x: real, y: real)

  /** The point displaced by (dx, dy). Points are values: `p` itself is unchanged. */
  function Add(p: Point, dx: real, dy: real): (r: Point)
    ensures r.x - p.x == dx && r.y - p.y == dy
  {
    Point(p.x + dx, p.y + dy)
  }

  /** Displacing by (dx, dy) and then by (-dx, -dy) returns to the start. */
  lemma AddInverse(p: Point, dx: real, dy: real)
    ensures Add(Add(p, dx, dy), -dx, -dy) == p
  {
  }

  /** Two displacements compose into one by the sum of their components. */
  lemma AddCompose(p: Point, dx1: real, dy1: real, dx2: real, dy2: real)
    ensures Add(Add(p, dx1, dy1), dx2, dy2) == Add(p, dx1 + dx2, dy1 + dy2)
  {
  }

  /** The named directions of the layout. */
  datatype Direction = Right | Up | Left | Down

  /** The angle of a direction in half-turns (units of pi radians). */
  function Angle(d: Direction): (a: real)
    ensures 0.0 <= a < 2.0
    ensures d == Right <==> a == 0.0
    ensures d == Up <==> a == 0.5
    ensures d == Left <==> a == 1.0
    ensures d == Down <==> a == 1.5
  {
    match d
    case Right => 0.0
    case Up => 0.5
    case Left => 1.0
    case Down => 1.5
  }

  /** cos(Angle(d) * pi), exact at the cardinal angles. */
  function CosPi(d: Direction): real
  {
    match d
    case Right => 1.0
    case Up => 0.0
    case Left => -1.0
    case Down => 0.0
  }

  /** sin(Angle(d) * pi), exact at the cardinal angles. */
  function SinPi(d: Direction): real
  {
    match d
    case Right => 0.0
    case Up => 1.0
    case Left => 0.0
    case Down => -1.0
  }

  /** Every direction has a unit vector (cos^2 + sin^2 = 1). */
  lemma UnitVector(d: Direction)
    ensures CosPi(d) * CosPi(d) + SinPi(d) * SinPi(d) == 1.0
  {
  }

  /**
   * The direction half a turn away. Its angle is one more (modulo one full
   * turn of 2), and accordingly both components of its unit vector are
   * negated: cos(t + pi) = -cos t and sin(t + pi) = -sin t.
   */
  function Opposite(d: Direction): (r: Direction)
    ensures Angle(r) == if Angle(d) < 1.0 then Angle(d) + 1.0 else Angle(d) - 1.0
    ensures CosPi(r) == -CosPi(d) && SinPi(r) == -SinPi(d)
  {
    match d
    case Right => Left
    case Up => Down
    case Left => Right
    case Down => Up
  }

  /**
   * The direction seen in a mirror along a vertical axis. Its angle is
   * pi - t (modulo one full turn), so the horizontal component of its unit
   * vector is negated and the vertical one kept.
   */
  function Reflect(d: Direction): (r: Direction)
    ensures Angle(r) == if Angle(d) <= 1.0 then 1.0 - Angle(d) else 3.0 - Angle(d)
    ensures CosPi(r) == -CosPi(d) && SinPi(r) == SinPi(d)
  {
    match d
    case Right => Left
    case Left => Right
    case Up => Up
    case Down => Down
  }

  /**
   * Moves `p` by `length` along direction `d`. With the exact cardinal
   * cosines and sines this is a displacement along one axis; that it is the
   * polar offset (length * cos, length * sin) is `PolarAddIsPolar`.
   */
  function PolarAdd(p: Point, d: Direction, length: real): (r: Point)
    ensures Angle(d) == 0.0 ==> r == Point(p.x + length, p.y)
    ensures Angle(d) == 0.5 ==> r == Point(p.x, p.y + length)
    ensures Angle(d) == 1.0 ==> r == Point(p.x - length, p.y)
    ensures Angle(d) == 1.5 ==> r == Point(p.x, p.y - length)
    ensures length == 0.0 ==> r == p
  {
    match d
    case Right => Add(p, length, 0.0)
    case Up => Add(p, 0.0, length)
    case Left => Add(p, -length, 0.0)
    case Down => Add(p, 0.0, -length)
  }

  /** The move is the polar offset: by length * cos and length * sin of the direction's angle. */
  lemma PolarAddIsPolar(p: Point, d: Direction, length: real)
    ensures PolarAdd(p, d, length) == Add(p, length * CosPi(d), length * SinPi(d))
  {
    match d
    case Right =>
      assert length * CosPi(d) == length && length * SinPi(d) == 0.0;
    case Up =>
      assert length * CosPi(d) == 0.0 && length * SinPi(d) == length;
    case Left =>
      assert length * CosPi(d) == -length && length * SinPi(d) == 0.0;
    case Down =>
      assert length * CosPi(d) == 0.0 && length * SinPi(d) == -length;
  }

  /** A move covers exactly `length`: the squared distance travelled is length^2. */
  lemma PolarAddDistance(p: Point, d: Direction, length: real)
    ensures var r := PolarAdd(p, d, length);
      (r.x - p.x) * (r.x - p.x) + (r.y - p.y) * (r.y - p.y) == length * length
  {
  }

  /** Two moves along the same direction are one move by the summed length. */
  lemma PolarAddCompose(p: Point, d: Direction, a: real, b: real)
    ensures PolarAdd(PolarAdd(p, d, a), d, b) == PolarAdd(p, d, a + b)
  {
  }

  /** Moving back along the opposite direction by the same length undoes a move. */
  lemma PolarAddInverse(p: Point, d: Direction, length: real)
    ensures PolarAdd(PolarAdd(p, d, length), Opposite(d), length) == p
  {
  }

  /** A move commutes with a translation of its starting point. */
  lemma PolarAddTranslate(p: Point, d: Direction, length: real, dx: real, dy: real)
    ensures PolarAdd(Add(p, dx, dy), d, length) == Add(PolarAdd(p, d, length), dx, dy)
  {
  }

  /** The mirror image of `p` in the vertical line x = axis. */
  function Mirror(p: Point, axis: real): (r: Point)
    ensures r.y == p.y
    ensures r.x - axis == axis - p.x
  {
    Point(2.0 * axis - p.x, p.y)
  }

  /** Mirroring twice in the same axis is the identity. */
  lemma MirrorInvolution(p: Point, axis: real)
    ensures Mirror(Mirror(p, axis), axis) == p
  {
  }

  /** The mirror image of a move is the move along the reflected direction. */
  lemma PolarAddMirror(p: Point, d: Direction, length: real, axis: real)
    ensures Mirror(PolarAdd(p, d, length), axis) == PolarAdd(Mirror(p, axis), Reflect(d), length)
  {
  }
}
