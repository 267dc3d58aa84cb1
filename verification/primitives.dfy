/**
 * The drawing primitives the layout emits, the emitters that build them, and
 * their markup form: an element name with an ordered list of numeric
 * attributes. How the numbers are printed is not modelled.
 */
module Primitives {
  import opened Geometry

  datatype Option<T> = None | Some(value: T)

  /** A drawable instruction: a line segment or an axis-aligned ellipse. */
  datatype Primitive =
    | Line(start: Point, end: Point)
    | Ellipse(center: Point, rx: real, ry: real)

  /** A line element from `start` to `end`. */
  function SvgLine(start: Point, end: Point): (r: Primitive)
    ensures r.Line? && r.start == start && r.end == end
  {
    Line(start, end)
  }

  /** An ellipse element; the radii travel as a point (x radius, y radius). */
  function SvgEllipse(center: Point, radii: Point): (r: Primitive)
    ensures r.Ellipse? && r.center == center
    ensures r.rx == radii.x && r.ry == radii.y
  {
    Ellipse(center, radii.x, radii.y)
  }

  /**
   * An ellipse with radii (xr, yr) pushed off `base` by its own y radius
   * along `d`, whatever the direction: up or down, `base` ends up at the
   * bottom or top of the ellipse rather than at its centre (see
   * `OffsetEllipseTouchesBase`).
   */
  function OffsetEllipse(base: Point, d: Direction, xr: real, yr: real): (r: Primitive)
    ensures r.Ellipse? && r.rx == xr && r.ry == yr
    ensures d == Up ==> r.center == Point(base.x, base.y + yr)
    ensures d == Down ==> r.center == Point(base.x, base.y - yr)
    ensures d == Right ==> r.center == Point(base.x + yr, base.y)
    ensures d == Left ==> r.center == Point(base.x - yr, base.y)
  {
    SvgEllipse(PolarAdd(base, d, yr), Point(xr, yr))
  }

  /**
   * The end of the ellipse's axis that lies along `d` from its centre: the
   * x radius away for a horizontal direction, the y radius away for a
   * vertical one.
   */
  function Vertex(e: Primitive, d: Direction): (v: Point)
    requires e.Ellipse?
  {
    match d
    case Left | Right => PolarAdd(e.center, d, e.rx)
    case Up | Down => PolarAdd(e.center, d, e.ry)
  }

  /**
   * The offset ellipse touches `base` at the end of its axis exactly when it
   * was pushed up or down, or is a circle: pushed sideways, the placement
   * rule measures along the x axis by the y radius and misses.
   */
  lemma {:induction false} OffsetEllipseTouchesBase(base: Point, d: Direction, xr: real, yr: real)
    ensures Vertex(OffsetEllipse(base, d, xr, yr), Opposite(d)) == base
        <==> d == Up || d == Down || xr == yr
  {
    var e := OffsetEllipse(base, d, xr, yr);
    match d
    case Right =>
      assert Vertex(e, Left) == Point(base.x + yr - xr, base.y);
    case Left =>
      assert Vertex(e, Right) == Point(base.x - yr + xr, base.y);
    case Up =>
    case Down =>
  }

  /** One attribute of a markup element. */
  datatype Attribute = Attribute(name: string, value: real)

  /** A markup element: its name and its attributes in order. */
  datatype Element = Element(name: string, attributes: seq<Attribute>)

  /**
   * The markup of a primitive: `line` with x1, y1, x2, y2, or `ellipse` with
   * cx, cy, rx, ry.
   */
  function Markup(p: Primitive): (e: Element)
    ensures p.Line? ==> e.name == "line" && |e.attributes| == 4
    ensures p.Ellipse? ==> e.name == "ellipse" && |e.attributes| == 4
  {
    match p
    case Line(s, t) =>
      Element("line", [Attribute("x1", s.x), Attribute("y1", s.y), Attribute("x2", t.x), Attribute("y2", t.y)])
    case Ellipse(c, rx, ry) =>
      Element("ellipse", [Attribute("cx", c.x), Attribute("cy", c.y), Attribute("rx", rx), Attribute("ry", ry)])
  }

  /** Reads a primitive back from its markup; anything else is `None`. */
  function Parse(e: Element): (r: Option<Primitive>)
  {
    if |e.attributes| != 4 then None
    else
      var a := e.attributes;
      if e.name == "line" && a[0].name == "x1" && a[1].name == "y1" && a[2].name == "x2" && a[3].name == "y2" then
        Some(Line(Point(a[0].value, a[1].value), Point(a[2].value, a[3].value)))
      else if e.name == "ellipse" && a[0].name == "cx" && a[1].name == "cy" && a[2].name == "rx" && a[3].name == "ry" then
        Some(Ellipse(Point(a[0].value, a[1].value), a[2].value, a[3].value))
      else None
  }

  /** Markup loses nothing: parsing it gives back the primitive. */
  lemma ParseMarkup(p: Primitive)
    ensures Parse(Markup(p)) == Some(p)
  {
  }

  /** Whatever parses is exactly the markup of what it parses to. */
  lemma MarkupParse(e: Element)
    ensures Parse(e).Some? ==> Markup(Parse(e).value) == e
  {
    if Parse(e).Some? {
      var a := e.attributes;
      assert a == [a[0], a[1], a[2], a[3]];
    }
  }

  /** The mirror image of a primitive in the vertical line x = axis. */
  function MirrorPrimitive(p: Primitive, axis: real): (r: Primitive)
    ensures r.Line? <==> p.Line?
    ensures p.Line? ==> r.start == Mirror(p.start, axis) && r.end == Mirror(p.end, axis)
    ensures p.Ellipse? ==> r.center == Mirror(p.center, axis) && r.rx == p.rx && r.ry == p.ry
  {
    match p
    case Line(s, t) => Line(Mirror(s, axis), Mirror(t, axis))
    case Ellipse(c, rx, ry) => Ellipse(Mirror(c, axis), rx, ry)
  }

  /** Every primitive of `ps` mirrored, in the same order. */
  function MirrorAll(ps: seq<Primitive>, axis: real): (r: seq<Primitive>)
    ensures |r| == |ps|
    ensures forall i :: 0 <= i < |ps| ==> r[i] == MirrorPrimitive(ps[i], axis)
  {
    seq(|ps|, i requires 0 <= i < |ps| => MirrorPrimitive(ps[i], axis))
  }

  /** A primitive moved by (dx, dy); radii are kept. */
  function TranslatePrimitive(p: Primitive, dx: real, dy: real): (r: Primitive)
    ensures r.Line? <==> p.Line?
    ensures p.Line? ==> r.start == Add(p.start, dx, dy) && r.end == Add(p.end, dx, dy)
    ensures p.Ellipse? ==> r.center == Add(p.center, dx, dy) && r.rx == p.rx && r.ry == p.ry
  {
    match p
    case Line(s, t) => Line(Add(s, dx, dy), Add(t, dx, dy))
    case Ellipse(c, rx, ry) => Ellipse(Add(c, dx, dy), rx, ry)
  }

  /** Every primitive of `ps` moved by (dx, dy), in the same order. */
  function TranslateAll(ps: seq<Primitive>, dx: real, dy: real): (r: seq<Primitive>)
    ensures |r| == |ps|
    ensures forall i :: 0 <= i < |ps| ==> r[i] == TranslatePrimitive(ps[i], dx, dy)
  {
    seq(|ps|, i requires 0 <= i < |ps| => TranslatePrimitive(ps[i], dx, dy))
  }
}
