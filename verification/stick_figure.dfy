/**
 * The stick-figure layout: fixed body proportions, and six body-part steps
 * that walk outward from the hip anchor and emit lines and ellipses.
 *
 * The shoulder anchor, which the torso step derives and the neck and arm
 * steps consume, is returned by `Torso` and passed on explicitly.
 */
module StickFigure {
  import opened Geometry
  import opened Primitives

  /** Scaling factor from head units to drawing units. */
  const Factor: real := 10.0

  /** The named body lengths. */
  datatype BodyPart =
    | HeadHalfHeight | HeadHalfWidth | Neck | Ribs | Belly
    | Shoulder | UpperArm | LowerArm | HandHalfHeight | HandHalfWidth
    | Hip | UpperLeg | LowerLeg | FootHalfHeight | FootHalfWidth

  /**
   * A body length in drawing units: its proportion in heads times the
   * scaling factor. Every length is strictly positive and at most one and a
   * half heads.
   */
  function Length(b: BodyPart): (r: real)
    ensures 0.0 < r <= 1.5 * Factor
  {
    match b
    case HeadHalfHeight => 0.5 * Factor
    case HeadHalfWidth => 0.3 * Factor
    case Neck => 0.5 * Factor
    case Ribs => 1.0 * Factor
    case Belly => 1.0 * Factor
    case Shoulder => 0.75 * Factor
    case UpperArm => 1.25 * Factor
    case LowerArm => 1.0 * Factor
    case HandHalfHeight => 0.3 * Factor
    case HandHalfWidth => 0.2 * Factor
    case Hip => 0.5 * Factor
    case UpperLeg => 1.5 * Factor
    case LowerLeg => 1.5 * Factor
    case FootHalfHeight => 0.15 * Factor
    case FootHalfWidth => 0.3 * Factor
  }

  /** `lines` is an unbroken polyline of line segments starting at `anchor`. */
  predicate Linked(lines: seq<Primitive>, anchor: Point)
  {
    && |lines| > 0
    && (forall i :: 0 <= i < |lines| ==> lines[i].Line?)
    && lines[0].start == anchor
    && (forall i :: 0 <= i < |lines| - 1 ==> lines[i].end == lines[i + 1].start)
  }

  /**
   * `ps` is a chain from `anchor`: linked lines, then one ellipse with radii
   * (xr, yr) whose centre is the last line's end moved by yr along `d`.
   */
  predicate Chain(ps: seq<Primitive>, anchor: Point, d: Direction, xr: real, yr: real)
  {
    && |ps| >= 2
    && Linked(ps[..|ps| - 1], anchor)
    && ps[|ps| - 1] == Ellipse(PolarAdd(ps[|ps| - 2].end, d, yr), xr, yr)
  }

  /**
   * The torso: up from the hip by the belly, then up by the ribs. Returns the
   * two lines and the shoulder anchor at the end of the ribs.
   */
  function Torso(hip: Point): (r: (seq<Primitive>, Point))
    ensures r.1 == Point(hip.x, hip.y + Length(Belly) + Length(Ribs))
    ensures r.0 == [Line(hip, Point(hip.x, hip.y + Length(Belly))),
                    Line(Point(hip.x, hip.y + Length(Belly)), r.1)]
  {
    var bellyEnd := PolarAdd(hip, Up, Length(Belly));
    var ribsEnd := PolarAdd(bellyEnd, Up, Length(Ribs));
    ([SvgLine(hip, bellyEnd), SvgLine(bellyEnd, ribsEnd)], ribsEnd)
  }

  /** The neck, up from the shoulder anchor, and the head resting on it. */
  function NeckHead(shoulder: Point): (r: seq<Primitive>)
    ensures r == [Line(shoulder, Point(shoulder.x, shoulder.y + Length(Neck))),
                  Ellipse(Point(shoulder.x, shoulder.y + Length(Neck) + Length(HeadHalfHeight)),
                          Length(HeadHalfWidth), Length(HeadHalfHeight))]
  {
    var neckEnd := PolarAdd(shoulder, Up, Length(Neck));
    [ SvgLine(shoulder, neckEnd),
      OffsetEllipse(neckEnd, Up, Length(HeadHalfWidth), Length(HeadHalfHeight)) ]
  }

  /**
   * The common shape of the four limbs: from `anchor` sideways along `side`
   * by `reach`, down by `upper`, down by `lower`, and an end ellipse hanging
   * below, with half-width `halfWidth` and half-height `halfHeight`.
   */
  function Limb(anchor: Point, side: Direction, reach: BodyPart, upper: BodyPart, lower: BodyPart,
                halfWidth: BodyPart, halfHeight: BodyPart): (r: seq<Primitive>)
    ensures var e := PolarAdd(anchor, side, Length(reach));
      r == [Line(anchor, e),
            Line(e, Point(e.x, e.y - Length(upper))),
            Line(Point(e.x, e.y - Length(upper)), Point(e.x, e.y - Length(upper) - Length(lower))),
            Ellipse(Point(e.x, e.y - Length(upper) - Length(lower) - Length(halfHeight)),
                    Length(halfWidth), Length(halfHeight))]
  {
    var reachEnd := PolarAdd(anchor, side, Length(reach));
    var upperEnd := PolarAdd(reachEnd, Down, Length(upper));
    var lowerEnd := PolarAdd(upperEnd, Down, Length(lower));
    [ SvgLine(anchor, reachEnd),
      SvgLine(reachEnd, upperEnd),
      SvgLine(upperEnd, lowerEnd),
      OffsetEllipse(lowerEnd, Down, Length(halfWidth), Length(halfHeight)) ]
  }

  /** The right arm: shoulder, upper arm, lower arm and hand, hanging from the shoulder anchor. */
  function RightArm(shoulder: Point): (r: seq<Primitive>)
    ensures var x, y := shoulder.x + Length(Shoulder), shoulder.y;
      r == [Line(shoulder, Point(x, y)),
            Line(Point(x, y), Point(x, y - Length(UpperArm))),
            Line(Point(x, y - Length(UpperArm)), Point(x, y - Length(UpperArm) - Length(LowerArm))),
            Ellipse(Point(x, y - Length(UpperArm) - Length(LowerArm) - Length(HandHalfHeight)),
                    Length(HandHalfWidth), Length(HandHalfHeight))]
  {
    Limb(shoulder, Right, Shoulder, UpperArm, LowerArm, HandHalfWidth, HandHalfHeight)
  }

  /** The left arm: as the right arm, but reaching left. */
  function LeftArm(shoulder: Point): (r: seq<Primitive>)
    ensures var x, y := shoulder.x - Length(Shoulder), shoulder.y;
      r == [Line(shoulder, Point(x, y)),
            Line(Point(x, y), Point(x, y - Length(UpperArm))),
            Line(Point(x, y - Length(UpperArm)), Point(x, y - Length(UpperArm) - Length(LowerArm))),
            Ellipse(Point(x, y - Length(UpperArm) - Length(LowerArm) - Length(HandHalfHeight)),
                    Length(HandHalfWidth), Length(HandHalfHeight))]
  {
    Limb(shoulder, Left, Shoulder, UpperArm, LowerArm, HandHalfWidth, HandHalfHeight)
  }

  /** The right leg: hip, upper leg, lower leg and foot, hanging from the hip. */
  function RightLeg(hip: Point): (r: seq<Primitive>)
    ensures var x, y := hip.x + Length(Hip), hip.y;
      r == [Line(hip, Point(x, y)),
            Line(Point(x, y), Point(x, y - Length(UpperLeg))),
            Line(Point(x, y - Length(UpperLeg)), Point(x, y - Length(UpperLeg) - Length(LowerLeg))),
            Ellipse(Point(x, y - Length(UpperLeg) - Length(LowerLeg) - Length(FootHalfHeight)),
                    Length(FootHalfWidth), Length(FootHalfHeight))]
  {
    Limb(hip, Right, Hip, UpperLeg, LowerLeg, FootHalfWidth, FootHalfHeight)
  }

  /** The left leg: as the right leg, but reaching left. */
  function LeftLeg(hip: Point): (r: seq<Primitive>)
    ensures var x, y := hip.x - Length(Hip), hip.y;
      r == [Line(hip, Point(x, y)),
            Line(Point(x, y), Point(x, y - Length(UpperLeg))),
            Line(Point(x, y - Length(UpperLeg)), Point(x, y - Length(UpperLeg) - Length(LowerLeg))),
            Ellipse(Point(x, y - Length(UpperLeg) - Length(LowerLeg) - Length(FootHalfHeight)),
                    Length(FootHalfWidth), Length(FootHalfHeight))]
  {
    Limb(hip, Left, Hip, UpperLeg, LowerLeg, FootHalfWidth, FootHalfHeight)
  }

  /**
   * The figure's primitives in drawing order: torso, neck and head, right
   * arm, left arm, right leg, left leg; twenty in all, whatever the hip.
   */
  function Body(hip: Point): (r: seq<Primitive>)
    ensures |r| == 20
  {
    var (torso, shoulder) := Torso(hip);
    torso + NeckHead(shoulder) + RightArm(shoulder) + LeftArm(shoulder) + RightLeg(hip) + LeftLeg(hip)
  }

  /**
   * The body in sections: torso, neck and head, right arm, left arm, right
   * leg, left leg. Neck, head and arms hang from the point the torso ends
   * at; the legs hang from the hip.
   */
  lemma BodyOrder(hip: Point)
    ensures var b := Body(hip);
      && b[..2] == Torso(hip).0
      && b[1].end == Torso(hip).1
      && b[2..4] == NeckHead(b[1].end)
      && b[4..8] == RightArm(b[1].end)
      && b[8..12] == LeftArm(b[1].end)
      && b[12..16] == RightLeg(hip)
      && b[16..20] == LeftLeg(hip)
  {
    var (torso, shoulder) := Torso(hip);
    var b := Body(hip);
    assert b == torso + NeckHead(shoulder) + RightArm(shoulder) + LeftArm(shoulder) + RightLeg(hip) + LeftLeg(hip);
    assert b[1] == torso[1];
  }

  /** Positions of the ellipses among the twenty body primitives: head, hands, feet. */
  predicate EllipseSlot(i: int)
  {
    i == 3 || i == 7 || i == 11 || i == 15 || i == 19
  }

  /** The body is lines except for five ellipses: the head, the two hands and the two feet. */
  lemma BodyKinds(hip: Point)
    ensures forall i :: 0 <= i < 20 ==> (Body(hip)[i].Ellipse? <==> EllipseSlot(i))
  {
    var b := Body(hip);
    BodyOrder(hip);
    KindsBySections(b);
  }

  /** `ps` is lines closed by a single ellipse. */
  predicate Capped(ps: seq<Primitive>)
  {
    forall j :: 0 <= j < |ps| ==> (ps[j].Ellipse? <==> j == |ps| - 1)
  }

  /** Two lines, then four sections of lines each closed by one ellipse, place the ellipses in the slots. */
  lemma KindsBySections(b: seq<Primitive>)
    requires |b| == 20 && b[0].Line? && b[1].Line?
    requires Capped(b[2..4]) && Capped(b[4..8]) && Capped(b[8..12]) && Capped(b[12..16]) && Capped(b[16..20])
    ensures forall i :: 0 <= i < 20 ==> (b[i].Ellipse? <==> EllipseSlot(i))
  {
    forall i | 0 <= i < 20
      ensures b[i].Ellipse? <==> EllipseSlot(i)
    {
      if i < 2 {
      } else if i < 4 {
        assert b[i] == b[2..4][i - 2];
      } else if i < 8 {
        assert b[i] == b[4..8][i - 4];
      } else if i < 12 {
        assert b[i] == b[8..12][i - 8];
      } else if i < 16 {
        assert b[i] == b[12..16][i - 12];
      } else {
        assert b[i] == b[16..20][i - 16];
      }
    }
  }

  /**
   * Every section is an unbroken chain: the torso from the hip; the neck and
   * both arms from the torso's end, each closed by its ellipse; both legs
   * from the hip, each closed by a foot.
   */
  lemma BodyConnected(hip: Point)
    ensures var b := Body(hip);
      && Linked(b[..2], hip)
      && Chain(b[2..4], b[1].end, Up, Length(HeadHalfWidth), Length(HeadHalfHeight))
      && Chain(b[4..8], b[1].end, Down, Length(HandHalfWidth), Length(HandHalfHeight))
      && Chain(b[8..12], b[1].end, Down, Length(HandHalfWidth), Length(HandHalfHeight))
      && Chain(b[12..16], hip, Down, Length(FootHalfWidth), Length(FootHalfHeight))
      && Chain(b[16..20], hip, Down, Length(FootHalfWidth), Length(FootHalfHeight))
  {
    var b := Body(hip);
    var s := b[1].end;
    BodyOrder(hip);
    TorsoLinked(hip);
    NeckHeadChain(s);
    LimbChain(s, Right, Shoulder, UpperArm, LowerArm, HandHalfWidth, HandHalfHeight);
    LimbChain(s, Left, Shoulder, UpperArm, LowerArm, HandHalfWidth, HandHalfHeight);
    LimbChain(hip, Right, Hip, UpperLeg, LowerLeg, FootHalfWidth, FootHalfHeight);
    LimbChain(hip, Left, Hip, UpperLeg, LowerLeg, FootHalfWidth, FootHalfHeight);
  }

  /** The torso's two lines run unbroken from the hip to the shoulder anchor. */
  lemma TorsoLinked(hip: Point)
    ensures Linked(Torso(hip).0, hip) && Torso(hip).0[1].end == Torso(hip).1
  {
  }

  /** The neck runs from the shoulder anchor and the head is placed from its end. */
  lemma NeckHeadChain(shoulder: Point)
    ensures Chain(NeckHead(shoulder), shoulder, Up, Length(HeadHalfWidth), Length(HeadHalfHeight))
  {
    var r := NeckHead(shoulder);
    assert r[..1] == [r[0]];
  }

  /** A limb's three lines run unbroken from its anchor and the end ellipse is placed from the last. */
  lemma LimbChain(anchor: Point, side: Direction, reach: BodyPart, upper: BodyPart, lower: BodyPart,
                  halfWidth: BodyPart, halfHeight: BodyPart)
    ensures Chain(Limb(anchor, side, reach, upper, lower, halfWidth, halfHeight),
                  anchor, Down, Length(halfWidth), Length(halfHeight))
  {
    var r := Limb(anchor, side, reach, upper, lower, halfWidth, halfHeight);
    assert r[..3] == [r[0], r[1], r[2]];
  }

  /** The fixed markup that frames the figure. */
  datatype Frame = SvgOpen | GroupOpen | VerticalAxis | HorizontalAxis | GroupClose | SvgClose

  /** One entry of the drawing: a piece of the frame or a body primitive. */
  datatype Entry = Framing(piece: Frame) | Shape(primitive: Primitive)

  /** The opening of the frame: root element, group, and the two axis paths. */
  const Opening: seq<Entry> := [Framing(SvgOpen), Framing(GroupOpen), Framing(VerticalAxis), Framing(HorizontalAxis)]

  /** The closing of the frame: end of group, end of root element. */
  const Closing: seq<Entry> := [Framing(GroupClose), Framing(SvgClose)]

  /**
   * The whole drawing: the four opening entries, the twenty body primitives
   * in order, and the two closing entries.
   */
  function Svg(hip: Point): (r: seq<Entry>)
    ensures |r| == 26
    ensures r[..4] == Opening && r[24..] == Closing
    ensures forall i :: 0 <= i < 20 ==> r[4 + i] == Shape(Body(hip)[i])
  {
    var body := Body(hip);
    Opening + seq(20, i requires 0 <= i < 20 => Shape(body[i])) + Closing
  }
}
