/**
 * Properties of the whole layout: left/right mirror symmetry, invariance
 * under moving the hip anchor, and the joint positions of the figure
 * anchored at the origin.
 */
module FigureProperties {
  import opened Geometry
  import opened Primitives
  import opened StickFigure

  /**
   * A limb reaching the other way is the mirror image of the limb in the
   * vertical line through its anchor.
   */
  lemma LimbMirror(anchor: Point, side: Direction, reach: BodyPart, upper: BodyPart, lower: BodyPart,
                   halfWidth: BodyPart, halfHeight: BodyPart)
    ensures Limb(anchor, Reflect(side), reach, upper, lower, halfWidth, halfHeight)
         == MirrorAll(Limb(anchor, side, reach, upper, lower, halfWidth, halfHeight), anchor.x)
  {
    var a := anchor.x;
    var l := Limb(anchor, side, reach, upper, lower, halfWidth, halfHeight);
    var m := Limb(anchor, Reflect(side), reach, upper, lower, halfWidth, halfHeight);
    var reachEnd := PolarAdd(anchor, side, Length(reach));
    var upperEnd := PolarAdd(reachEnd, Down, Length(upper));
    var lowerEnd := PolarAdd(upperEnd, Down, Length(lower));
    var center := PolarAdd(lowerEnd, Down, Length(halfHeight));
    assert Mirror(anchor, a) == anchor;
    PolarAddMirror(anchor, side, Length(reach), a);
    PolarAddMirror(reachEnd, Down, Length(upper), a);
    PolarAddMirror(upperEnd, Down, Length(lower), a);
    PolarAddMirror(lowerEnd, Down, Length(halfHeight), a);
    assert l == [Line(anchor, reachEnd), Line(reachEnd, upperEnd), Line(upperEnd, lowerEnd),
                 Ellipse(center, Length(halfWidth), Length(halfHeight))];
    assert m == [Line(anchor, Mirror(reachEnd, a)), Line(Mirror(reachEnd, a), Mirror(upperEnd, a)),
                 Line(Mirror(upperEnd, a), Mirror(lowerEnd, a)),
                 Ellipse(Mirror(center, a), Length(halfWidth), Length(halfHeight))];
  }

  /** The left arm is the right arm mirrored in the vertical line through the shoulder anchor. */
  lemma LeftArmMirrorsRightArm(shoulder: Point)
    ensures LeftArm(shoulder) == MirrorAll(RightArm(shoulder), shoulder.x)
  {
    LimbMirror(shoulder, Right, Shoulder, UpperArm, LowerArm, HandHalfWidth, HandHalfHeight);
  }

  /** The left leg is the right leg mirrored in the vertical line through the hip. */
  lemma LeftLegMirrorsRightLeg(hip: Point)
    ensures LeftLeg(hip) == MirrorAll(RightLeg(hip), hip.x)
  {
    LimbMirror(hip, Right, Hip, UpperLeg, LowerLeg, FootHalfWidth, FootHalfHeight);
  }

  /** Torso, neck and head lie on the vertical centre line: mirroring leaves them as they are. */
  lemma CentreLineSymmetric(hip: Point)
    ensures MirrorAll(Torso(hip).0, hip.x) == Torso(hip).0
    ensures Torso(hip).1.x == hip.x
    ensures MirrorAll(NeckHead(Torso(hip).1), hip.x) == NeckHead(Torso(hip).1)
  {
    var t := Torso(hip).0;
    var n := NeckHead(Torso(hip).1);
    assert MirrorAll(t, hip.x) == [MirrorPrimitive(t[0], hip.x), MirrorPrimitive(t[1], hip.x)];
    assert MirrorAll(n, hip.x) == [MirrorPrimitive(n[0], hip.x), MirrorPrimitive(n[1], hip.x)];
  }

  /**
   * Mirrored in the vertical line through the hip, the body is the same
   * body with the arms, and the legs, trading places.
   */
  lemma BodyMirror(hip: Point)
    ensures var b := Body(hip);
      MirrorAll(b, hip.x) == b[..4] + b[8..12] + b[4..8] + b[16..20] + b[12..16]
  {
    var b := Body(hip);
    var s := b[1].end;
    BodyOrder(hip);
    CentreLineSymmetric(hip);
    LeftArmMirrorsRightArm(s);
    LeftLegMirrorsRightLeg(hip);
    MirrorInvolutionAll(RightArm(s), hip.x);
    MirrorInvolutionAll(RightLeg(hip), hip.x);
    MirrorBySections(b, hip.x);
  }

  /**
   * Twenty primitives whose first four sections are each their own mirror
   * image, and whose last four sections are mirror images of one another in
   * pairs, mirror as a whole into the same primitives with the pairs swapped.
   */
  lemma MirrorBySections(b: seq<Primitive>, axis: real)
    requires |b| == 20
    requires MirrorAll(b[..2], axis) == b[..2] && MirrorAll(b[2..4], axis) == b[2..4]
    requires MirrorAll(b[4..8], axis) == b[8..12] && MirrorAll(b[8..12], axis) == b[4..8]
    requires MirrorAll(b[12..16], axis) == b[16..20] && MirrorAll(b[16..20], axis) == b[12..16]
    ensures MirrorAll(b, axis) == b[..4] + b[8..12] + b[4..8] + b[16..20] + b[12..16]
  {
    var m := MirrorAll(b, axis);
    var w := b[..4] + b[8..12] + b[4..8] + b[16..20] + b[12..16];
    forall i | 0 <= i < 20
      ensures m[i] == w[i]
    {
      if i < 2 {
        assert m[i] == MirrorAll(b[..2], axis)[i];
      } else if i < 4 {
        assert m[i] == MirrorAll(b[2..4], axis)[i - 2];
      } else if i < 8 {
        assert m[i] == MirrorAll(b[4..8], axis)[i - 4];
      } else if i < 12 {
        assert m[i] == MirrorAll(b[8..12], axis)[i - 8];
      } else if i < 16 {
        assert m[i] == MirrorAll(b[12..16], axis)[i - 12];
      } else {
        assert m[i] == MirrorAll(b[16..20], axis)[i - 16];
      }
    }
  }

  /**
   * The drawing as a whole is left/right symmetric: mirroring every body
   * primitive in the vertical line through the hip yields the same
   * primitives.
   */
  lemma BodySymmetric(hip: Point)
    ensures multiset(MirrorAll(Body(hip), hip.x)) == multiset(Body(hip))
  {
    BodyMirror(hip);
    SwapKeepsMultiset(Body(hip));
  }

  /** Swapping the two middle sections and the two last sections of twenty keeps the same primitives. */
  lemma SwapKeepsMultiset(b: seq<Primitive>)
    requires |b| == 20
    ensures multiset(b[..4] + b[8..12] + b[4..8] + b[16..20] + b[12..16]) == multiset(b)
  {
    assert b == b[..4] + b[4..8] + b[8..12] + b[12..16] + b[16..20];
  }

  /** Mirroring a sequence twice in the same axis gives it back. */
  lemma MirrorInvolutionAll(ps: seq<Primitive>, axis: real)
    ensures MirrorAll(MirrorAll(ps, axis), axis) == ps
  {
    forall i | 0 <= i < |ps|
      ensures MirrorAll(MirrorAll(ps, axis), axis)[i] == ps[i]
    {
      match ps[i]
      case Line(s, t) =>
        MirrorInvolution(s, axis);
        MirrorInvolution(t, axis);
      case Ellipse(c, _, _) =>
        MirrorInvolution(c, axis);
    }
  }

  /** Moving a limb's anchor moves every primitive of the limb by the same amount. */
  lemma LimbTranslate(anchor: Point, side: Direction, reach: BodyPart, upper: BodyPart, lower: BodyPart,
                      halfWidth: BodyPart, halfHeight: BodyPart, dx: real, dy: real)
    ensures Limb(Add(anchor, dx, dy), side, reach, upper, lower, halfWidth, halfHeight)
         == TranslateAll(Limb(anchor, side, reach, upper, lower, halfWidth, halfHeight), dx, dy)
  {
    var reachEnd := PolarAdd(anchor, side, Length(reach));
    var upperEnd := PolarAdd(reachEnd, Down, Length(upper));
    var lowerEnd := PolarAdd(upperEnd, Down, Length(lower));
    PolarAddTranslate(anchor, side, Length(reach), dx, dy);
    PolarAddTranslate(reachEnd, Down, Length(upper), dx, dy);
    PolarAddTranslate(upperEnd, Down, Length(lower), dx, dy);
    PolarAddTranslate(lowerEnd, Down, Length(halfHeight), dx, dy);
  }

  /**
   * The layout depends on the hip only through its position: moving the hip
   * by (dx, dy) moves every primitive of the figure by (dx, dy), radii
   * unchanged.
   */
  lemma BodyTranslate(hip: Point, dx: real, dy: real)
    ensures Body(Add(hip, dx, dy)) == TranslateAll(Body(hip), dx, dy)
  {
    var hip' := Add(hip, dx, dy);
    var b := Body(hip);
    var b' := Body(hip');
    var s := b[1].end;
    BodyOrder(hip);
    BodyOrder(hip');
    TorsoTranslate(hip, dx, dy);
    LimbTranslate(s, Right, Shoulder, UpperArm, LowerArm, HandHalfWidth, HandHalfHeight, dx, dy);
    LimbTranslate(s, Left, Shoulder, UpperArm, LowerArm, HandHalfWidth, HandHalfHeight, dx, dy);
    LimbTranslate(hip, Right, Hip, UpperLeg, LowerLeg, FootHalfWidth, FootHalfHeight, dx, dy);
    LimbTranslate(hip, Left, Hip, UpperLeg, LowerLeg, FootHalfWidth, FootHalfHeight, dx, dy);
    TranslateBySections(b, b', dx, dy);
  }

  /** Moving the hip moves the torso lines and the shoulder anchor, and the neck and head with them. */
  lemma TorsoTranslate(hip: Point, dx: real, dy: real)
    ensures Torso(Add(hip, dx, dy)).0 == TranslateAll(Torso(hip).0, dx, dy)
    ensures Torso(Add(hip, dx, dy)).1 == Add(Torso(hip).1, dx, dy)
    ensures NeckHead(Add(Torso(hip).1, dx, dy)) == TranslateAll(NeckHead(Torso(hip).1), dx, dy)
  {
  }

  /** Twenty primitives, each of whose sections is moved by (dx, dy), are moved as a whole. */
  lemma TranslateBySections(b: seq<Primitive>, b': seq<Primitive>, dx: real, dy: real)
    requires |b| == 20 && |b'| == 20
    requires b'[..2] == TranslateAll(b[..2], dx, dy) && b'[2..4] == TranslateAll(b[2..4], dx, dy)
    requires b'[4..8] == TranslateAll(b[4..8], dx, dy) && b'[8..12] == TranslateAll(b[8..12], dx, dy)
    requires b'[12..16] == TranslateAll(b[12..16], dx, dy) && b'[16..20] == TranslateAll(b[16..20], dx, dy)
    ensures b' == TranslateAll(b, dx, dy)
  {
    forall i | 0 <= i < 20
      ensures b'[i] == TranslatePrimitive(b[i], dx, dy)
    {
      if i < 2 {
        assert b'[i] == b'[..2][i];
      } else if i < 4 {
        assert b'[i] == b'[2..4][i - 2];
      } else if i < 8 {
        assert b'[i] == b'[4..8][i - 4];
      } else if i < 12 {
        assert b'[i] == b'[8..12][i - 8];
      } else if i < 16 {
        assert b'[i] == b'[12..16][i - 12];
      } else {
        assert b'[i] == b'[16..20][i - 16];
      }
    }
  }

  /** The body lengths in drawing units, head units scaled by ten. */
  lemma LengthTable()
    ensures Length(HeadHalfHeight) == 5.0 && Length(HeadHalfWidth) == 3.0 && Length(Neck) == 5.0
    ensures Length(Ribs) == 10.0 && Length(Belly) == 10.0 && Length(Shoulder) == 7.5
    ensures Length(UpperArm) == 12.5 && Length(LowerArm) == 10.0
    ensures Length(HandHalfHeight) == 3.0 && Length(HandHalfWidth) == 2.0
    ensures Length(Hip) == 5.0 && Length(UpperLeg) == 15.0 && Length(LowerLeg) == 15.0
    ensures Length(FootHalfHeight) == 1.5 && Length(FootHalfWidth) == 3.0
  {
  }

  /** The shoulder anchor sits 20 units above the hip; the head 10 above that, radii (3, 5). */
  lemma UpperJoints(hip: Point)
    ensures Torso(hip).1 == Point(hip.x, hip.y + 20.0)
    ensures NeckHead(Torso(hip).1)[0].end == Point(hip.x, hip.y + 25.0)
    ensures NeckHead(Torso(hip).1)[1] == Ellipse(Point(hip.x, hip.y + 30.0), 3.0, 5.0)
  {
    LengthTable();
  }

  /** The arm joints and hand, relative to the shoulder anchor. */
  lemma ArmJoints(shoulder: Point)
    ensures RightArm(shoulder)[0].end == Point(shoulder.x + 7.5, shoulder.y)
    ensures RightArm(shoulder)[2].end == Point(shoulder.x + 7.5, shoulder.y - 22.5)
    ensures RightArm(shoulder)[3] == Ellipse(Point(shoulder.x + 7.5, shoulder.y - 25.5), 2.0, 3.0)
    ensures LeftArm(shoulder)[0].end == Point(shoulder.x - 7.5, shoulder.y)
    ensures LeftArm(shoulder)[3] == Ellipse(Point(shoulder.x - 7.5, shoulder.y - 25.5), 2.0, 3.0)
  {
    LengthTable();
  }

  /** The leg joints and foot, relative to the hip. */
  lemma LegJoints(hip: Point)
    ensures RightLeg(hip)[0].end == Point(hip.x + 5.0, hip.y)
    ensures RightLeg(hip)[2].end == Point(hip.x + 5.0, hip.y - 30.0)
    ensures RightLeg(hip)[3] == Ellipse(Point(hip.x + 5.0, hip.y - 31.5), 3.0, 1.5)
    ensures LeftLeg(hip)[0].end == Point(hip.x - 5.0, hip.y)
    ensures LeftLeg(hip)[3] == Ellipse(Point(hip.x - 5.0, hip.y - 31.5), 3.0, 1.5)
  {
    LengthTable();
  }

  /**
   * The figure with its hip at the origin: shoulder anchor (0, 20), right
   * shoulder's end (7.5, 20), head centred at (0, 30) with radii (3, 5),
   * right foot centred at (5, -31.5) with radii (3, 1.5).
   */
  lemma OriginFigure()
    ensures Torso(Point(0.0, 0.0)).1 == Point(0.0, 20.0)
    ensures RightArm(Torso(Point(0.0, 0.0)).1)[0].end == Point(7.5, 20.0)
    ensures NeckHead(Torso(Point(0.0, 0.0)).1)[1] == Ellipse(Point(0.0, 30.0), 3.0, 5.0)
    ensures RightLeg(Point(0.0, 0.0))[3] == Ellipse(Point(5.0, -31.5), 3.0, 1.5)
  {
    var hip := Point(0.0, 0.0);
    UpperJoints(hip);
    ArmJoints(Torso(hip).1);
    LegJoints(hip);
  }
}
