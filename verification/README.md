# Stick-figure layout, modelled in Dafny

This project models the procedural layout engine of a stick-figure drawing
program. A figure is anchored at its hip. The engine works outward from the
hip through chained offsets along the four cardinal directions, and so finds
every joint: the torso goes up to the shoulder anchor; the neck and head go
up from there; each arm reaches sideways from the shoulder anchor and then
hangs down; each leg reaches sideways from the hip and then hangs down. The
result is an ordered list of twenty drawing primitives (line segments and
ellipses), which the drawing wraps in a fixed opening and closing frame.

The modules follow the two source files:

- `Geometry` (`geometry.dfy`) models the point arithmetic of `point.js`:
  `add(x, y)` and `polar_add(rotation, length)`, where the rotation is
  measured in half-turns. It also holds the direction table.
- `Primitives` (`primitives.dfy`) models the emitters `svg_line`,
  `svg_ellipse` and `offset_ellipse`. It also gives primitives a markup form:
  an element name with an ordered list of named numeric attributes, which
  can be read back.
- `StickFigure` (`stick_figure.dfy`) models the body-length table, the six
  body-part steps of `StickFigure`, and the assembly of the body and the
  drawing in `svg()`. In the source, `torso()` stores the shoulder anchor in
  the mutable field `shoulder_nexus`. Here `Torso` returns it beside its two
  lines, and the neck and arm steps take it as an argument.
- `FigureProperties` (`figure_properties.dfy`) proves properties of the
  whole layout:
  - the left limbs are the mirror images of the right limbs;
  - the whole body is symmetric about the vertical line through the hip;
  - moving the hip moves every primitive by the same amount;
  - the joint positions follow from the length table, with the figure
    anchored at the origin as a worked example.

Coordinates are exact reals, with the y axis pointing up, as in the source's
polar convention. A direction is one of `Right | Up | Left | Down`, at 0,
0.5, 1 and 1.5 half-turns. These are the only angles the layout uses, and
their cosines and sines are taken as the exact values 1, 0 and -1.

For the figure anchored at the origin, the neck ends at (0, 25), and
`offset_ellipse` moves the head centre up by the head's half height of 5,
to (0, 30) (stick_figure.js:115-118, 50-55). `OriginFigure` and
`UpperJoints` state this position.

The placement rule of `offset_ellipse` moves the centre away from the base by
the y radius, whatever the direction (stick_figure.js:51-53). Up or down, the
base is then the end of the ellipse's vertical axis. Sideways, it misses the
end of the horizontal axis unless the ellipse is a circle.
`OffsetEllipseTouchesBase` states both directions of that equivalence. The
layout only pushes ellipses up or down, so every emitted ellipse touches its
base.

## Model

| member | source | states |
|---|---|---|
| Geometry.Add | point.js:11-13 | the result differs from the receiver by exactly (dx, dy) in each coordinate; points are values, so the receiver is unchanged |
| Geometry.AddInverse | point.js:11-13 | adding (dx, dy) and then (-dx, -dy) gives back the starting point |
| Geometry.AddCompose | point.js:11-13 | two successive adds equal one add of the summed components |
| Geometry.Angle | stick_figure.js:27-33 | the direction table: right, up, left and down are 0, 0.5, 1 and 1.5 half-turns, each angle in [0, 2) and belonging to exactly one direction |
| Geometry.UnitVector | point.js:22-26 | every direction's (cos, sin) pair has squared length 1 |
| Geometry.PolarAdd | point.js:22-29 | rotation 0 moves x by +length and keeps y; 0.5 moves y by +length and keeps x; 1 moves x by -length; 1.5 moves y by -length; length 0 returns the receiver |
| Geometry.PolarAddIsPolar | point.js:22-29 | the move is the polar offset: add(length * cos(rotation * pi), length * sin(rotation * pi)) |
| Geometry.PolarAddDistance | point.js:15-21 | the distance moved is length: the squared displacement is length squared |
| Geometry.PolarAddCompose | point.js:22-29 | two moves along the same direction equal one move by the sum of the lengths |
| Geometry.PolarAddInverse | point.js:22-29 | a move followed by a move of the same length half a turn away returns to the receiver |
| Geometry.PolarAddTranslate | point.js:22-29 | moving the receiver first and then the polar offset, or the other way round, gives the same point |
| Geometry.PolarAddMirror | point.js:22-29 | the mirror image of a move, in a vertical line, is the same-length move along the reflected direction from the mirrored receiver |
| Primitives.SvgLine | stick_figure.js:42-44 | a line element from exactly the given start to the given end |
| Primitives.SvgEllipse | stick_figure.js:46-48 | an ellipse element at the given centre whose radii are the x and y of the radii point |
| Primitives.OffsetEllipse | stick_figure.js:50-55 | radii (xr, yr); the centre is base moved by yr along the direction, whatever it is: base + (0, yr) up, base - (0, yr) down, base + (yr, 0) right, base - (yr, 0) left |
| Primitives.OffsetEllipseTouchesBase | stick_figure.js:50-55 | the base is the end of the ellipse's axis pointing back along the direction exactly when the direction is up or down or xr = yr |
| Primitives.Markup | stick_figure.js:42-48 | a line becomes a `line` element with four attributes and an ellipse an `ellipse` element with four |
| Primitives.ParseMarkup | stick_figure.js:42-48 | reading a primitive back from its markup gives the primitive: markup loses no coordinate or radius |
| Primitives.MarkupParse | stick_figure.js:42-48 | any element that reads back as a primitive is exactly that primitive's markup |
| StickFigure.Length | stick_figure.js:8-24 | every body length is strictly positive and at most one and a half heads (15 drawing units) |
| StickFigure.Torso | stick_figure.js:104-112 | the torso is two lines straight up from the hip, by belly then by ribs; the shoulder anchor it returns is the end of the second |
| StickFigure.NeckHead | stick_figure.js:114-120 | a neck line up from the shoulder anchor and a head ellipse of radii (head half width, head half height), centred that half height above the neck's end |
| StickFigure.Limb | stick_figure.js:122-168 | a limb is a line sideways from its anchor, two lines hanging down from there by the upper and lower lengths, and an end ellipse hanging below by its half height |
| StickFigure.RightArm | stick_figure.js:122-132 | the right arm's joints: shoulder end at +shoulder in x, then down by upper arm and lower arm, then the hand |
| StickFigure.LeftArm | stick_figure.js:134-144 | the left arm's joints: shoulder end at -shoulder in x, then as the right arm |
| StickFigure.RightLeg | stick_figure.js:146-156 | the right leg's joints: hip end at +hip in x, then down by upper leg and lower leg, then the foot |
| StickFigure.LeftLeg | stick_figure.js:158-168 | the left leg's joints: hip end at -hip in x, then as the right leg |
| StickFigure.Body | stick_figure.js:66-81 | the body is twenty primitives, whatever the hip |
| StickFigure.BodyOrder | stick_figure.js:66-81 | the body in drawing order: torso, neck and head, right arm, left arm, right leg, left leg; neck, head and arms depend only on the shoulder anchor, the legs only on the hip |
| StickFigure.BodyKinds | stick_figure.js:66-81 | the body is all lines except at positions 3, 7, 11, 15 and 19, which are ellipses: head, hands and feet |
| StickFigure.BodyConnected | stick_figure.js:108-167 | every section is a chain: it starts at the hip (torso, legs) or at the torso's end (neck, arms); each line ends where the next starts; the closing ellipse is placed from the last line's end |
| StickFigure.TorsoLinked | stick_figure.js:104-112 | the two torso lines start at the hip, meet, and end at the shoulder anchor |
| StickFigure.NeckHeadChain | stick_figure.js:114-120 | the neck starts at the shoulder anchor and the head is offset up from the neck's end |
| StickFigure.LimbChain | stick_figure.js:122-168 | a limb's three lines run unbroken from its anchor and the end ellipse is offset down from the last line's end |
| StickFigure.Svg | stick_figure.js:63-101 | the drawing is 26 entries: the four opening frame entries, the twenty body primitives in order, and the two closing entries |
| FigureProperties.LimbMirror | stick_figure.js:122-168 | a limb reaching the reflected way is the limb mirrored in the vertical line through its anchor |
| FigureProperties.LeftArmMirrorsRightArm | stick_figure.js:122-144 | the left arm is the right arm mirrored in the vertical line through the shoulder anchor: same y at every joint, x reflected |
| FigureProperties.LeftLegMirrorsRightLeg | stick_figure.js:146-168 | the left leg is the right leg mirrored in the vertical line through the hip |
| FigureProperties.CentreLineSymmetric | stick_figure.js:104-120 | torso, neck and head lie on the vertical line through the hip and are their own mirror images |
| FigureProperties.BodyMirror | stick_figure.js:66-81 | the mirrored body is the body with the arms swapped and the legs swapped |
| FigureProperties.BodySymmetric | stick_figure.js:66-81 | mirroring the body in the vertical line through the hip yields the same primitives |
| FigureProperties.LimbTranslate | stick_figure.js:122-168 | moving a limb's anchor moves each of its primitives by the same amount |
| FigureProperties.TorsoTranslate | stick_figure.js:104-120 | moving the hip moves the torso lines, the shoulder anchor, the neck and the head by the same amount |
| FigureProperties.BodyTranslate | stick_figure.js:58-81 | the layout depends on the hip only through its position: moving the hip by (dx, dy) moves every primitive by (dx, dy), radii unchanged |
| FigureProperties.LengthTable | stick_figure.js:5-24 | each body length in drawing units: its proportion in heads times the factor of 10 |
| FigureProperties.UpperJoints | stick_figure.js:104-119 | the shoulder anchor is the hip plus (0, 20), the neck ends at hip plus (0, 25), and the head is centred at hip plus (0, 30) with radii (3, 5) |
| FigureProperties.ArmJoints | stick_figure.js:122-143 | each shoulder ends 7.5 to the side of the anchor, the right wrist is at (+7.5, -22.5) from it, and each hand is centred at (±7.5, -25.5) with radii (2, 3) |
| FigureProperties.LegJoints | stick_figure.js:146-167 | each hip ends 5 to the side of the hip anchor, the right ankle is at (+5, -30) from it, and each foot is centred at (±5, -31.5) with radii (3, 1.5) |
| FigureProperties.OriginFigure | stick_figure.js:58-60 | for the default hip (0, 0): shoulder anchor (0, 20), right shoulder end (7.5, 20), head centre (0, 30) with radii (3, 5), right foot centre (5, -31.5) with radii (3, 1.5) |

## Left out

- Geometry.PolarAdd: the cosine and sine of the four cardinal angles are exact (1, 0, -1). The source calls floating-point `Math.cos` and `Math.sin`, and `Math.cos(0.5 * Math.PI)` is about 6e-17 rather than 0. Coordinates are exact reals, so rounding is not modelled.
- Geometry.Angle: only the four directions the layout uses are modelled. The `'16th'` entry of the direction table (stick_figure.js:29) is never used.
- The one-argument `add(other)` (point.js:7-9) is not modelled. The two-argument `add` declared after it replaces it, so it is dead code.
- Primitives.Markup: how the template strings print the numbers (stick_figure.js:43, 47) is not modelled. Markup keeps each attribute's name and its exact numeric value.
- The fixed markup of `svg_open` and `svg_close` (stick_figure.js:85-101) is kept only as four and two named frame entries, not as text.
- The final `flat()` and `join("\n")` into one string (stick_figure.js:81-82) are not modelled. `Svg` returns the flattened list of entries.
- StickFigure.Length: looking up a body length or a direction cannot fail, because the keys are enumerations. In the source, `Map.get` on an unknown key returns `undefined` and raises no error, and the layout only uses keys that exist.
- The mutable `shoulder_nexus` field and the order constraint it places on the calls (stick_figure.js:103-107) are replaced by a value: `Torso` returns the anchor and the later steps receive it. The constructor (stick_figure.js:58-60) becomes the `hip` argument, and its default (0, 0) is the hip `OriginFigure` uses.
- The code has no random jitter, no per-figure scale factor and no error path, so the model has none either.
