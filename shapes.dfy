/** The shape base class (src/Shape.cpp): position, velocity, scale,
    rotation and the three physics flags, and the axis-aligned box test
    `checkCollision`. The model matrix, colour, textures and GL handles are
    rendering state and are not part of this model. */
module Shapes {
  import opened Vectors

  /** The axis-aligned box a shape occupies: centred at `centre`, extending
      half of `size` to each side on every axis. Rotation never enters it. */
  datatype Box = Box(centre: Vec3, size: Vec3)

  /** The physical state of one shape, as the world step sees it. */
  datatype Body = Body(position: Vec3, velocity: Vec3, scale: Vec3, rotation: Vec3,
                       useGravity: bool, isStatic: bool, hasCollision: bool)
  {
    function Bounds(): Box {
      Box(position, scale)
    }
  }

  /** The state `Shape::Shape()` leaves behind. */
  const DefaultBody: Body :=
    Body(Zero, Zero, Vec3(1.0, 1.0, 1.0), Zero, false, false, true)

  /** Closed-interval overlap on one axis: [c1-h1, c1+h1] meets [c2-h2, c2+h2]. */
  predicate AxisOverlap(c1: real, h1: real, c2: real, h2: real) {
    c1 + h1 >= c2 - h2 && c2 + h2 >= c1 - h1
  }

  /** Shape::checkCollision on the two boxes. */
  predicate Collides(a: Box, b: Box) {
    var half := Scale(a.size, 0.5);
    var otherHalf := Scale(b.size, 0.5);
    AxisOverlap(a.centre.x, half.x, b.centre.x, otherHalf.x) &&
    AxisOverlap(a.centre.y, half.y, b.centre.y, otherHalf.y) &&
    AxisOverlap(a.centre.z, half.z, b.centre.z, otherHalf.z)
  }

  predicate NonNegative(v: Vec3) {
    v.x >= 0.0 && v.y >= 0.0 && v.z >= 0.0
  }

  /** p lies in the closed box b. */
  predicate InBox(b: Box, p: Vec3) {
    b.centre.x - 0.5 * b.size.x <= p.x <= b.centre.x + 0.5 * b.size.x &&
    b.centre.y - 0.5 * b.size.y <= p.y <= b.centre.y + 0.5 * b.size.y &&
    b.centre.z - 0.5 * b.size.z <= p.z <= b.centre.z + 0.5 * b.size.z
  }

  /** Reference meaning of a collision: the two closed boxes share a point. */
  ghost predicate SharePoint(a: Box, b: Box) {
    exists p :: InBox(a, p) && InBox(b, p)
  }

  function Max(a: real, b: real): real {
    if a >= b then a else b
  }

  /** The lowest corner of the intersection of two boxes. */
  function LowCorner(a: Box, b: Box): Vec3 {
    Vec3(Max(a.centre.x - 0.5 * a.size.x, b.centre.x - 0.5 * b.size.x),
         Max(a.centre.y - 0.5 * a.size.y, b.centre.y - 0.5 * b.size.y),
         Max(a.centre.z - 0.5 * a.size.z, b.centre.z - 0.5 * b.size.z))
  }

  /** checkCollision is true exactly when the closed boxes intersect; in
      particular boxes that only touch along a face collide. */
  lemma CollidesIffSharePoint(a: Box, b: Box)
    requires NonNegative(a.size) && NonNegative(b.size)
    ensures Collides(a, b) <==> SharePoint(a, b)
  {
    if Collides(a, b) {
      var p := LowCorner(a, b);
      assert InBox(a, p) && InBox(b, p);
    }
    if SharePoint(a, b) {
      var p :| InBox(a, p) && InBox(b, p);
      assert Collides(a, b);
    }
  }

  /** a.checkCollision(b) == b.checkCollision(a). */
  lemma CollidesSymmetric(a: Box, b: Box)
    ensures Collides(a, b) == Collides(b, a)
  {
  }

  /** Two boxes of non-negative size around the same centre always collide. */
  lemma SameCentreCollides(a: Box, b: Box)
    requires NonNegative(a.size) && NonNegative(b.size) && a.centre == b.centre
    ensures Collides(a, b)
  {
  }

  /** Unit boxes placed side by side, faces touching, collide. */
  lemma TouchingFacesCollide(c: Vec3)
    ensures Collides(Box(c, Vec3(1.0, 1.0, 1.0)), Box(Add(c, Vec3(1.0, 0.0, 0.0)), Vec3(1.0, 1.0, 1.0)))
    ensures !Collides(Box(c, Vec3(1.0, 1.0, 1.0)), Box(Add(c, Vec3(1.5, 0.0, 0.0)), Vec3(1.0, 1.0, 1.0)))
  {
  }

  /** The bodies of the collidable shapes, as boxes, in order. */
  function CollidableBoxes(bs: seq<Body>): seq<Box>
    decreases |bs|
  {
    if bs == [] then []
    else
      var b := bs[|bs| - 1];
      CollidableBoxes(bs[..|bs| - 1]) + if b.hasCollision then [b.Bounds()] else []
  }

  /** The states of a sequence of shape objects. */
  function Snapshots(s: seq<Shape>): (r: seq<Body>)
    reads set o | o in s
    ensures |r| == |s|
    ensures forall k :: 0 <= k < |s| ==> r[k] == s[k].Snapshot()
    decreases |s|
  {
    if s == [] then [] else Snapshots(s[..|s| - 1]) + [s[|s| - 1].Snapshot()]
  }

  class Shape {
    var position: Vec3
    var velocity: Vec3
    var scale: Vec3
    var rotation: Vec3
    var useGravity: bool
    var isStatic: bool
    var hasCollision: bool

    /** Shape::Shape(): at the origin, at rest, unit scale, no rotation,
        no gravity, not static, collidable. */
    constructor ()
      ensures Snapshot() == DefaultBody
    {
      position := Zero;
      velocity := Zero;
      scale := Vec3(1.0, 1.0, 1.0);
      rotation := Zero;
      useGravity := false;
      isStatic := false;
      hasCollision := true;
    }

    function Snapshot(): Body
      reads this
    {
      Body(position, velocity, scale, rotation, useGravity, isStatic, hasCollision)
    }

    function Bounds(): Box
      reads this
    {
      Box(position, scale)
    }

    /** Shape::checkCollision: the test reads position and scale only. */
    predicate CheckCollision(other: Shape)
      reads this, other
    {
      Collides(Bounds(), other.Bounds())
    }

    method SetPosition(pos: Vec3)
      modifies this
      ensures Snapshot() == old(Snapshot()).(position := pos)
    {
      position := pos;
    }

    method SetScale(scaleVec: Vec3)
      modifies this
      ensures Snapshot() == old(Snapshot()).(scale := scaleVec)
    {
      scale := scaleVec;
    }

    /** Shape::rotate adds axis*angle to the rotation and changes nothing else. */
    method Rotate(angle: real, axis: Vec3)
      modifies this
      ensures Snapshot() == old(Snapshot()).(rotation := Add(old(rotation), Scale(axis, angle)))
    {
      rotation := Add(rotation, Scale(axis, angle));
    }
  }
}
