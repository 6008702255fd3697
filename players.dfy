/** The first-person player controller (src/Player.cpp): a box-shaped body
    with a gravity clamp, a two-phase (horizontal, then vertical) move with a
    rollback scan after each phase, a jump guard, speed tiers, a crouch that
    keeps the feet planted, and an eye-height camera. */
module Players {
  import opened Vectors
  import opened Shapes

  // Tunables of include/Player.h.
  const DefaultRunSpeed: real := 5.0
  const WalkSpeed: real := 2.5
  const CrouchSpeed: real := 1.0
  const StandHeight: real := 2.0
  const CrouchHeight: real := 1.0
  const PlayerWidth: real := 0.8

  const PlayerGravity: real := -19.6
  const TerminalVelocity: real := -50.0
  /** std::sqrt(1.5f * std::abs(-19.6f) * 2.0f), that is the square root of 58.8,
      to seven decimals. */
  const JumpSpeed: real := 7.6681158
  const EyeFactor: real := 0.4

  /** Everything Player's methods read or write: the Shape part (position,
      velocity, scale) and the controller flags. */
  datatype PlayerState = PlayerState(position: Vec3, velocity: Vec3, scale: Vec3,
                                     grounded: bool, crouching: bool, runSpeed: real)
  {
    function Bounds(): Box {
      Box(position, scale)
    }
  }

  /** The body height matches the stance. */
  predicate Upright(s: PlayerState) {
    s.scale.y == (if s.crouching then CrouchHeight else StandHeight)
  }

  function InitialPlayer(startPos: Vec3): PlayerState {
    PlayerState(startPos, Zero, Vec3(PlayerWidth, StandHeight, PlayerWidth), false, false, DefaultRunSpeed)
  }

  lemma JumpSpeedIsSquareRoot()
    ensures 58.7999 < JumpSpeed * JumpSpeed < 58.8001
  {
  }

  // ---------------------------------------------------------------------
  // Specification of each operation, on values.

  /** Player::applyGravity: vy += -19.6*dt, floored at -50. */
  function GravityApplied(s: PlayerState, dt: real): PlayerState {
    var vy := s.velocity.y + PlayerGravity * dt;
    s.(velocity := s.velocity.(y := if vy < TerminalVelocity then TerminalVelocity else vy))
  }

  /** The speed tier Player::move picks. */
  function SpeedFor(crouching: bool, runSpeed: real): real {
    var speed := if crouching then CrouchSpeed else runSpeed;
    if runSpeed == 4.0 && !crouching then WalkSpeed else speed
  }

  /** Player::move: a non-zero direction sets the horizontal velocity to
      direction*speed; a zero one stops horizontal motion. Vertical velocity is kept. */
  function Moved(s: PlayerState, direction: Vec3): PlayerState {
    if LengthSq(direction) > 0.0 then
      s.(velocity := Scale(direction, SpeedFor(s.crouching, s.runSpeed)).(y := s.velocity.y))
    else
      s.(velocity := s.velocity.(x := 0.0, z := 0.0))
  }

  /** Player::jump. */
  function Jumped(s: PlayerState): PlayerState {
    if s.grounded && !s.crouching then s.(velocity := s.velocity.(y := JumpSpeed), grounded := false)
    else s
  }

  /** Player::setCrouch. */
  function Crouched(s: PlayerState, crouching: bool): PlayerState {
    var shift := (StandHeight - CrouchHeight) / 2.0;
    if crouching then
      if !s.crouching then
        s.(crouching := true, scale := s.scale.(y := CrouchHeight),
           position := s.position.(y := s.position.y - shift))
      else s
    else
      if s.crouching then
        s.(crouching := false, position := s.position.(y := s.position.y + shift),
           scale := s.scale.(y := StandHeight))
      else s
  }

  /** One iteration of the scan in Player::checkCollisions, against one collider. */
  function ScanOne(s: PlayerState, c: Box, step: Vec3): PlayerState {
    if Collides(s.Bounds(), c) then
      var hit :=
        if step.y < 0.0 then s.(grounded := true, velocity := s.velocity.(y := 0.0))
        else if step.y > 0.0 then s.(velocity := s.velocity.(y := 0.0))
        else s;
      hit.(position := Sub(s.position, step))
    else s
  }

  /** Player::checkCollisions over the colliders in world order: each test
      uses the position the previous rollbacks left. */
  function Scan(s: PlayerState, cs: seq<Box>, step: Vec3): PlayerState
    decreases |cs|
  {
    if cs == [] then s else ScanOne(Scan(s, cs[..|cs| - 1], step), cs[|cs| - 1], step)
  }

  /** How many colliders the scan finds overlapping (each costs one rollback). */
  function Hits(s: PlayerState, cs: seq<Box>, step: Vec3): nat
    decreases |cs|
  {
    if cs == [] then 0
    else
      var before := Scan(s, cs[..|cs| - 1], step);
      Hits(s, cs[..|cs| - 1], step) + if Collides(before.Bounds(), cs[|cs| - 1]) then 1 else 0
  }

  /** The horizontal phase of Player::update: vy held at zero, move by
      velocity*dt, then roll back against the world. */
  function HorizontalPhase(g: PlayerState, cs: seq<Box>, dt: real): PlayerState {
    var flat := g.velocity.(y := 0.0);
    var horizontalStep := Scale(flat, dt);
    Scan(g.(velocity := flat, position := Add(g.position, horizontalStep)), cs, horizontalStep)
  }

  /** The vertical move of Player::update, (0, vy*dt, 0). */
  function VerticalMove(vy: real, dt: real): Vec3 {
    Vec3(0.0, vy * dt, 0.0)
  }

  /** The state the vertical phase starts from: vy restored, moved by the
      vertical move, not grounded. */
  function VerticalStart(h: PlayerState, vy: real, dt: real): PlayerState {
    h.(velocity := h.velocity.(y := vy), position := Add(h.position, VerticalMove(vy, dt)), grounded := false)
  }

  /** The vertical phase of Player::update: start it, then roll back against
      the world with the vertical move as step. */
  function VerticalPhase(h: PlayerState, cs: seq<Box>, vy: real, dt: real): PlayerState {
    Scan(VerticalStart(h, vy, dt), cs, VerticalMove(vy, dt))
  }

  /** Player::update: gravity, the horizontal phase, then the vertical phase
      with the vy saved after gravity. */
  function Updated(s: PlayerState, cs: seq<Box>, dt: real): PlayerState {
    VerticalPhase(HorizontalPhase(GravityApplied(s, dt), cs, dt), cs, GravityApplied(s, dt).velocity.y, dt)
  }

  /** Player::getCameraPosition. */
  function CameraOf(s: PlayerState): Vec3 {
    Add(s.position, Vec3(0.0, s.scale.y * EyeFactor, 0.0))
  }

  // ---------------------------------------------------------------------
  // What the operations promise.

  /** Gravity never pushes vy below -50, and lowers vy by 19.6*dt otherwise. */
  lemma ApplyGravityClamp(s: PlayerState, dt: real)
    ensures GravityApplied(s, dt).velocity.y >= TerminalVelocity
    ensures GravityApplied(s, dt).velocity.y ==
              if s.velocity.y - 19.6 * dt < -50.0 then -50.0 else s.velocity.y - 19.6 * dt
    ensures GravityApplied(s, dt) == s.(velocity := GravityApplied(s, dt).velocity)
  {
  }

  /** The three speed tiers of move: crouching wins; walk only when runSpeed is exactly 4. */
  lemma SpeedTiers(crouching: bool, runSpeed: real)
    ensures crouching ==> SpeedFor(crouching, runSpeed) == CrouchSpeed
    ensures !crouching && runSpeed == 4.0 ==> SpeedFor(crouching, runSpeed) == WalkSpeed
    ensures !crouching && runSpeed != 4.0 ==> SpeedFor(crouching, runSpeed) == runSpeed
  {
  }

  /** move keeps vy and only sets the horizontal velocity. */
  lemma MoveKeepsVertical(s: PlayerState, d: Vec3)
    ensures Moved(s, d).velocity.y == s.velocity.y
    ensures Moved(s, d) == s.(velocity := Moved(s, d).velocity)
    ensures LengthSq(d) > 0.0 ==>
              Moved(s, d).velocity.x == d.x * SpeedFor(s.crouching, s.runSpeed) &&
              Moved(s, d).velocity.z == d.z * SpeedFor(s.crouching, s.runSpeed)
    ensures LengthSq(d) <= 0.0 ==> Moved(s, d).velocity.x == 0.0 && Moved(s, d).velocity.z == 0.0
  {
  }

  /** jump acts only when grounded and standing: vy becomes sqrt(58.8) and
      the player leaves the ground; otherwise nothing changes. */
  lemma JumpGuard(s: PlayerState)
    ensures s.grounded && !s.crouching ==>
              Jumped(s) == s.(velocity := s.velocity.(y := JumpSpeed), grounded := false)
    ensures !(s.grounded && !s.crouching) ==> Jumped(s) == s
    ensures !Jumped(s).grounded || Jumped(s) == s
  {
  }

  /** setCrouch is idempotent. */
  lemma CrouchIdempotent(s: PlayerState, c: bool)
    ensures Crouched(Crouched(s, c), c) == Crouched(s, c)
  {
  }

  /** setCrouch(true); setCrouch(false) restores a standing player exactly. */
  lemma CrouchRoundTrip(s: PlayerState)
    requires !s.crouching && Upright(s)
    ensures Crouched(Crouched(s, true), false) == s
  {
  }

  /** setCrouch keeps the body's height matching its stance and the bottom
      face (the feet) where it was. */
  lemma CrouchKeepsFeet(s: PlayerState, c: bool)
    requires Upright(s)
    ensures Upright(Crouched(s, c)) && Crouched(s, c).crouching == c
    ensures Crouched(s, c).position.y - Crouched(s, c).scale.y / 2.0 == s.position.y - s.scale.y / 2.0
    ensures Crouched(s, c).position.x == s.position.x && Crouched(s, c).position.z == s.position.z
  {
  }

  /** The eye sits inside the body box, and crouching lowers it by 0.9. */
  lemma CameraInsideBody(s: PlayerState)
    requires NonNegative(s.scale)
    ensures InBox(s.Bounds(), CameraOf(s))
    ensures Upright(s) && !s.crouching ==>
              CameraOf(Crouched(s, true)).y == CameraOf(s).y - 0.9
  {
  }

  /** The scan leaves everything but position, vy and grounded alone. */
  lemma {:induction false} ScanFrame(s: PlayerState, cs: seq<Box>, step: Vec3)
    ensures var r := Scan(s, cs, step);
            r.scale == s.scale && r.crouching == s.crouching && r.runSpeed == s.runSpeed &&
            r.velocity.x == s.velocity.x && r.velocity.z == s.velocity.z
    decreases |cs|
  {
    if cs != [] {
      ScanFrame(s, cs[..|cs| - 1], step);
    }
  }

  /** Rolling back n times and then once more is rolling back n + 1 times. */
  lemma RollbackOnceMore(p: Vec3, step: Vec3, n: nat)
    ensures Sub(Sub(p, Scale(step, n as real)), step) == Sub(p, Scale(step, (n + 1) as real))
  {
    var k := n as real;
    assert (k + 1.0) * step.x == k * step.x + step.x;
    assert (k + 1.0) * step.y == k * step.y + step.y;
    assert (k + 1.0) * step.z == k * step.z + step.z;
  }

  /** checkCollisions subtracts the step once per overlap found. */
  lemma {:induction false} ScanPosition(s: PlayerState, cs: seq<Box>, step: Vec3)
    ensures Scan(s, cs, step).position == Sub(s.position, Scale(step, Hits(s, cs, step) as real))
    decreases |cs|
  {
    if cs == [] {
      assert Scale(step, 0 as real) == Zero;
    } else {
      var init := cs[..|cs| - 1];
      ScanPosition(s, init, step);
      var before := Scan(s, init, step);
      if Collides(before.Bounds(), cs[|cs| - 1]) {
        RollbackOnceMore(s.position, step, Hits(s, init, step));
      }
    }
  }

  /** A downward step that hits grounds the player; any hit with a non-zero
      vertical step zeroes vy; without hits neither changes. */
  lemma {:induction false} ScanVertical(s: PlayerState, cs: seq<Box>, step: Vec3)
    ensures Scan(s, cs, step).grounded == (s.grounded || (step.y < 0.0 && Hits(s, cs, step) > 0))
    ensures Scan(s, cs, step).velocity.y == (if step.y != 0.0 && Hits(s, cs, step) > 0 then 0.0 else s.velocity.y)
    decreases |cs|
  {
    if cs != [] {
      ScanVertical(s, cs[..|cs| - 1], step);
    }
  }

  /** The horizontal phase scans with a zero vertical step, so it can change
      neither vy nor grounded. */
  lemma HorizontalScanKeepsVertical(s: PlayerState, cs: seq<Box>, step: Vec3)
    requires step.y == 0.0
    ensures Scan(s, cs, step).velocity == s.velocity
    ensures Scan(s, cs, step).grounded == s.grounded
  {
    ScanVertical(s, cs, step);
    ScanFrame(s, cs, step);
  }

  /** After update the player is grounded exactly when the vertical phase
      moved downwards and hit something; any vertical hit with a non-zero
      step zeroes vy; vy never ends below -50; horizontal velocity survives. */
  lemma UpdateOutcome(s: PlayerState, cs: seq<Box>, dt: real)
    ensures var g := GravityApplied(s, dt);
            var v := VerticalStart(HorizontalPhase(g, cs, dt), g.velocity.y, dt);
            var step := VerticalMove(g.velocity.y, dt);
            var n := Hits(v, cs, step);
            var r := Updated(s, cs, dt);
            (r.grounded <==> step.y < 0.0 && n > 0) &&
            r.velocity.y == (if step.y != 0.0 && n > 0 then 0.0 else g.velocity.y) &&
            r.velocity.y >= TerminalVelocity &&
            r.velocity.x == s.velocity.x && r.velocity.z == s.velocity.z &&
            r.scale == s.scale && r.crouching == s.crouching && r.runSpeed == s.runSpeed
  {
    ApplyGravityClamp(s, dt);
    var g := GravityApplied(s, dt);
    var flat := g.velocity.(y := 0.0);
    var horizontalStep := Scale(flat, dt);
    var h0 := g.(velocity := flat, position := Add(g.position, horizontalStep));
    HorizontalScanKeepsVertical(h0, cs, horizontalStep);
    ScanFrame(h0, cs, horizontalStep);
    var h := HorizontalPhase(g, cs, dt);
    assert h.velocity == flat && h.scale == s.scale && h.crouching == s.crouching && h.runSpeed == s.runSpeed;
    var v := VerticalStart(h, g.velocity.y, dt);
    assert v.velocity.x == s.velocity.x && v.velocity.z == s.velocity.z && !v.grounded;
    var step := VerticalMove(g.velocity.y, dt);
    ScanVertical(v, cs, step);
    ScanFrame(v, cs, step);
    var r := Updated(s, cs, dt);
    assert r == Scan(v, cs, step);
  }

  /** Player::update is its three steps in order. */
  lemma UpdatedInPhases(s: PlayerState, g: PlayerState, h: PlayerState, r: PlayerState, cs: seq<Box>, dt: real)
    requires g == GravityApplied(s, dt) && h == HorizontalPhase(g, cs, dt)
    requires r == VerticalPhase(h, cs, g.velocity.y, dt)
    ensures r == Updated(s, cs, dt)
  {
    assert Updated(s, cs, dt) == VerticalPhase(HorizontalPhase(g, cs, dt), cs, g.velocity.y, dt);
  }

  /** With nothing to collide with, update is free flight: both steps are
      taken in full and the player is not grounded. */
  lemma UpdateFreeFlight(s: PlayerState, dt: real)
    ensures var g := GravityApplied(s, dt);
            var r := Updated(s, [], dt);
            r.position == Vec3(s.position.x + s.velocity.x * dt,
                               s.position.y + 0.0 * dt + g.velocity.y * dt,
                               s.position.z + s.velocity.z * dt) &&
            r.velocity == g.velocity && !r.grounded
  {
    var g := GravityApplied(s, dt);
    var flat := g.velocity.(y := 0.0);
    var h := HorizontalPhase(g, [], dt);
    assert h == g.(velocity := flat, position := Add(g.position, Scale(flat, dt)));
    assert g.velocity.x == s.velocity.x && g.velocity.z == s.velocity.z;
    var v := VerticalStart(h, g.velocity.y, dt);
    assert Updated(s, [], dt) == v;
  }

  // ---------------------------------------------------------------------
  // The class.

  /** The collidable boxes of `world` in order, skipping `self` (the
      `obj.get() == this` test) and shapes with hasCollision false. */
  function Colliders(world: seq<Shape>, self: Shape): seq<Box>
    reads set o | o in world && o != self
    decreases |world|
  {
    if world == [] then []
    else
      var o := world[|world| - 1];
      var rest := Colliders(world[..|world| - 1], self);
      if o != self && o.hasCollision then rest + [o.Bounds()] else rest
  }

  /** A world that does not hold the player's body contributes exactly its
      collidable shapes. */
  lemma {:induction false} CollidersOfOutsider(world: seq<Shape>, self: Shape)
    requires self !in world
    ensures Colliders(world, self) == CollidableBoxes(Snapshots(world))
    decreases |world|
  {
    if world != [] {
      var init := world[..|world| - 1];
      CollidersOfOutsider(init, self);
      assert Snapshots(world)[..|world| - 1] == Snapshots(init);
    }
  }

  /** A world shape never sees the player's other parts change. */
  twostate predicate ShapeExtrasUnchanged(b: Shape)
    reads b
  {
    b.rotation == old(b.rotation) && b.useGravity == old(b.useGravity) &&
    b.isStatic == old(b.isStatic) && b.hasCollision == old(b.hasCollision)
  }

  class Player {
    /** The Shape part of the player (Player derives from Cube). */
    const body: Shape
    var isGrounded: bool
    var isCrouching: bool
    var runSpeed: real

    function State(): PlayerState
      reads this, body
    {
      PlayerState(body.position, body.velocity, body.scale, isGrounded, isCrouching, runSpeed)
    }

    /** Player::Player: a standing 0.8 x 2 x 0.8 body at startPos, at rest,
        not grounded, not crouching, collidable and without world gravity. */
    constructor (startPos: Vec3)
      ensures fresh(body)
      ensures State() == InitialPlayer(startPos) && Upright(State())
      ensures body.rotation == Zero && !body.useGravity && !body.isStatic && body.hasCollision
    {
      var b := new Shape();
      b.position := startPos;
      b.scale := Vec3(PlayerWidth, StandHeight, PlayerWidth);
      b.useGravity := false;
      b.hasCollision := true;
      body := b;
      isGrounded := false;
      isCrouching := false;
      runSpeed := DefaultRunSpeed;
    }

    /** Player::getCameraPosition: 40% of the body height above the centre. */
    function GetCameraPosition(): (eye: Vec3)
      reads this, body
      ensures NonNegative(body.scale) ==> InBox(body.Bounds(), eye)
    {
      assert NonNegative(body.scale) ==> InBox(body.Bounds(), CameraOf(State())) by {
        if NonNegative(body.scale) {
          CameraInsideBody(State());
        }
      }
      CameraOf(State())
    }

    /** Declared alongside setCrouch; the load step grounds the new player with it. */
    method SetGrounded(grounded: bool)
      modifies this
      ensures State() == old(State()).(grounded := grounded)
    {
      isGrounded := grounded;
    }

    method ApplyGravityStep(dt: real)
      modifies body
      ensures State() == GravityApplied(old(State()), dt)
      ensures ShapeExtrasUnchanged(body)
    {
      body.velocity := body.velocity.(y := body.velocity.y + PlayerGravity * dt);
      if body.velocity.y < TerminalVelocity {
        body.velocity := body.velocity.(y := TerminalVelocity);
      }
    }

    method Move(direction: Vec3)
      modifies body
      ensures State() == Moved(old(State()), direction)
      ensures ShapeExtrasUnchanged(body)
    {
      if LengthSq(direction) > 0.0 {
        var currentY := body.velocity.y;
        var speed := if isCrouching then CrouchSpeed else runSpeed;
        if runSpeed == 4.0 && !isCrouching {
          speed := WalkSpeed;
        }
        body.velocity := Scale(direction, speed);
        body.velocity := body.velocity.(y := currentY);
      } else {
        body.velocity := body.velocity.(x := 0.0, z := 0.0);
      }
    }

    method Jump()
      modifies this, body
      ensures State() == Jumped(old(State()))
      ensures ShapeExtrasUnchanged(body)
    {
      if isGrounded && !isCrouching {
        body.velocity := body.velocity.(y := JumpSpeed);
        isGrounded := false;
      }
    }

    method SetCrouch(crouching: bool)
      modifies this, body
      ensures State() == Crouched(old(State()), crouching)
      ensures ShapeExtrasUnchanged(body)
    {
      if crouching {
        if !isCrouching {
          isCrouching := true;
          body.scale := body.scale.(y := CrouchHeight);
          body.position := body.position.(y := body.position.y - (StandHeight - CrouchHeight) / 2.0);
        }
      } else {
        if isCrouching {
          isCrouching := false;
          body.position := body.position.(y := body.position.y + (StandHeight - CrouchHeight) / 2.0);
          body.scale := body.scale.(y := StandHeight);
        }
      }
    }

    /** Player::checkCollisions: for every other collidable shape that the
        body overlaps, in world order, roll back by velocityStep. */
    method CheckCollisions(world: seq<Shape>, velocityStep: Vec3)
      modifies this, body
      ensures State() == Scan(old(State()), Colliders(world, body), velocityStep)
      ensures ShapeExtrasUnchanged(body)
    {
      var i := 0;
      while i < |world|
        invariant 0 <= i <= |world|
        invariant State() == Scan(old(State()), Colliders(world[..i], body), velocityStep)
        invariant ShapeExtrasUnchanged(body)
      {
        var obj := world[i];
        ghost var prefix := Colliders(world[..i], body);
        assert world[..i + 1][..i] == world[..i];
        if obj != body && obj.hasCollision {
          assert Colliders(world[..i + 1], body) == prefix + [obj.Bounds()];
          CollideWith(obj, velocityStep);
        }
        i := i + 1;
      }
      assert world[..|world|] == world;
    }

    /** The body of the checkCollisions loop for a collidable shape other
        than the player: on overlap, settle vy by the step's direction and
        roll back by the step. */
    method CollideWith(obj: Shape, velocityStep: Vec3)
      requires obj != body
      modifies this, body
      ensures State() == ScanOne(old(State()), obj.Bounds(), velocityStep)
      ensures ShapeExtrasUnchanged(body)
    {
      if body.CheckCollision(obj) {
        if velocityStep.y < 0.0 {
          isGrounded := true;
          body.velocity := body.velocity.(y := 0.0);
        } else if velocityStep.y > 0.0 {
          body.velocity := body.velocity.(y := 0.0);
        }
        body.position := Sub(body.position, velocityStep);
      }
    }

    /** The horizontal phase of Player::update. */
    method MoveHorizontally(dt: real, world: seq<Shape>)
      modifies this, body
      ensures State() == HorizontalPhase(old(State()), Colliders(world, body), dt)
      ensures ShapeExtrasUnchanged(body)
    {
      body.velocity := body.velocity.(y := 0.0);
      body.position := Add(body.position, Scale(body.velocity, dt));
      CheckCollisions(world, Scale(body.velocity, dt));
    }

    /** The vertical phase of Player::update, with vy restored to `vy`. */
    method MoveVertically(vy: real, dt: real, world: seq<Shape>)
      modifies this, body
      ensures State() == VerticalPhase(old(State()), Colliders(world, body), vy, dt)
      ensures ShapeExtrasUnchanged(body)
    {
      ghost var before := State();
      body.velocity := body.velocity.(y := vy);
      var verticalMove := Vec3(0.0, body.velocity.y * dt, 0.0);
      body.position := Add(body.position, verticalMove);
      isGrounded := false;
      assert State() == VerticalStart(before, vy, dt);
      assert verticalMove == VerticalMove(vy, dt);
      CheckCollisions(world, verticalMove);
    }

    /** Player::update. */
    method Update(dt: real, world: seq<Shape>)
      modifies this, body
      ensures State() == Updated(old(State()), Colliders(world, body), dt)
      ensures ShapeExtrasUnchanged(body)
    {
      ghost var cs := Colliders(world, body);
      ghost var s0 := State();
      ApplyGravityStep(dt);
      ghost var g := State();
      var currentYVelocity := body.velocity.y;
      MoveHorizontally(dt, world);
      assert Colliders(world, body) == cs;
      ghost var h := State();
      assert h == HorizontalPhase(g, cs, dt);
      MoveVertically(currentYVelocity, dt, world);
      assert Colliders(world, body) == cs;
      UpdatedInPhases(s0, g, h, State(), cs, dt);
    }
  }
}
