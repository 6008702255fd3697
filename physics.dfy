/** The physics scene (src/scenes/DemoPhysics.cpp): the shapes `load` puts in
    the world, and one frame of `update` -- the M-key post-processing latch,
    the world step over every shape in container order with rollback and
    respawn, and the first-person player driven by the keys held this frame. */
module Physics {
  import opened Vectors
  import opened Shapes
  import opened Players

  const WorldGravity: real := -19.6
  /** Shapes that fall below this height are respawned. */
  const FallLimit: real := -30.0
  const RespawnPoint: Vec3 := Vec3(0.0, 10.0, 0.0)

  /** Some other collidable body of the world overlaps `box`: the inner loop
      of the world step, which skips the shape itself (index i) and the
      shapes with hasCollision false. */
  predicate HitsOther(bs: seq<Body>, i: int, box: Box) {
    exists j :: 0 <= j < |bs| && j != i && bs[j].hasCollision && Collides(box, bs[j].Bounds())
  }

  /** The velocity after gravity: only shapes with useGravity get
      vy += -19.6*dt, and there is no clamp. */
  function GravityVelocity(b: Body, dt: real): Vec3 {
    if b.useGravity then b.velocity.(y := b.velocity.y + WorldGravity * dt) else b.velocity
  }

  /** Where the shape is tested: position + velocity*dt. */
  function MovedPosition(b: Body, dt: real): Vec3 {
    Add(b.position, Scale(GravityVelocity(b, dt), dt))
  }

  /** The world step for shape i, seeing the world as `bs`. */
  function StepShape(bs: seq<Body>, i: nat, dt: real): Body
    requires i < |bs|
  {
    var b := bs[i];
    if b.isStatic then b
    else
      var resolved :=
        if b.hasCollision && HitsOther(bs, i, Box(MovedPosition(b, dt), b.scale)) then b.(velocity := Zero)
        else b.(position := MovedPosition(b, dt), velocity := GravityVelocity(b, dt));
      if resolved.position.y < FallLimit then resolved.(position := RespawnPoint, velocity := Zero)
      else resolved
  }

  /** The world after the loop has processed shapes 0 .. n-1 in order. */
  function WorldPrefix(bs: seq<Body>, n: nat, dt: real): (r: seq<Body>)
    requires n <= |bs|
    ensures |r| == |bs|
    decreases n
  {
    if n == 0 then bs
    else
      var prev := WorldPrefix(bs, n - 1, dt);
      prev[n - 1 := StepShape(prev, n - 1, dt)]
  }

  /** One world step: the `for (auto& object : shapes)` loop. */
  function WorldStep(bs: seq<Body>, dt: real): (r: seq<Body>) {
    WorldPrefix(bs, |bs|, dt)
  }

  // ---------------------------------------------------------------------
  // What one shape's step promises.

  /** A static shape is skipped: nothing about it changes. */
  lemma StaticShapeSkipped(bs: seq<Body>, i: nat, dt: real)
    requires i < |bs| && bs[i].isStatic
    ensures StepShape(bs, i, dt) == bs[i]
  {
  }

  /** The step never changes scale, rotation or the three flags. */
  lemma StepKeepsShape(bs: seq<Body>, i: nat, dt: real)
    requires i < |bs|
    ensures var r := StepShape(bs, i, dt);
            r == bs[i].(position := r.position, velocity := r.velocity)
  {
  }

  /** A moving shape never ends its step below the fall limit. */
  lemma StepAboveFallLimit(bs: seq<Body>, i: nat, dt: real)
    requires i < |bs| && !bs[i].isStatic
    ensures StepShape(bs, i, dt).position.y >= FallLimit
  {
  }

  /** A collidable shape whose moved box overlaps another collidable shape
      ends at its pre-move position with zero velocity (or respawned, when
      that position is itself below the fall limit). */
  lemma StepRollsBack(bs: seq<Body>, i: nat, dt: real)
    requires i < |bs| && !bs[i].isStatic && bs[i].hasCollision
    requires HitsOther(bs, i, Box(MovedPosition(bs[i], dt), bs[i].scale))
    ensures bs[i].position.y >= FallLimit ==> StepShape(bs, i, dt) == bs[i].(velocity := Zero)
    ensures bs[i].position.y < FallLimit ==>
              StepShape(bs, i, dt) == bs[i].(position := RespawnPoint, velocity := Zero)
  {
  }

  /** A moving shape that is not blocked takes the full step, keeping the
      unclamped gravity velocity, unless it lands below the fall limit. A
      shape with hasCollision false is never blocked. */
  lemma StepMovesFreely(bs: seq<Body>, i: nat, dt: real)
    requires i < |bs| && !bs[i].isStatic
    requires !bs[i].hasCollision || !HitsOther(bs, i, Box(MovedPosition(bs[i], dt), bs[i].scale))
    ensures MovedPosition(bs[i], dt).y >= FallLimit ==>
              StepShape(bs, i, dt) == bs[i].(position := MovedPosition(bs[i], dt), velocity := GravityVelocity(bs[i], dt))
    ensures MovedPosition(bs[i], dt).y < FallLimit ==>
              StepShape(bs, i, dt) == bs[i].(position := RespawnPoint, velocity := Zero)
    ensures GravityVelocity(bs[i], dt).y ==
              bs[i].velocity.y + (if bs[i].useGravity then -19.6 * dt else 0.0)
  {
  }

  // ---------------------------------------------------------------------
  // What the whole loop promises.

  /** The loop has touched only the shapes before n; each of those keeps the
      value it had right after its own step. */
  lemma {:induction false} PrefixFrame(bs: seq<Body>, n: nat, dt: real)
    requires n <= |bs|
    ensures forall k :: n <= k < |bs| ==> WorldPrefix(bs, n, dt)[k] == bs[k]
    ensures forall k :: 0 <= k < n ==> WorldPrefix(bs, n, dt)[k] == WorldPrefix(bs, k + 1, dt)[k]
    decreases n
  {
    if n > 0 {
      PrefixFrame(bs, n - 1, dt);
    }
  }

  /** Container order: shape k is stepped seeing the new state of the
      shapes before it and the old state of itself and the shapes after it. */
  lemma WorldOrder(bs: seq<Body>, k: nat, dt: real)
    requires k < |bs|
    ensures WorldPrefix(bs, k, dt) == WorldStep(bs, dt)[..k] + bs[k..]
    ensures WorldStep(bs, dt)[k] == StepShape(WorldStep(bs, dt)[..k] + bs[k..], k, dt)
  {
    PrefixFrame(bs, k, dt);
    PrefixFrame(bs, |bs|, dt);
    var p := WorldPrefix(bs, k, dt);
    var w := WorldStep(bs, dt);
    forall j | 0 <= j < |bs|
      ensures p[j] == (w[..k] + bs[k..])[j]
    {
      if j < k {
        assert w[j] == WorldPrefix(bs, j + 1, dt)[j];
      }
    }
    assert p == w[..k] + bs[k..];
    assert w[k] == WorldPrefix(bs, k + 1, dt)[k];
  }

  /** The flags of every shape survive the loop. */
  lemma {:induction false} PrefixKeepsFlags(bs: seq<Body>, n: nat, dt: real)
    requires n <= |bs|
    ensures forall k :: 0 <= k < |bs| ==>
              var r := WorldPrefix(bs, n, dt)[k];
              r.isStatic == bs[k].isStatic && r.useGravity == bs[k].useGravity &&
              r.hasCollision == bs[k].hasCollision && r.scale == bs[k].scale && r.rotation == bs[k].rotation
    decreases n
  {
    if n > 0 {
      PrefixKeepsFlags(bs, n - 1, dt);
      StepKeepsShape(WorldPrefix(bs, n - 1, dt), n - 1, dt);
    }
  }

  /** After a world step, static shapes are exactly as before and every
      other shape is at or above the fall limit. */
  lemma WorldStepOutcome(bs: seq<Body>, dt: real)
    ensures |WorldStep(bs, dt)| == |bs|
    ensures forall k :: 0 <= k < |bs| && bs[k].isStatic ==> WorldStep(bs, dt)[k] == bs[k]
    ensures forall k :: 0 <= k < |bs| && !bs[k].isStatic ==> WorldStep(bs, dt)[k].position.y >= FallLimit
  {
    forall k | 0 <= k < |bs|
      ensures bs[k].isStatic ==> WorldStep(bs, dt)[k] == bs[k]
      ensures !bs[k].isStatic ==> WorldStep(bs, dt)[k].position.y >= FallLimit
    {
      WorldOrder(bs, k, dt);
      var before := WorldStep(bs, dt)[..k] + bs[k..];
      assert before[k] == bs[k];
      if bs[k].isStatic {
        StaticShapeSkipped(before, k, dt);
      } else {
        StepAboveFallLimit(before, k, dt);
      }
    }
  }

  /** The world step keeps every shape's scale, rotation and flags. */
  lemma WorldStepKeepsFlags(bs: seq<Body>, dt: real)
    ensures forall k :: 0 <= k < |bs| ==>
              var r := WorldStep(bs, dt)[k];
              r == bs[k].(position := r.position, velocity := r.velocity)
  {
    PrefixKeepsFlags(bs, |bs|, dt);
  }

  // ---------------------------------------------------------------------
  // The M-key latch and the player's input.

  /** The post-processing flag and the latch after one frame's M test. */
  datatype Latch = Latch(enabled: bool, latched: bool)

  function LatchStep(l: Latch, mDown: bool): (r: Latch) {
    var toggled := if mDown && !l.latched then Latch(!l.enabled, true) else l;
    if !mDown then toggled.(latched := false) else toggled
  }

  /** After every frame the latch holds exactly whether M is down, so the
      flag flips exactly on a frame where M goes down after being up. */
  lemma LatchFollowsKey(l: Latch, mDown: bool)
    ensures LatchStep(l, mDown).latched == mDown
    ensures LatchStep(l, mDown).enabled == (l.enabled != (mDown && !l.latched))
  {
  }

  /** Holding M down for several frames toggles post-processing once. */
  lemma {:induction false} HeldKeyTogglesOnce(l: Latch, frames: nat)
    requires !l.latched && frames >= 1
    ensures HoldFor(l, frames) == Latch(!l.enabled, true)
    decreases frames
  {
    if frames > 1 {
      HeldKeyTogglesOnce(l, frames - 1);
    }
  }

  /** The latch after `frames` frames with M held down. */
  function HoldFor(l: Latch, frames: nat): Latch
    decreases frames
  {
    if frames == 0 then l else LatchStep(HoldFor(l, frames - 1), true)
  }

  /** The keys and camera vectors `update` polls, as one snapshot. `flatFront`
      and `flatRight` are the normalized horizontal camera vectors, and
      `moveUnit` is the normalization of the summed direction. */
  datatype FrameInput = FrameInput(reload: bool, mDown: bool,
                                   forward: bool, back: bool, left: bool, right: bool,
                                   shift: bool, crouch: bool, space: bool,
                                   flatFront: Vec3, flatRight: Vec3, moveUnit: Vec3)

  /** W, S, A, D summed over the flat camera vectors. */
  function RawMoveDir(input: FrameInput): Vec3 {
    var d0 := Zero;
    var d1 := if input.forward then Add(d0, input.flatFront) else d0;
    var d2 := if input.back then Sub(d1, input.flatFront) else d1;
    var d3 := if input.left then Sub(d2, input.flatRight) else d2;
    if input.right then Add(d3, input.flatRight) else d3
  }

  /** The snapshot's normalization is the one `glm::normalize` would give. */
  predicate WellFormedInput(input: FrameInput) {
    LengthSq(RawMoveDir(input)) > 0.0 ==> IsUnitAlong(input.moveUnit, RawMoveDir(input))
  }

  function MoveDirOf(input: FrameInput): Vec3 {
    if LengthSq(RawMoveDir(input)) > 0.0 then input.moveUnit else RawMoveDir(input)
  }

  function SceneRunSpeed(shift: bool): real {
    if shift then 8.0 else 6.0
  }

  /** The keys' effect on the player before its update: run speed, crouch,
      jump, move. */
  function Steered(s: PlayerState, input: FrameInput): PlayerState {
    var c := Crouched(s.(runSpeed := SceneRunSpeed(input.shift)), input.crouch);
    var j := if input.space then Jumped(c) else c;
    Moved(j, MoveDirOf(input))
  }

  /** Steered is its four steps in order. */
  lemma SteeredInSteps(s0: PlayerState, fast: PlayerState, c: PlayerState, j: PlayerState, r: PlayerState, input: FrameInput)
    requires fast == s0.(runSpeed := SceneRunSpeed(input.shift))
    requires c == Crouched(fast, input.crouch)
    requires j == if input.space then Jumped(c) else c
    requires r == Moved(j, MoveDirOf(input))
    ensures r == Steered(s0, input)
  {
  }

  /** The player part of one frame: the keys, then update. */
  function PlayerFrame(s: PlayerState, input: FrameInput, cs: seq<Box>, dt: real): PlayerState {
    Updated(Steered(s, input), cs, dt)
  }

  /** The scene sets runSpeed to 8 or 6 every frame, so the walk tier of
      move is never chosen. */
  lemma SceneNeverWalks(crouching: bool, shift: bool)
    ensures SpeedFor(crouching, SceneRunSpeed(shift)) != WalkSpeed
    ensures SpeedFor(crouching, SceneRunSpeed(shift)) == if crouching then CrouchSpeed else SceneRunSpeed(shift)
  {
  }

  /** Whatever the collisions, the player's horizontal velocity after the
      frame is the move direction times the stance's speed. */
  lemma FrameHorizontalVelocity(s: PlayerState, input: FrameInput, cs: seq<Box>, dt: real)
    ensures var d := MoveDirOf(input);
            var speed := if input.crouch then CrouchSpeed else SceneRunSpeed(input.shift);
            var r := PlayerFrame(s, input, cs, dt);
            LengthSq(d) > 0.0 ==> r.velocity.x == d.x * speed && r.velocity.z == d.z * speed
    ensures LengthSq(MoveDirOf(input)) <= 0.0 ==>
              PlayerFrame(s, input, cs, dt).velocity.x == 0.0 && PlayerFrame(s, input, cs, dt).velocity.z == 0.0
  {
    var c := Crouched(s.(runSpeed := SceneRunSpeed(input.shift)), input.crouch);
    var j := if input.space then Jumped(c) else c;
    CrouchKeepsRunSpeed(s.(runSpeed := SceneRunSpeed(input.shift)), input.crouch);
    SceneNeverWalks(input.crouch, input.shift);
    MoveKeepsVertical(j, MoveDirOf(input));
    UpdateOutcome(Moved(j, MoveDirOf(input)), cs, dt);
  }

  lemma CrouchKeepsRunSpeed(s: PlayerState, c: bool)
    ensures Crouched(s, c).runSpeed == s.runSpeed && Crouched(s, c).crouching == c
  {
  }

  // ---------------------------------------------------------------------
  // The scene.

  /** The four shapes `load` creates, in order: the static floor, the falling
      cube, the floating cube and the floating sphere. */
  const InitialWorld: seq<Body> := [
    DefaultBody.(position := Vec3(0.0, -2.5, 0.0), scale := Vec3(40.0, 0.1, 40.0), isStatic := true),
    DefaultBody.(position := Vec3(0.5, 5.0, 0.0), useGravity := true),
    DefaultBody.(position := Vec3(-2.5, 1.0, 2.0)),
    DefaultBody.(position := Vec3(2.5, 1.0, 2.0))
  ]

  const PlayerStart: Vec3 := Vec3(0.0, -1.5, 2.0)

  /** The player `load` creates stands on the floor: its box touches the
      floor's top face, and it is grounded. */
  lemma LoadedPlayerOnFloor()
    ensures Collides(InitialPlayer(PlayerStart).Bounds(), InitialWorld[0].Bounds())
    ensures !Collides(InitialPlayer(PlayerStart).(position := Vec3(0.0, -1.0, 2.0)).Bounds(), InitialWorld[0].Bounds())
  {
  }

  /** A default shape placed at `pos` with the given scale, collidable,
      falling under gravity when `gravity` holds. */
  method NewShape(pos: Vec3, scaleVec: Vec3, gravity: bool) returns (s: Shape)
    ensures fresh(s)
    ensures s.Snapshot() == DefaultBody.(position := pos, scale := scaleVec, useGravity := gravity)
  {
    s := new Shape();
    s.SetPosition(pos);
    s.SetScale(scaleVec);
    s.useGravity := gravity;
    s.hasCollision := true;
  }

  /** Snapshots is determined by the shapes' states one by one. */
  lemma SnapshotsPointwise(s: seq<Shape>, bs: seq<Body>)
    requires |s| == |bs| && forall k :: 0 <= k < |s| ==> s[k].Snapshot() == bs[k]
    ensures Snapshots(s) == bs
  {
  }

  /** The shapes of DemoPhysics::load, pushed in order. */
  method NewWorld() returns (ws: seq<Shape>)
    ensures forall k :: 0 <= k < |ws| ==> fresh(ws[k])
    ensures Distinct(ws) && |ws| == |InitialWorld|
    ensures forall k :: 0 <= k < |ws| ==> ws[k].Snapshot() == InitialWorld[k]
  {
    ws := [];
    var floor := NewShape(Vec3(0.0, -2.5, 0.0), Vec3(40.0, 0.1, 40.0), false);
    floor.isStatic := true;
    assert floor.Snapshot() == InitialWorld[0];
    ws := ws + [floor];
    var fallingCube := NewShape(Vec3(0.5, 5.0, 0.0), Vec3(1.0, 1.0, 1.0), true);
    assert fallingCube.Snapshot() == InitialWorld[1];
    ws := ws + [fallingCube];
    var floatingCube := NewShape(Vec3(-2.5, 1.0, 2.0), Vec3(1.0, 1.0, 1.0), false);
    assert floatingCube.Snapshot() == InitialWorld[2];
    ws := ws + [floatingCube];
    var floatingSphere := NewShape(Vec3(2.5, 1.0, 2.0), Vec3(1.0, 1.0, 1.0), false);
    assert floatingSphere.Snapshot() == InitialWorld[3];
    ws := ws + [floatingSphere];
    assert ws == [floor, fallingCube, floatingCube, floatingSphere];
  }

  /** The player of DemoPhysics::load: made at (0, -1.5, 2) and grounded. */
  method SpawnPlayer() returns (p: Player)
    ensures fresh(p) && fresh(p.body)
    ensures p.State() == InitialPlayer(PlayerStart).(grounded := true)
  {
    p := new Player(PlayerStart);
    p.SetGrounded(true);
  }

  predicate Distinct(s: seq<Shape>) {
    forall a, b :: 0 <= a < b < |s| ==> s[a] != s[b]
  }

  class DemoPhysics {
    var shapes: seq<Shape>
    var player: Player
    /** postProcessor->enabled. */
    var postProcessing: bool
    /** The function-static mKeyPressed: it survives a reload. */
    var mKeyPressed: bool
    /** The global cameraPos the frame writes. */
    var cameraPos: Vec3

    /** The shapes are distinct objects (they are unique_ptrs) and the
        player's body is not one of them. */
    predicate Valid()
      reads this, player
    {
      Distinct(shapes) && player.body !in shapes
    }

    /** The engine loads a scene right after creating it. */
    constructor ()
      ensures Valid() && Snapshots(shapes) == InitialWorld && !mKeyPressed
    {
      shapes := [];
      player := new Player(PlayerStart);
      mKeyPressed := false;
      new;
      Load();
    }

    /** DemoPhysics::load: the four shapes, post-processing on, and the
        player at (0, -1.5, 2), grounded. */
    method Load()
      modifies this
      ensures Valid() && fresh(player) && fresh(player.body)
      ensures Snapshots(shapes) == InitialWorld
      ensures player.State() == InitialPlayer(PlayerStart).(grounded := true)
      ensures postProcessing && mKeyPressed == old(mKeyPressed) && cameraPos == old(cameraPos)
    {
      var ws := NewWorld();
      SnapshotsPointwise(ws, InitialWorld);
      var p := SpawnPlayer();
      shapes := ws;
      postProcessing := true;
      player := p;
    }

    /** The world loop of DemoPhysics::update. */
    method StepWorld(dt: real)
      requires Valid()
      modifies shapes
      ensures Snapshots(shapes) == WorldStep(old(Snapshots(shapes)), dt)
      ensures player.State() == old(player.State())
    {
      ghost var start := Snapshots(shapes);
      var i := 0;
      while i < |shapes|
        invariant 0 <= i <= |shapes|
        invariant Snapshots(shapes) == WorldPrefix(start, i, dt)
      {
        ghost var before := Snapshots(shapes);
        StepObject(i, dt);
        assert Snapshots(shapes) == before[i := StepShape(before, i, dt)];
        i := i + 1;
      }
    }

    /** One iteration of the world loop: shapes[i] is stepped, rolled back
        against every other collidable shape and respawned if it fell. */
    method StepObject(i: nat, dt: real)
      requires i < |shapes| && Distinct(shapes)
      modifies shapes[i]
      ensures shapes[i].Snapshot() == StepShape(old(Snapshots(shapes)), i, dt)
    {
      ghost var bs := Snapshots(shapes);
      var obj := shapes[i];
      if obj.isStatic {
        return;
      }
      if obj.useGravity {
        obj.velocity := obj.velocity.(y := obj.velocity.y + WorldGravity * dt);
      }
      var oldPosition := obj.position;
      obj.SetPosition(Add(obj.position, Scale(obj.velocity, dt)));
      if obj.hasCollision {
        RollBack(i, oldPosition, bs);
      }
      if obj.position.y < FallLimit {
        obj.SetPosition(RespawnPoint);
        obj.velocity := Zero;
      }
    }

    /** The inner loop of the world step: shapes[i], already moved, goes
        back to oldPosition and stops when it overlaps any other collidable
        shape; `bs` is the world as the step saw it. */
    method RollBack(i: nat, oldPosition: Vec3, ghost bs: seq<Body>)
      requires i < |shapes| == |bs| && Distinct(shapes) && shapes[i].hasCollision
      requires forall k :: 0 <= k < |shapes| && k != i ==> shapes[k].Snapshot() == bs[k]
      modifies shapes[i]
      ensures var b := old(shapes[i].Snapshot());
              shapes[i].Snapshot() ==
                if HitsOther(bs, i, Box(b.position, b.scale)) then b.(position := oldPosition, velocity := Zero) else b
    {
      var obj := shapes[i];
      ghost var b := obj.Snapshot();
      ghost var hit := false;
      var j := 0;
      while j < |shapes|
        invariant 0 <= j <= |shapes|
        invariant hit == exists k :: 0 <= k < j && k != i && bs[k].hasCollision && Collides(Box(b.position, b.scale), bs[k].Bounds())
        invariant obj.Snapshot() == if hit then b.(position := oldPosition, velocity := Zero) else b
      {
        var other := shapes[j];
        if other != obj && other.hasCollision {
          assert j != i && other.Snapshot() == bs[j];
          if obj.CheckCollision(other) {
            obj.SetPosition(oldPosition);
            obj.velocity := Zero;
            hit := true;
          }
        }
        j := j + 1;
      }
    }

    /** The M-key latch: toggle post-processing on a press while not
        latched, unlatch while M is up. */
    method ToggleLatch(mDown: bool)
      modifies this
      ensures Latch(postProcessing, mKeyPressed) == LatchStep(Latch(old(postProcessing), old(mKeyPressed)), mDown)
      ensures shapes == old(shapes) && player == old(player) && cameraPos == old(cameraPos)
    {
      if mDown && !mKeyPressed {
        postProcessing := !postProcessing;
        mKeyPressed := true;
      }
      if !mDown {
        mKeyPressed := false;
      }
    }

    /** The key handling of the frame: run speed from Shift, crouch from C,
        jump on Space, move along the normalized key direction. */
    method SteerPlayer(input: FrameInput)
      modifies player, player.body
      ensures player.State() == Steered(old(player.State()), input)
    {
      var p := player;
      ghost var s0 := p.State();
      p.runSpeed := SceneRunSpeed(input.shift);
      ghost var fast := p.State();
      assert fast == s0.(runSpeed := SceneRunSpeed(input.shift));
      p.SetCrouch(input.crouch);
      ghost var c := p.State();
      if input.space { p.Jump(); }
      ghost var j := p.State();
      p.Move(MoveDirOf(input));
      SteeredInSteps(s0, fast, c, j, p.State(), input);
    }

    /** The player part of the frame: run speed from Shift, crouch from C,
        jump on Space, move along the normalized key direction, update
        against the shapes. */
    method DrivePlayer(dt: real, input: FrameInput)
      requires 0.0 <= dt <= 0.05
      requires Valid() && WellFormedInput(input)
      modifies player, player.body
      ensures player.State() == PlayerFrame(old(player.State()), input, CollidableBoxes(Snapshots(shapes)), dt)
      ensures Snapshots(shapes) == old(Snapshots(shapes))
    {
      ghost var world := Snapshots(shapes);
      SteerPlayer(input);
      player.Update(dt, shapes);
      assert forall k :: 0 <= k < |shapes| ==> shapes[k] != player.body && shapes[k].Snapshot() == world[k];
      SnapshotsPointwise(shapes, world);
      CollidersOfOutsider(shapes, player.body);
    }

    /** The simulation part of a frame: the latch, the world step and the
        player, in that order. */
    method Advance(dt: real, input: FrameInput)
      requires 0.0 <= dt <= 0.05
      requires Valid() && WellFormedInput(input)
      modifies this, shapes, player, player.body
      ensures Valid() && shapes == old(shapes) && player == old(player) && cameraPos == old(cameraPos)
      ensures Snapshots(shapes) == WorldStep(old(Snapshots(shapes)), dt)
      ensures Latch(postProcessing, mKeyPressed) == LatchStep(Latch(old(postProcessing), old(mKeyPressed)), input.mDown)
      ensures player.State() == PlayerFrame(old(player.State()), input, CollidableBoxes(Snapshots(shapes)), dt)
    {
      ToggleLatch(input.mDown);
      StepWorld(dt);
      DrivePlayer(dt, input);
    }

    /** A frame without reload: the latch, the world step, the player and
        the camera, in that order. */
    method Tick(dt: real, input: FrameInput)
      requires 0.0 <= dt <= 0.05
      requires Valid() && WellFormedInput(input)
      modifies this, shapes, player, player.body
      ensures Valid() && shapes == old(shapes) && player == old(player)
      ensures Snapshots(shapes) == WorldStep(old(Snapshots(shapes)), dt)
      ensures Latch(postProcessing, mKeyPressed) == LatchStep(Latch(old(postProcessing), old(mKeyPressed)), input.mDown)
      ensures player.State() == PlayerFrame(old(player.State()), input, CollidableBoxes(Snapshots(shapes)), dt)
      ensures cameraPos == CameraOf(player.State())
    {
      Advance(dt, input);
      cameraPos := player.GetCameraPosition();
    }

    /** DemoPhysics::update from line 124 to 191, for a frame whose keys and
        camera vectors are `input`: R reloads the scene and ends the frame. */
    method Update(dt: real, input: FrameInput)
      requires 0.0 <= dt <= 0.05
      requires Valid() && WellFormedInput(input)
      modifies this, shapes, player, player.body
      ensures Valid()
      ensures input.reload ==>
                Snapshots(shapes) == InitialWorld && player.State() == InitialPlayer(PlayerStart).(grounded := true) &&
                postProcessing && mKeyPressed == old(mKeyPressed) && cameraPos == old(cameraPos)
      ensures !input.reload ==>
                shapes == old(shapes) && player == old(player) &&
                Snapshots(shapes) == WorldStep(old(Snapshots(shapes)), dt) &&
                Latch(postProcessing, mKeyPressed) == LatchStep(Latch(old(postProcessing), old(mKeyPressed)), input.mDown) &&
                player.State() == PlayerFrame(old(player.State()), input, CollidableBoxes(Snapshots(shapes)), dt) &&
                cameraPos == CameraOf(player.State())
    {
      if input.reload {
        Load();
      } else {
        Tick(dt, input);
      }
    }
  }
}
