/** The friendly entity (src/FriendlyEntity.cpp): an entity with 50 health
    that wanders at half speed in a horizontal direction, drawing a new
    direction and a new wander period in [2, 5] seconds each time its timer
    runs out. The random draws are parameters. */
module Friendlies {
  import opened Vectors
  import opened Entities

  const WanderFactor: real := 0.5
  const MinChangeTime: real := 2.0
  const MaxChangeTime: real := 5.0

  datatype FriendlyState = FriendlyState(body: EntityState, wanderTimer: real, wanderDirection: Vec3,
                                         changeDirectionTime: real)

  /** A draw of glm::linearRand(2, 5). */
  predicate IsWanderTime(t: real) {
    MinChangeTime <= t <= MaxChangeTime
  }

  /** A draw of (linearRand(-1, 1), 0, linearRand(-1, 1)) that normalize
      accepts. */
  predicate IsWanderDraw(d: Vec3) {
    d.y == 0.0 && d != Zero
  }

  /** FriendlyEntity::FriendlyEntity, given the two draws it makes. */
  function InitialFriendly(start: Vec3, normalize: Vec3 -> Vec3, randomDir: Vec3, randomTime: real): FriendlyState {
    FriendlyState(InitialEntity.(health := 50.0, maxHealth := 50.0, moveSpeed := 1.5, position := start),
                  0.0, normalize(randomDir), randomTime)
  }

  /** FriendlyEntity::update, given the draws it would make if the timer
      runs out. */
  function FriendlyTicked(f: FriendlyState, dt: real, normalize: Vec3 -> Vec3, randomDir: Vec3, randomTime: real): FriendlyState {
    if !f.body.alive then f
    else
      var b := Ticked(f.body, dt);
      var timer := f.wanderTimer + dt;
      var g := if timer >= f.changeDirectionTime
               then f.(wanderDirection := normalize(randomDir), changeDirectionTime := randomTime, wanderTimer := 0.0)
               else f.(wanderTimer := timer);
      g.(body := Pushed(b, Scale(g.wanderDirection, WanderFactor), normalize))
  }

  /** Between updates: the wander period is in [2, 5], the timer has not yet
      reached it, the wander direction is a horizontal unit vector, and the
      entity faces horizontally. */
  predicate Wandering(f: FriendlyState) {
    IsWanderTime(f.changeDirectionTime) &&
    0.0 <= f.wanderTimer < f.changeDirectionTime &&
    f.wanderDirection.y == 0.0 && LengthSq(f.wanderDirection) == 1.0 &&
    f.body.direction.y == 0.0
  }

  // ---------------------------------------------------------------------

  /** A new friendly entity is live, consistent and wandering. */
  lemma InitialFriendlyWanders(start: Vec3, normalize: Vec3 -> Vec3, randomDir: Vec3, randomTime: real)
    requires IsNormalizer(normalize) && IsWanderDraw(randomDir) && IsWanderTime(randomTime)
    ensures var f := InitialFriendly(start, normalize, randomDir, randomTime);
            Wandering(f) && Consistent(f.body) && f.body.alive && f.body.position == start
  {
    var n := normalize(randomDir);
    assert IsUnitAlong(n, randomDir);
    HorizontalUnit(n, randomDir);
  }

  /** A dead friendly entity does not change. */
  lemma DeadFriendlyFrozen(f: FriendlyState, dt: real, normalize: Vec3 -> Vec3, randomDir: Vec3, randomTime: real)
    requires !f.body.alive
    ensures FriendlyTicked(f, dt, normalize, randomDir, randomTime) == f
  {
  }

  /** The timer grows by dt, and exactly when it reaches the wander period it
      restarts at zero with a fresh direction and period. */
  lemma TimerRule(f: FriendlyState, dt: real, normalize: Vec3 -> Vec3, randomDir: Vec3, randomTime: real)
    requires f.body.alive
    ensures var r := FriendlyTicked(f, dt, normalize, randomDir, randomTime);
            if f.wanderTimer + dt >= f.changeDirectionTime
            then r.wanderTimer == 0.0 && r.wanderDirection == normalize(randomDir) && r.changeDirectionTime == randomTime
            else r.wanderTimer == f.wanderTimer + dt && r.wanderDirection == f.wanderDirection &&
                 r.changeDirectionTime == f.changeDirectionTime
  {
  }

  /** Every live update ends facing the wander direction, with moveSpeed
      along it added to the velocity friction left, so the entity never
      leaves the horizontal. */
  lemma WanderStep(f: FriendlyState, dt: real, normalize: Vec3 -> Vec3, randomDir: Vec3, randomTime: real)
    requires f.body.alive && IsNormalizer(normalize)
    requires LengthSq(FriendlyTicked(f, dt, normalize, randomDir, randomTime).wanderDirection) == 1.0
    ensures var r := FriendlyTicked(f, dt, normalize, randomDir, randomTime);
            var b := Ticked(f.body, dt);
            r.body.direction == r.wanderDirection &&
            r.body.velocity == Add(b.velocity, Scale(r.wanderDirection, f.body.moveSpeed)) &&
            r.body.position == b.position && r.body.health == f.body.health
  {
    var r := FriendlyTicked(f, dt, normalize, randomDir, randomTime);
    var w := r.wanderDirection;
    var b := Ticked(f.body, dt);
    assert r.body == Pushed(b, Scale(w, WanderFactor), normalize);
    ScaledUnitLength(w, WanderFactor);
    assert normalize(Scale(w, WanderFactor)) == normalize(w) == w;
  }

  /** Updates with dt >= 0 and well-formed draws keep the entity wandering. */
  lemma UpdateKeepsWandering(f: FriendlyState, dt: real, normalize: Vec3 -> Vec3, randomDir: Vec3, randomTime: real)
    requires Wandering(f) && dt >= 0.0 && IsNormalizer(normalize)
    requires IsWanderDraw(randomDir) && IsWanderTime(randomTime)
    ensures Wandering(FriendlyTicked(f, dt, normalize, randomDir, randomTime))
  {
    if f.body.alive {
      var r := FriendlyTicked(f, dt, normalize, randomDir, randomTime);
      if f.wanderTimer + dt >= f.changeDirectionTime {
        var n := normalize(randomDir);
        assert IsUnitAlong(n, randomDir);
        HorizontalUnit(n, randomDir);
      }
      assert r.wanderDirection.y == 0.0 && LengthSq(r.wanderDirection) == 1.0;
      WanderStep(f, dt, normalize, randomDir, randomTime);
    }
  }

  class FriendlyEntity {
    const body: Entity
    var wanderTimer: real
    var wanderDirection: Vec3
    var changeDirectionTime: real

    function State(): FriendlyState
      reads this, body
    {
      FriendlyState(body.State(), wanderTimer, wanderDirection, changeDirectionTime)
    }

    constructor (start: Vec3, normalize: Vec3 -> Vec3, randomDir: Vec3, randomTime: real)
      ensures fresh(body) && State() == InitialFriendly(start, normalize, randomDir, randomTime)
    {
      var b := new Entity();
      b.health := 50.0;
      b.maxHealth := 50.0;
      b.moveSpeed := 1.5;
      b.position := start;
      b.isAlive := true;
      body := b;
      wanderTimer := 0.0;
      changeDirectionTime := randomTime;
      wanderDirection := normalize(randomDir);
    }

    method Update(dt: real, normalize: Vec3 -> Vec3, randomDir: Vec3, randomTime: real)
      modifies this, body
      ensures State() == FriendlyTicked(old(State()), dt, normalize, randomDir, randomTime)
    {
      if !body.isAlive {
        return;
      }
      ghost var f0 := State();
      body.Update(dt);
      assert body.State() == Ticked(f0.body, dt);
      wanderTimer := wanderTimer + dt;
      if wanderTimer >= changeDirectionTime {
        wanderDirection := normalize(randomDir);
        changeDirectionTime := randomTime;
        wanderTimer := 0.0;
      }
      body.Move(Scale(wanderDirection, WanderFactor), normalize);
    }
  }
}
