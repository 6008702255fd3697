/** The enemy entity (src/EnemyEntity.cpp): an entity with 75 health that
    chases a target once it has one (after setTargetPosition or after taking
    damage), stops within attack range, and otherwise patrols in a random
    horizontal direction whenever it has come to rest. The random direction
    is a parameter of update. */
module Enemies {
  import opened Vectors
  import opened Entities

  /** attackRange and detectionRange are set by the constructor and never
      written again. detectionRange is never read. */
  const AttackRange: real := 1.5
  const DetectionRange: real := 8.0
  /** The patrol speed threshold 0.1, squared. */
  const RestSpeedSq: real := 0.01
  const PatrolFactor: real := 0.3

  datatype EnemyState = EnemyState(body: EntityState, target: Vec3, hasTarget: bool)

  /** EnemyEntity::EnemyEntity: Entity() and then 75/75 health, speed 2,
      at the start position, with the target there too but not set. */
  function InitialEnemy(start: Vec3): EnemyState {
    EnemyState(InitialEntity.(health := 75.0, maxHealth := 75.0, moveSpeed := 2.0, position := start),
               start, false)
  }

  /** EnemyEntity::update; `randomDir` is the glm::linearRand vector the
      patrol branch would draw. */
  function EnemyTicked(e: EnemyState, dt: real, normalize: Vec3 -> Vec3, randomDir: Vec3): EnemyState {
    if !e.body.alive then e
    else
      var b := Ticked(e.body, dt);
      if e.hasTarget then
        var toTarget := Sub(e.target, b.position);
        if LengthSq(toTarget) > AttackRange * AttackRange then e.(body := Pushed(b, normalize(toTarget), normalize))
        else e.(body := b.(velocity := Zero))
      else if LengthSq(b.velocity) < RestSpeedSq then
        e.(body := Pushed(b, Scale(normalize(randomDir), PatrolFactor), normalize))
      else e.(body := b)
  }

  /** EnemyEntity::takeDamage: Entity::takeDamage with the onDamage override,
      which makes the enemy aggressive. */
  function EnemyDamaged(e: EnemyState, damage: real): EnemyState {
    if !e.body.alive then e
    else e.(body := Damaged(e.body, damage), hasTarget := true)
  }

  /** EnemyEntity::setTargetPosition. */
  function Targeted(e: EnemyState, target: Vec3): EnemyState {
    e.(target := target, hasTarget := true)
  }

  // ---------------------------------------------------------------------

  /** A new enemy is a consistent, live entity with no target. */
  lemma InitialEnemyIdle(start: Vec3)
    ensures Consistent(InitialEnemy(start).body) && InitialEnemy(start).body.alive
    ensures !InitialEnemy(start).hasTarget && InitialEnemy(start).target == start
    ensures InitialEnemy(start).body.health / InitialEnemy(start).body.maxHealth == 1.0
  {
  }

  /** A dead enemy neither moves nor reacts to damage. */
  lemma DeadEnemyFrozen(e: EnemyState, dt: real, normalize: Vec3 -> Vec3, randomDir: Vec3, damage: real)
    requires !e.body.alive
    ensures EnemyTicked(e, dt, normalize, randomDir) == e
    ensures EnemyDamaged(e, damage) == e
  {
  }

  /** Damage to a live enemy gives it a target and keeps the target position. */
  lemma DamageMakesAggressive(e: EnemyState, damage: real)
    requires e.body.alive
    ensures EnemyDamaged(e, damage).hasTarget && EnemyDamaged(e, damage).target == e.target
    ensures EnemyDamaged(e, damage).body == Damaged(e.body, damage)
  {
  }

  /** Within attack range of its target the enemy stops where the base
      update left it. */
  lemma StopsInRange(e: EnemyState, dt: real, normalize: Vec3 -> Vec3, randomDir: Vec3)
    requires e.body.alive && e.hasTarget
    requires LengthSq(Sub(e.target, Ticked(e.body, dt).position)) <= 2.25
    ensures EnemyTicked(e, dt, normalize, randomDir).body.velocity == Zero
    ensures EnemyTicked(e, dt, normalize, randomDir).body.position == Add(e.body.position, Scale(e.body.velocity, dt))
  {
  }

  /** Farther than attack range, the enemy faces its target and gains
      moveSpeed towards it on top of the velocity friction left. */
  lemma ChasesTarget(e: EnemyState, dt: real, normalize: Vec3 -> Vec3, randomDir: Vec3)
    requires e.body.alive && e.hasTarget && IsNormalizer(normalize)
    requires LengthSq(Sub(e.target, Ticked(e.body, dt).position)) > 2.25
    ensures var toTarget := Sub(e.target, Ticked(e.body, dt).position);
            var r := EnemyTicked(e, dt, normalize, randomDir).body;
            IsUnitAlong(r.direction, toTarget) &&
            r.velocity == Add(Ticked(e.body, dt).velocity, Scale(r.direction, e.body.moveSpeed)) &&
            r.position == Ticked(e.body, dt).position
  {
    var b := Ticked(e.body, dt);
    var toTarget := Sub(e.target, b.position);
    PositiveLengthNonZero(toTarget);
    PushUnit(b, normalize(toTarget), normalize);
  }

  /** Without a target, an enemy that has come to rest turns to a new
      horizontal unit direction and gains moveSpeed along it. */
  lemma PatrolsWhenResting(e: EnemyState, dt: real, normalize: Vec3 -> Vec3, randomDir: Vec3)
    requires e.body.alive && !e.hasTarget && IsNormalizer(normalize)
    requires randomDir.y == 0.0 && randomDir != Zero
    requires LengthSq(Ticked(e.body, dt).velocity) < 0.01
    ensures var b := Ticked(e.body, dt);
            var r := EnemyTicked(e, dt, normalize, randomDir).body;
            r.direction.y == 0.0 && LengthSq(r.direction) == 1.0 &&
            r.velocity == Add(b.velocity, Scale(r.direction, e.body.moveSpeed)) &&
            r.position == b.position
  {
    var b := Ticked(e.body, dt);
    var n := normalize(randomDir);
    assert EnemyTicked(e, dt, normalize, randomDir).body == Pushed(b, Scale(n, PatrolFactor), normalize);
    assert IsUnitAlong(n, randomDir);
    HorizontalUnit(n, randomDir);
    PushHorizontal(b, n, PatrolFactor, normalize);
  }

  /** Without a target, an enemy still moving just coasts under friction. */
  lemma CoastsWhenMoving(e: EnemyState, dt: real, normalize: Vec3 -> Vec3, randomDir: Vec3)
    requires e.body.alive && !e.hasTarget
    requires LengthSq(Ticked(e.body, dt).velocity) >= 0.01
    ensures EnemyTicked(e, dt, normalize, randomDir) == e.(body := Ticked(e.body, dt))
  {
  }

  /** setTargetPosition stores the target and arms the chase. */
  lemma TargetSticks(e: EnemyState, target: Vec3)
    ensures Targeted(e, target).hasTarget && Targeted(e, target).target == target
    ensures Targeted(e, target).body == e.body
  {
  }

  class EnemyEntity {
    const body: Entity
    var targetPosition: Vec3
    var hasTarget: bool

    function State(): EnemyState
      reads this, body
    {
      EnemyState(body.State(), targetPosition, hasTarget)
    }

    constructor (start: Vec3)
      ensures fresh(body) && State() == InitialEnemy(start)
    {
      var b := new Entity();
      b.health := 75.0;
      b.maxHealth := 75.0;
      b.moveSpeed := 2.0;
      b.position := start;
      b.isAlive := true;
      body := b;
      targetPosition := start;
      hasTarget := false;
    }

    method Update(dt: real, normalize: Vec3 -> Vec3, randomDir: Vec3)
      modifies body
      ensures State() == EnemyTicked(old(State()), dt, normalize, randomDir)
    {
      if !body.isAlive {
        return;
      }
      ghost var e0 := State();
      body.Update(dt);
      ghost var b := body.State();
      assert b == Ticked(e0.body, dt);
      if hasTarget {
        var toTarget := Sub(targetPosition, body.position);
        if LengthSq(toTarget) > AttackRange * AttackRange {
          var moveDir := normalize(toTarget);
          body.Move(moveDir, normalize);
          assert body.State() == Pushed(b, normalize(toTarget), normalize);
        } else {
          body.velocity := Zero;
          assert body.State() == b.(velocity := Zero);
        }
      } else {
        if LengthSq(body.velocity) < RestSpeedSq {
          var patrolDir := normalize(randomDir);
          body.Move(Scale(patrolDir, PatrolFactor), normalize);
          assert body.State() == Pushed(b, Scale(normalize(randomDir), PatrolFactor), normalize);
        }
      }
    }

    method TakeDamage(damage: real)
      modifies this, body
      ensures State() == EnemyDamaged(old(State()), damage)
    {
      if !body.isAlive {
        return;
      }
      body.TakeDamage(damage);
      hasTarget := true;
    }

    method SetTargetPosition(target: Vec3)
      modifies this
      ensures State() == Targeted(old(State()), target)
    {
      targetPosition := target;
      hasTarget := true;
    }
  }
}
