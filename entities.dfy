/** The entity base class (src/Entity.cpp, include/Entity.h): health, a
    life flag, and a position/velocity/direction that update integrates with
    friction and move pushes along a normalized direction. The onDeath hook
    is counted in `deaths`; the onDamage hook is where the enemy subclass
    hooks in. The visual shape is a rendering handle and is not modelled. */
module Entities {
  import opened Vectors

  /** What glm::normalize promises: a non-zero vector goes to the unit
      vector along it, a unit vector is left as it is, and a positive
      factor does not change the result. */
  ghost predicate IsNormalizer(normalize: Vec3 -> Vec3) {
    (forall v :: v != Zero ==> IsUnitAlong(normalize(v), v)) &&
    (forall v :: LengthSq(v) == 1.0 ==> normalize(v) == v) &&
    (forall v, k :: k > 0.0 ==> normalize(Scale(v, k)) == normalize(v))
  }

  /** Every field of Entity that its methods read or write. */
  datatype EntityState = EntityState(health: real, maxHealth: real, moveSpeed: real, alive: bool,
                                     position: Vec3, velocity: Vec3, direction: Vec3, deaths: nat)

  /** Entity::Entity(). */
  const InitialEntity: EntityState :=
    EntityState(100.0, 100.0, 2.0, true, Zero, Zero, Vec3(0.0, 0.0, 1.0), 0)

  function Max0(h: real): real {
    if 0.0 >= h then 0.0 else h
  }

  /** Entity::update: integrate, apply 0.9 friction, and stop when the speed
      falls below 0.01 (that is, its square below 0.0001). */
  function Ticked(s: EntityState, dt: real): EntityState {
    if !s.alive then s
    else
      var slowed := Scale(s.velocity, 0.9);
      s.(position := Add(s.position, Scale(s.velocity, dt)),
         velocity := if LengthSq(slowed) < 0.0001 then Zero else slowed)
  }

  /** Entity::die. */
  function Killed(s: EntityState): EntityState {
    if !s.alive then s
    else s.(alive := false, velocity := Zero, deaths := s.deaths + 1)
  }

  /** Entity::takeDamage. */
  function Damaged(s: EntityState, damage: real): EntityState {
    if !s.alive then s
    else
      var hurt := s.(health := Max0(s.health - damage));
      if hurt.health <= 0.0 then Killed(hurt) else hurt
  }

  /** Entity::move: a non-zero direction is normalized and becomes the
      facing; the (normalized or zero) direction times moveSpeed is added to
      the velocity. */
  function Pushed(s: EntityState, d: Vec3, normalize: Vec3 -> Vec3): EntityState {
    if !s.alive then s
    else if LengthSq(d) > 0.0 then
      var n := normalize(d);
      s.(direction := n, velocity := Add(s.velocity, Scale(n, s.moveSpeed)))
    else s.(velocity := Add(s.velocity, Scale(d, s.moveSpeed)))
  }

  /** The calls an owner can make on an entity. */
  datatype EntityOp = Tick(dt: real) | Damage(amount: real) | Kill | Push(dir: Vec3)

  function Apply(s: EntityState, op: EntityOp, normalize: Vec3 -> Vec3): EntityState {
    match op
    case Tick(dt) => Ticked(s, dt)
    case Damage(amount) => Damaged(s, amount)
    case Kill => Killed(s)
    case Push(dir) => Pushed(s, dir, normalize)
  }

  function Run(s: EntityState, ops: seq<EntityOp>, normalize: Vec3 -> Vec3): EntityState
    decreases |ops|
  {
    if ops == [] then s else Apply(Run(s, ops[..|ops| - 1], normalize), ops[|ops| - 1], normalize)
  }

  /** The health is never negative, a live entity has positive health, and
      the onDeath hook has run exactly when the entity is dead. */
  predicate Consistent(s: EntityState) {
    s.health >= 0.0 && (s.alive ==> s.health > 0.0) && s.deaths == (if s.alive then 0 else 1)
  }

  // ---------------------------------------------------------------------
  // What each call promises.

  /** takeDamage leaves max(0, health - damage), and the entity dies exactly
      when that is zero. */
  lemma DamageClamps(s: EntityState, damage: real)
    requires s.alive
    ensures Damaged(s, damage).health == (if s.health - damage < 0.0 then 0.0 else s.health - damage)
    ensures !Damaged(s, damage).alive <==> s.health - damage <= 0.0
    ensures !Damaged(s, damage).alive ==> Damaged(s, damage).velocity == Zero
  {
  }

  /** die runs the onDeath hook once: a second die changes nothing. */
  lemma DieOnce(s: EntityState)
    ensures Killed(Killed(s)) == Killed(s)
    ensures !Killed(s).alive && Killed(s).velocity == (if s.alive then Zero else s.velocity)
    ensures Killed(s).deaths == s.deaths + (if s.alive then 1 else 0)
  {
  }

  /** update: the position moves by the old velocity, and the new velocity
      is either 0.9 times the old one or, once that is slow, zero. */
  lemma TickFriction(s: EntityState, dt: real)
    requires s.alive
    ensures Ticked(s, dt).position == Add(s.position, Scale(s.velocity, dt))
    ensures Ticked(s, dt).velocity == Scale(s.velocity, 0.9) || Ticked(s, dt).velocity == Zero
    ensures LengthSq(Scale(s.velocity, 0.9)) >= 0.0001 ==> Ticked(s, dt).velocity == Scale(s.velocity, 0.9)
    ensures LengthSq(Scale(s.velocity, 0.9)) < 0.0001 ==> Ticked(s, dt).velocity == Zero
    ensures Ticked(s, dt).health == s.health && Ticked(s, dt).direction == s.direction
  {
  }

  /** A squared length above zero means a non-zero vector. */
  lemma PositiveLengthNonZero(d: Vec3)
    requires LengthSq(d) > 0.0
    ensures d != Zero
  {
  }

  /** move with a non-zero direction faces along it and adds moveSpeed along
      it; move with the zero vector changes nothing. */
  lemma PushAlong(s: EntityState, d: Vec3, normalize: Vec3 -> Vec3)
    requires s.alive && IsNormalizer(normalize)
    ensures LengthSq(d) > 0.0 ==>
              IsUnitAlong(Pushed(s, d, normalize).direction, d) &&
              Pushed(s, d, normalize).velocity == Add(s.velocity, Scale(Pushed(s, d, normalize).direction, s.moveSpeed))
    ensures d == Zero ==> Pushed(s, d, normalize) == s
  {
    if LengthSq(d) > 0.0 {
      PositiveLengthNonZero(d);
    }
  }

  /** Normalizing a horizontal vector gives a horizontal vector. */
  lemma HorizontalUnit(n: Vec3, v: Vec3)
    requires v.y == 0.0 && IsUnitAlong(n, v)
    ensures n.y == 0.0
  {
    assert n.y * v.z == 0.0 && n.y * v.x == 0.0;
  }

  /** Scaling a unit vector by k > 0 gives squared length k*k. */
  lemma ScaledUnitLength(n: Vec3, k: real)
    requires LengthSq(n) == 1.0
    ensures LengthSq(Scale(n, k)) == k * k
  {
    assert LengthSq(Scale(n, k)) == k * k * LengthSq(n);
  }

  /** Moving along k times a horizontal unit vector (k > 0) faces along a
      horizontal unit vector. */
  lemma PushHorizontal(s: EntityState, n: Vec3, k: real, normalize: Vec3 -> Vec3)
    requires s.alive && IsNormalizer(normalize) && LengthSq(n) == 1.0 && n.y == 0.0 && k > 0.0
    ensures var r := Pushed(s, Scale(n, k), normalize);
            r.direction.y == 0.0 && LengthSq(r.direction) == 1.0 &&
            r.velocity == Add(s.velocity, Scale(r.direction, s.moveSpeed))
  {
    ScaledUnitLength(n, k);
    ProductPositive(k, k);
    var m := Scale(n, k);
    PositiveLengthNonZero(m);
    HorizontalUnit(normalize(m), m);
  }

  lemma ProductPositive(a: real, b: real)
    requires a > 0.0 && b > 0.0
    ensures a * b > 0.0
  {
  }

  /** Moving along a unit vector faces exactly that way. */
  lemma PushUnit(s: EntityState, n: Vec3, normalize: Vec3 -> Vec3)
    requires s.alive && IsNormalizer(normalize) && LengthSq(n) == 1.0
    ensures Pushed(s, n, normalize) == s.(direction := n, velocity := Add(s.velocity, Scale(n, s.moveSpeed)))
  {
  }

  // ---------------------------------------------------------------------
  // What any sequence of calls promises.

  /** Death is permanent: nothing changes a dead entity. */
  lemma {:induction false} DeadStaysFrozen(s: EntityState, ops: seq<EntityOp>, normalize: Vec3 -> Vec3)
    requires !s.alive
    ensures Run(s, ops, normalize) == s
    decreases |ops|
  {
    if ops != [] {
      DeadStaysFrozen(s, ops[..|ops| - 1], normalize);
    }
  }

  /** No single call changes a dead entity. */
  lemma ApplyToDead(s: EntityState, op: EntityOp, normalize: Vec3 -> Vec3)
    requires !s.alive
    ensures Apply(s, op, normalize) == s
  {
  }

  /** An entity alive after a sequence of calls was alive before all of them. */
  lemma {:induction false} AliveAfterMeansAliveBefore(s: EntityState, ops: seq<EntityOp>, normalize: Vec3 -> Vec3, k: nat)
    requires k <= |ops| && Run(s, ops, normalize).alive
    ensures Run(s, ops[..k], normalize).alive
    decreases |ops|
  {
    if k < |ops| {
      var init := ops[..|ops| - 1];
      var before := Run(s, init, normalize);
      assert Run(s, ops, normalize) == Apply(before, ops[|ops| - 1], normalize);
      if !before.alive {
        ApplyToDead(before, ops[|ops| - 1], normalize);
      }
      assert ops[..k] == init[..k];
      AliveAfterMeansAliveBefore(s, init, normalize, k);
    } else {
      assert ops[..k] == ops;
    }
  }

  /** Every call keeps the entity consistent. */
  lemma ApplyKeepsConsistent(s: EntityState, op: EntityOp, normalize: Vec3 -> Vec3)
    requires Consistent(s)
    ensures Consistent(Apply(s, op, normalize))
  {
  }

  lemma {:induction false} RunKeepsConsistent(s: EntityState, ops: seq<EntityOp>, normalize: Vec3 -> Vec3)
    requires Consistent(s)
    ensures Consistent(Run(s, ops, normalize))
    decreases |ops|
  {
    if ops != [] {
      RunKeepsConsistent(s, ops[..|ops| - 1], normalize);
      ApplyKeepsConsistent(Run(s, ops[..|ops| - 1], normalize), ops[|ops| - 1], normalize);
    }
  }

  /** Non-negative damage never raises health, and no call changes
      maxHealth. */
  lemma {:induction false} HealthStaysBelowMax(s: EntityState, ops: seq<EntityOp>, normalize: Vec3 -> Vec3)
    requires s.health <= s.maxHealth && 0.0 <= s.maxHealth
    requires forall k :: 0 <= k < |ops| && ops[k].Damage? ==> ops[k].amount >= 0.0
    ensures Run(s, ops, normalize).maxHealth == s.maxHealth && Run(s, ops, normalize).health <= s.maxHealth
    decreases |ops|
  {
    if ops != [] {
      var init := ops[..|ops| - 1];
      assert forall k :: 0 <= k < |init| && init[k].Damage? ==> init[k].amount >= 0.0 by {
        forall k | 0 <= k < |init| ensures init[k] == ops[k] { }
      }
      HealthStaysBelowMax(s, init, normalize);
      var last := ops[|ops| - 1];
      assert last.Damage? ==> last.amount >= 0.0;
    }
  }

  /** So the health fraction (getHealthPercentage) stays in [0, 1]. */
  lemma HealthFractionBounded(s: EntityState, ops: seq<EntityOp>, normalize: Vec3 -> Vec3)
    requires Consistent(s) && s.maxHealth > 0.0 && s.health <= s.maxHealth
    requires forall k :: 0 <= k < |ops| && ops[k].Damage? ==> ops[k].amount >= 0.0
    ensures var r := Run(s, ops, normalize);
            r.maxHealth == s.maxHealth && 0.0 <= r.health / r.maxHealth <= 1.0
  {
    RunKeepsConsistent(s, ops, normalize);
    HealthStaysBelowMax(s, ops, normalize);
    var r := Run(s, ops, normalize);
    FractionBounded(r.health, r.maxHealth);
  }

  lemma FractionBounded(h: real, m: real)
    requires 0.0 <= h <= m && m > 0.0
    ensures 0.0 <= h / m <= 1.0
  {
    assert h / m * m == h;
  }

  class Entity {
    var health: real
    var maxHealth: real
    var moveSpeed: real
    var isAlive: bool
    var position: Vec3
    var velocity: Vec3
    var direction: Vec3
    /** How many times the onDeath hook has run. */
    var deaths: nat

    function State(): EntityState
      reads this
    {
      EntityState(health, maxHealth, moveSpeed, isAlive, position, velocity, direction, deaths)
    }

    /** Entity::Entity: 100/100 health, speed 2, alive, at rest at the
        origin, facing +z. */
    constructor ()
      ensures State() == InitialEntity && Consistent(State())
    {
      health := 100.0;
      maxHealth := 100.0;
      moveSpeed := 2.0;
      isAlive := true;
      position := Zero;
      velocity := Zero;
      direction := Vec3(0.0, 0.0, 1.0);
      deaths := 0;
    }

    /** Entity::isDead. */
    function IsDead(): (dead: bool)
      reads this
      ensures dead <==> !State().alive
    {
      !isAlive
    }

    /** Entity::getHealthPercentage. */
    function GetHealthPercentage(): (fraction: real)
      requires maxHealth > 0.0
      reads this
      ensures Consistent(State()) && health <= maxHealth ==> 0.0 <= fraction <= 1.0
    {
      health / maxHealth
    }

    method Update(dt: real)
      modifies this
      ensures State() == Ticked(old(State()), dt)
    {
      if !isAlive {
        return;
      }
      ghost var s0 := State();
      position := Add(position, Scale(velocity, dt));
      velocity := Scale(velocity, 0.9);
      ghost var slowed := velocity;
      assert State() == s0.(position := Add(s0.position, Scale(s0.velocity, dt)), velocity := slowed);
      if LengthSq(velocity) < 0.0001 {
        velocity := Zero;
      }
    }

    method Die()
      modifies this
      ensures State() == Killed(old(State()))
    {
      if !isAlive {
        return;
      }
      isAlive := false;
      velocity := Zero;
      deaths := deaths + 1;
    }

    method TakeDamage(damage: real)
      modifies this
      ensures State() == Damaged(old(State()), damage)
    {
      if !isAlive {
        return;
      }
      health := health - damage;
      health := Max0(health);
      if health <= 0.0 {
        Die();
      }
    }

    method Move(moveDirection: Vec3, normalize: Vec3 -> Vec3)
      modifies this
      ensures State() == Pushed(old(State()), moveDirection, normalize)
    {
      if !isAlive {
        return;
      }
      var d := moveDirection;
      if LengthSq(d) > 0.0 {
        d := normalize(d);
        direction := d;
      }
      velocity := Add(velocity, Scale(d, moveSpeed));
    }
  }
}
