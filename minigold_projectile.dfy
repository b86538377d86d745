/** AMinigoldProjectile::OnHit: what a cannon ball does to what it hits.

    The engine hands OnHit the other actor and the other component; the
    model receives what OnHit learns about them (null or not, the
    projectile itself or not, a ship or not, simulating physics or not)
    and records the calls OnHit makes on them, in order. */
module MinigoldProjectile {
  import opened EngineTypes

  /** OtherActor: null, this very projectile, or another actor, which is a
      ship exactly when Cast<AMinigoldPawn> succeeds. */
  datatype HitActor = NoActor | ThisProjectile | OtherActor(isShip: bool)

  /** A non-null OtherComp. */
  datatype HitComponent = HitComponent(simulatesPhysics: bool)

  /** A call OnHit makes: an impulse on OtherComp, damage to the ship, or
      destruction of the projectile. */
  datatype Effect =
    | Impulse(impulse: Vec3, location: Vec3)  // an impulse on the other component at a location
    | TakeDamage(amount: real, causer: Projectile)  // damage to the ship, caused by this projectile
    | Destroy  // the projectile destroys itself

  datatype EffectKind = ImpulseKind | DamageKind | DestroyKind

  /** Multiplier from the projectile's velocity to the impulse it gives. */
  const ImpulseScale: real := 20.0
  /** Damage a hit does to a ship. */
  const HitDamage: real := 1.0

  function Kind(e: Effect): EffectKind
  {
    match e
    case Impulse(_, _) => ImpulseKind
    case TakeDamage(_, _) => DamageKind
    case Destroy => DestroyKind
  }

  function Kinds(effects: seq<Effect>): (r: seq<EffectKind>)
    ensures |r| == |effects|
  {
    if effects == [] then [] else [Kind(effects[0])] + Kinds(effects[1..])
  }

  /** The kinds of effects OnHit can make, in the only order it makes them:
      physics impulse, damage, ship impulse, destroy. */
  const HitOrder: seq<EffectKind> := [ImpulseKind, DamageKind, ImpulseKind, DestroyKind]

  /** `a` is `b` with some elements left out. */
  predicate IsSubsequence(a: seq<EffectKind>, b: seq<EffectKind>)
    decreases |b|
  {
    if a == [] then true
    else if b == [] then false
    else if a[0] == b[0] then IsSubsequence(a[1..], b[1..])
    else IsSubsequence(a, b[1..])
  }

  function CountKind(effects: seq<Effect>, k: EffectKind): nat
  {
    if effects == [] then 0
    else (if Kind(effects[0]) == k then 1 else 0) + CountKind(effects[1..], k)
  }

  predicate IsShip(other: HitActor)
  {
    other.OtherActor? && other.isShip
  }

  predicate SimulatesPhysics(comp: Option<HitComponent>)
  {
    comp.Some? && comp.value.simulatesPhysics
  }

  /** OnHit dereferences OtherComp unchecked when OtherActor is a ship. */
  predicate CanResolve(other: HitActor, comp: Option<HitComponent>)
  {
    IsShip(other) ==> comp.Some?
  }

  /** The calls OnHit makes, for a projectile `self` at `location` moving
      with `velocity`. A real other actor whose component simulates physics
      is pushed; a ship also takes one point of damage from `self` and is
      pushed (again); the projectile is always destroyed, last, even when
      it hit nothing or itself. */
  function HitEffects(other: HitActor, comp: Option<HitComponent>, velocity: Vec3,
                      location: Vec3, self: Projectile): (r: seq<Effect>)
    requires CanResolve(other, comp)
    ensures |r| > 0 && r[|r| - 1] == Destroy
    ensures CountKind(r, DestroyKind) == 1
    ensures CountKind(r, DamageKind) == (if IsShip(other) then 1 else 0)
    ensures CountKind(r, ImpulseKind) ==
              (if other.OtherActor? && SimulatesPhysics(comp) then 1 else 0) +
              (if IsShip(other) then 1 else 0)
    ensures forall e <- r :: e.Impulse? ==> e == Impulse(Scale(velocity, ImpulseScale), location)
    ensures forall e <- r :: e.TakeDamage? ==> e == TakeDamage(HitDamage, self)
    ensures IsSubsequence(Kinds(r), HitOrder)
    ensures IsShip(other) ==>
              |r| >= 3 && r[|r| - 3] == TakeDamage(HitDamage, self) && r[|r| - 2].Impulse?
    ensures !other.OtherActor? ==> r == [Destroy]
  {
    var push: seq<Effect> := [Impulse(Scale(velocity, ImpulseScale), location)];
    var physics: seq<Effect> := if other.OtherActor? && SimulatesPhysics(comp) then push else [];
    var ship: seq<Effect> := if IsShip(other) then [TakeDamage(HitDamage, self)] + push else [];
    var r := physics + ship + [Destroy];
    HitEffectsShape(physics, ship, push, self);
    r
  }

  lemma {:induction false} CountKindAppend(a: seq<Effect>, b: seq<Effect>, k: EffectKind)
    ensures CountKind(a + b, k) == CountKind(a, k) + CountKind(b, k)
  {
    if a == [] {
      assert a + b == b;
    } else {
      assert (a + b)[1..] == a[1..] + b;
      CountKindAppend(a[1..], b, k);
    }
  }

  lemma {:induction false} KindsAppend(a: seq<Effect>, b: seq<Effect>)
    ensures Kinds(a + b) == Kinds(a) + Kinds(b)
  {
    if a == [] {
      assert a + b == b;
    } else {
      assert (a + b)[1..] == a[1..] + b;
      KindsAppend(a[1..], b);
    }
  }

  /** The order part of HitEffects: each of the four possible effect
      sequences is an optional physics impulse, then optionally damage
      followed by the ship impulse, then destruction, so it follows
      HitOrder. */
  lemma HitEffectsShape(physics: seq<Effect>, ship: seq<Effect>, push: seq<Effect>, self: Projectile)
    requires |push| == 1 && push[0].Impulse?
    requires physics == [] || physics == push
    requires ship == [] || ship == [TakeDamage(HitDamage, self)] + push
    ensures Kinds(physics + ship + [Destroy]) ==
              (if physics == [] then [] else [ImpulseKind]) +
              (if ship == [] then [] else [DamageKind, ImpulseKind]) + [DestroyKind]
    ensures IsSubsequence(Kinds(physics + ship + [Destroy]), HitOrder)
    ensures CountKind(physics + ship + [Destroy], DestroyKind) == 1
    ensures CountKind(physics + ship + [Destroy], DamageKind) == (if ship == [] then 0 else 1)
    ensures CountKind(physics + ship + [Destroy], ImpulseKind) ==
              (if physics == [] then 0 else 1) + (if ship == [] then 0 else 1)
  {
    var d: seq<Effect> := [Destroy];
    CountKindAppend(physics + ship, d, DestroyKind);
    CountKindAppend(physics + ship, d, DamageKind);
    CountKindAppend(physics + ship, d, ImpulseKind);
    CountKindAppend(physics, ship, DestroyKind);
    CountKindAppend(physics, ship, DamageKind);
    CountKindAppend(physics, ship, ImpulseKind);
    KindsAppend(physics + ship, d);
    KindsAppend(physics, ship);
    var kp := if physics == [] then [] else [ImpulseKind];
    var ks := if ship == [] then [] else [DamageKind, ImpulseKind];
    assert Kinds(physics) == kp;
    if ship != [] {
      KindsAppend([TakeDamage(HitDamage, self)], push);
      CountKindAppend([TakeDamage(HitDamage, self)], push, DestroyKind);
      CountKindAppend([TakeDamage(HitDamage, self)], push, DamageKind);
      CountKindAppend([TakeDamage(HitDamage, self)], push, ImpulseKind);
    }
    assert Kinds(ship) == ks;
    assert Kinds(d) == [DestroyKind];
    SubsequenceOfHitOrder(kp, ks);
  }

  lemma SubsequenceOfHitOrder(kp: seq<EffectKind>, ks: seq<EffectKind>)
    requires kp == [] || kp == [ImpulseKind]
    requires ks == [] || ks == [DamageKind, ImpulseKind]
    ensures IsSubsequence(kp + ks + [DestroyKind], HitOrder)
  {
  }

  class Projectile {
    /** GetActorLocation() at the moment of the hit. */
    var location: Vec3
    /** GetVelocity() at the moment of the hit. */
    var velocity: Vec3
    /** Whether Destroy() has been called. */
    var destroyed: bool
    /** Every call OnHit has made, oldest first. */
    var effects: seq<Effect>

    constructor (location: Vec3, velocity: Vec3)
      ensures this.location == location && this.velocity == velocity
      ensures !destroyed && effects == []
    {
      this.location := location;
      this.velocity := velocity;
      destroyed := false;
      effects := [];
    }

    /** The hit notification of the projectile's mesh. */
    method OnHit(other: HitActor, comp: Option<HitComponent>)
      requires CanResolve(other, comp)
      modifies this`destroyed, this`effects
      ensures destroyed
      ensures effects == old(effects) + HitEffects(other, comp, velocity, location, this)
    {
      if other != NoActor && other != ThisProjectile && comp.Some? && comp.value.simulatesPhysics {
        effects := effects + [Impulse(Scale(velocity, ImpulseScale), location)];
      }
      if other != NoActor && other != ThisProjectile {
        if other.isShip {
          effects := effects + [TakeDamage(HitDamage, this)];
          effects := effects + [Impulse(Scale(velocity, ImpulseScale), location)];
        }
      }
      effects := effects + [Destroy];
      destroyed := true;
    }
  }
}
