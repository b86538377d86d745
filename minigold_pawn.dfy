/** AMinigoldPawn's weapon: the fields FireShot and ShotTimerExpired read and
    write, with the engine calls they make recorded in a log. FireShot and
    TimerFires are proved to take exactly the steps FireStep and TimerStep
    of the gate in FireGate; ShotTimerExpired only sets canFire. */
module MinigoldPawn {
  import opened EngineTypes
  import opened FireGate

  class Pawn {
    /** bCanFire */
    var canFire: bool
    /** Whether TimerHandle_ShotTimerExpired has an expiry pending. */
    var timerPending: bool
    /** Whether GetWorld() returns a world. */
    var worldPresent: bool
    /** Whether FireSound is non-null. */
    var hasSound: bool
    /** GetActorLocation(); moved by Tick, which is not part of this model. */
    var location: Vec3
    var gunOffset: Vec3
    var fireRate: real
    /** Every engine call the weapon has made, oldest first. */
    var log: seq<PawnEvent>

    function GateOf(): Gate
      reads this
    {
      Gate(canFire, timerPending)
    }

    function WeaponOf(): Weapon
      reads this
    {
      Weapon(gunOffset, fireRate, hasSound)
    }

    ghost predicate Valid()
      reads this
    {
      Live(GateOf())
    }

    /** The constructor's weapon defaults; whether the world and the sound
        asset exist is the engine's business and comes in as parameters. */
    constructor (location: Vec3, worldPresent: bool, hasSound: bool)
      ensures Valid()
      ensures canFire && !timerPending
      ensures gunOffset == DefaultGunOffset && fireRate == DefaultFireRate
      ensures this.location == location && this.worldPresent == worldPresent
      ensures this.hasSound == hasSound && log == []
    {
      this.location := location;
      this.worldPresent := worldPresent;
      this.hasSound := hasSound;
      gunOffset := Vec3(90.0, 0.0, 0.0);
      fireRate := 0.1;
      canFire := true;
      timerPending := false;
      log := [];
    }

    /** Bound to the fire action. The world is checked before the spawn but
        used unchecked to set the timer, so a shot needs a world. */
    method FireShot()
      requires Valid()
      requires canFire ==> worldPresent
      modifies this`canFire, this`timerPending, this`log
      ensures Valid()
      ensures GateOf() == FireStep(old(GateOf()), location, WeaponOf()).gate
      ensures log == old(log) + FireStep(old(GateOf()), location, WeaponOf()).events
    {
      if canFire == true {
        var fireRotation := ZeroRotator;
        // Rotating GunOffset by the zero rotator leaves it as it is.
        var spawnLocation := Add(location, gunOffset);
        if worldPresent {
          log := log + [Spawn(spawnLocation, fireRotation)];
        }
        canFire := false;
        timerPending := true;
        log := log + [SetTimer(fireRate)];
        if hasSound {
          log := log + [PlaySound(location)];
        }
        canFire := false;
      }
    }

    /** The timer callback: reopens the gate and touches nothing else. */
    method ShotTimerExpired()
      modifies this`canFire
      ensures canFire
      ensures Valid()
    {
      canFire := true;
    }

    /** The engine's timer manager running the pending expiry: the handle
        is no longer pending, then the callback runs. */
    method TimerFires()
      requires Valid()
      requires timerPending
      modifies this`canFire, this`timerPending
      ensures Valid()
      ensures GateOf() == TimerStep(old(GateOf()))
    {
      timerPending := false;
      ShotTimerExpired();
    }
  }

  /** A pawn driven through fire, fire, expiry, fire spawns exactly two
      projectiles, both at its location plus GunOffset. */
  method FireScenario(at: Vec3) returns (p: Pawn)
    ensures SpawnCount(p.log) == 2
    ensures forall e <- p.log :: e.Spawn? ==> e == Spawn(Add(at, DefaultGunOffset), ZeroRotator)
  {
    p := new Pawn(at, true, true);
    ghost var open := Gate(true, false);
    ghost var shot := FireStep(open, at, p.WeaponOf()).events;
    p.FireShot();
    assert p.log == shot;
    p.FireShot();
    assert p.log == shot;
    p.TimerFires();
    assert p.GateOf() == open;
    p.FireShot();
    assert p.log == shot + shot;
    CountsAppend(shot, shot);
  }
}
