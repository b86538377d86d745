/** The fire cooldown gate of AMinigoldPawn as a pure transition system.

    The gate is the flag bCanFire together with the one timer handle
    TimerHandle_ShotTimerExpired. A press of the fire binding either fires
    (spawn, arm the timer, maybe play a sound) or does nothing; the timer
    firing reopens the gate. Time itself is not modelled: the timer's expiry
    is an explicit input. The class in MinigoldPawn is proved to follow these
    functions step by step. */
module FireGate {
  import opened EngineTypes

  /** The engine calls a shot makes, in the order it makes them. */
  datatype PawnEvent =
    | Spawn(location: Vec3, rotation: Rotator)  // World->SpawnActor<AMinigoldProjectile>
    | SetTimer(rate: real)                      // SetTimer on TimerHandle_ShotTimerExpired
    | PlaySound(location: Vec3)                 // UGameplayStatics::PlaySoundAtLocation

  /** bCanFire, and whether the shot timer handle has an expiry pending.
      SetTimer on the same handle replaces the earlier timer, so one flag
      says all there is to say about pending expiries. */
  datatype Gate = Gate(canFire: bool, timerPending: bool)

  /** The weapon settings the gate reads and never changes: GunOffset,
      FireRate, and whether the FireSound asset was found. */
  datatype Weapon = Weapon(gunOffset: Vec3, fireRate: real, hasSound: bool)

  /** The constructor's defaults. FireRate is the single-precision 0.1f,
      modelled as the real 0.1. */
  const DefaultGunOffset: Vec3 := Vec3(90.0, 0.0, 0.0)
  const DefaultFireRate: real := 0.1

  datatype Outcome = Outcome(gate: Gate, events: seq<PawnEvent>)

  /** The gate is never stuck closed: whenever firing is blocked, an expiry
      that will reopen it is pending. */
  predicate Live(g: Gate)
  {
    !g.canFire ==> g.timerPending
  }

  function SpawnCount(events: seq<PawnEvent>): nat
  {
    if events == [] then 0
    else (if events[0].Spawn? then 1 else 0) + SpawnCount(events[1..])
  }

  function TimerCount(events: seq<PawnEvent>): nat
  {
    if events == [] then 0
    else (if events[0].SetTimer? then 1 else 0) + TimerCount(events[1..])
  }

  function SoundCount(events: seq<PawnEvent>): nat
  {
    if events == [] then 0
    else (if events[0].PlaySound? then 1 else 0) + SoundCount(events[1..])
  }

  /** Position of an event kind in the order a shot issues them. */
  function Rank(e: PawnEvent): nat
  {
    match e
    case Spawn(_, _) => 0
    case SetTimer(_) => 1
    case PlaySound(_) => 2
  }

  /** AMinigoldPawn::FireShot on the gate, for a pawn standing at `at`.
      A shot spawns one projectile at `at` + GunOffset with the zero
      rotator, whichever way the ship faces, arms one timer of FireRate,
      and plays the sound at `at` when there is one; a press while the gate
      is closed does nothing at all. */
  function FireStep(g: Gate, at: Vec3, w: Weapon): (r: Outcome)
    ensures SpawnCount(r.events) == (if g.canFire then 1 else 0)
    ensures TimerCount(r.events) == (if g.canFire then 1 else 0)
    ensures SoundCount(r.events) == (if g.canFire && w.hasSound then 1 else 0)
    ensures forall e <- r.events :: e.Spawn? ==> e == Spawn(Add(at, w.gunOffset), ZeroRotator)
    ensures forall e <- r.events :: e.SetTimer? ==> e.rate == w.fireRate
    ensures forall e <- r.events :: e.PlaySound? ==> e.location == at
    ensures forall i, j :: 0 <= i < j < |r.events| ==> Rank(r.events[i]) < Rank(r.events[j])
    ensures g.canFire ==> !r.gate.canFire && r.gate.timerPending
    ensures !g.canFire ==> r == Outcome(g, [])
    ensures Live(g) ==> Live(r.gate)
  {
    if g.canFire then
      var spawn: seq<PawnEvent> := [Spawn(Add(at, w.gunOffset), ZeroRotator)];
      var timer: seq<PawnEvent> := [SetTimer(w.fireRate)];
      var sound: seq<PawnEvent> := if w.hasSound then [PlaySound(at)] else [];
      CountsAppend(spawn, timer);
      CountsAppend(spawn + timer, sound);
      Outcome(Gate(false, true), spawn + timer + sound)
    else
      Outcome(g, [])
  }

  /** The engine's timer manager running the expiry of the shot timer, if
      one is pending: the handle is cleared and ShotTimerExpired sets
      bCanFire. With no timer pending nothing happens. */
  function TimerStep(g: Gate): (r: Gate)
    ensures !r.timerPending
    ensures Live(g) ==> r.canFire
    ensures g.timerPending ==> r.canFire
    ensures !g.timerPending ==> r == g
  {
    if g.timerPending then Gate(true, false) else g
  }

  /** What reaches the pawn between frames: a press of the fire binding
      while the pawn stands at `at`, or the shot timer's expiry. */
  datatype Input = Press(at: Vec3) | Elapse

  function Step(g: Gate, i: Input, w: Weapon): Outcome
  {
    match i
    case Press(at) => FireStep(g, at, w)
    case Elapse => Outcome(TimerStep(g), [])
  }

  /** The gate driven by a sequence of inputs: its final state and every
      engine call it made, in order. */
  function Run(g: Gate, inputs: seq<Input>, w: Weapon): Outcome
    decreases |inputs|
  {
    if inputs == [] then Outcome(g, [])
    else
      var first := Step(g, inputs[0], w);
      var rest := Run(first.gate, inputs[1..], w);
      Outcome(rest.gate, first.events + rest.events)
  }

  function ElapseCount(inputs: seq<Input>): nat
  {
    if inputs == [] then 0
    else (if inputs[0].Elapse? then 1 else 0) + ElapseCount(inputs[1..])
  }

  /** Counting distributes over concatenation of event logs. */
  lemma {:induction false} CountsAppend(a: seq<PawnEvent>, b: seq<PawnEvent>)
    ensures SpawnCount(a + b) == SpawnCount(a) + SpawnCount(b)
    ensures TimerCount(a + b) == TimerCount(a) + TimerCount(b)
    ensures SoundCount(a + b) == SoundCount(a) + SoundCount(b)
  {
    if a == [] {
      assert a + b == b;
    } else {
      assert (a + b)[1..] == a[1..] + b;
      CountsAppend(a[1..], b);
    }
  }

  /** The gate stays live whatever happens to it. */
  lemma {:induction false} RunStaysLive(g: Gate, inputs: seq<Input>, w: Weapon)
    requires Live(g)
    ensures Live(Run(g, inputs, w).gate)
    decreases |inputs|
  {
    if inputs != [] {
      RunStaysLive(Step(g, inputs[0], w).gate, inputs[1..], w);
    }
  }

  /** Between two expiries of the shot timer, any number of presses spawns
      at most one projectile: exactly one if the gate was open and there was
      a press, none otherwise, and the gate is closed after any press. */
  lemma {:induction false} BurstSpawnsAtMostOnce(g: Gate, inputs: seq<Input>, w: Weapon)
    requires forall k :: 0 <= k < |inputs| ==> inputs[k].Press?
    ensures SpawnCount(Run(g, inputs, w).events) == (if g.canFire && inputs != [] then 1 else 0)
    ensures inputs != [] ==> !Run(g, inputs, w).gate.canFire
    ensures inputs == [] ==> Run(g, inputs, w).gate == g
    decreases |inputs|
  {
    if inputs != [] {
      var first := Step(g, inputs[0], w);
      BurstSpawnsAtMostOnce(first.gate, inputs[1..], w);
      CountsAppend(first.events, Run(first.gate, inputs[1..], w).events);
    }
  }

  /** The rate limit over any stretch of play: no more projectiles are
      spawned than one for an open gate at the start plus one per expiry. */
  lemma {:induction false} SpawnsBoundedByExpiries(g: Gate, inputs: seq<Input>, w: Weapon)
    ensures SpawnCount(Run(g, inputs, w).events) <= (if g.canFire then 1 else 0) + ElapseCount(inputs)
    decreases |inputs|
  {
    if inputs != [] {
      var first := Step(g, inputs[0], w);
      SpawnsBoundedByExpiries(first.gate, inputs[1..], w);
      CountsAppend(first.events, Run(first.gate, inputs[1..], w).events);
    }
  }

  /** Fire, let the timer expire, fire again: two projectiles. */
  lemma FireExpireFire(g: Gate, a: Vec3, b: Vec3, w: Weapon)
    requires g.canFire
    ensures SpawnCount(Run(g, [Press(a), Elapse, Press(b)], w).events) == 2
  {
    var s1 := FireStep(g, a, w);
    var s3 := FireStep(TimerStep(s1.gate), b, w);
    var last := Run(TimerStep(s1.gate), [Press(b)], w);
    assert [Press(b)][1..] == [];
    assert Step(TimerStep(s1.gate), Press(b), w) == s3;
    assert Run(s3.gate, [], w).events == [];
    assert last.events == s3.events + [];
    var middle := Run(s1.gate, [Elapse, Press(b)], w);
    assert [Elapse, Press(b)][1..] == [Press(b)];
    assert middle.events == [] + last.events;
    assert middle.events == s3.events;
    assert TimerStep(s1.gate).canFire;
    assert [Press(a), Elapse, Press(b)][1..] == [Elapse, Press(b)];
    assert Run(g, [Press(a), Elapse, Press(b)], w).events == s1.events + middle.events;
    CountsAppend(s1.events, middle.events);
  }
}
