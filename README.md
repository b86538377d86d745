# Minigold weapon and hit resolution, modelled in Dafny

Minigold is a small naval arcade game on Unreal Engine. Almost all of it is
engine configuration. Two pieces of gameplay logic are its own, and this
project models and verifies both:

- **The fire cooldown gate of `AMinigoldPawn`** (`FireShot`,
  `ShotTimerExpired`). The flag `bCanFire` and the timer handle
  `TimerHandle_ShotTimerExpired` form a two-state machine. A shot spawns one
  projectile at the actor location plus `GunOffset` (90, 0, 0), rotated by
  the zero rotator. It then clears the flag, arms a one-shot timer of
  `FireRate` (0.1 s), and plays `FireSound` when there is one. A press while
  the flag is clear does nothing. The timer's expiry sets the flag again.
- **`AMinigoldProjectile::OnHit`**. It pushes the other component when the
  other actor is real and its component simulates physics. A ship then takes
  1.0 damage caused by this projectile and is pushed, which is a second push
  when its component simulates physics. The projectile is destroyed in every
  case.

Files:

- `engine_types.dfy` (module `EngineTypes`): vectors, rotators and `Option`
  for nullable pointers. Vectors are exact real triples.
- `fire_gate.dfy` (module `FireGate`): the gate as pure functions. `FireStep`
  is one press and `TimerStep` is one timer expiry. `Run` drives the gate
  through a sequence of inputs. The lemmas state the rate limit over whole
  input sequences.
- `minigold_pawn.dfy` (module `MinigoldPawn`): class `Pawn` with the fields
  `canFire`, `timerPending`, `worldPresent`, `hasSound`, the weapon settings
  and a log of engine calls. `FireShot` and `TimerFires` are proved to take
  exactly the steps `FireStep` and `TimerStep` of `FireGate`.
  `ShotTimerExpired` only sets `canFire`.
- `minigold_projectile.dfy` (module `MinigoldProjectile`): `HitEffects`, the
  ordered calls `OnHit` makes, and class `Projectile`, whose `OnHit` method
  sets `destroyed` and appends those calls to its effect log.

The engine is replaced by recorded events. The calls `SpawnActor`,
`SetTimer`, `PlaySoundAtLocation`, `AddImpulseAtLocation`, `TakeDamage` and
`Destroy` become log entries. The timer firing is the explicit input
`Elapse` or the method `Pawn.TimerFires`. `GetWorld()` being non-null and
`FireSound` being set come in as booleans.

Three behaviours of the code worth knowing:

- The spawn rotation is the constant zero rotator, so the projectile appears
  at location + (90, 0, 0) whichever way the ship faces. No forward direction
  or vertical offset is involved.
- A hit on nothing or on the projectile itself is not ignored. The projectile
  is still destroyed.
- A ship whose component simulates physics receives the impulse twice, once
  in each branch. It is not deduplicated.

## Model

| member | source | states |
|---|---|---|
| `MinigoldPawn.Pawn.constructor` | Source/Minigold/MinigoldPawn.cpp:53-55 | A new pawn can fire and has no pending timer. `GunOffset` is (90, 0, 0) and `FireRate` is 0.1. The event log is empty. |
| `MinigoldPawn.Pawn.FireShot` | Source/Minigold/MinigoldPawn.cpp:95-125 | The pawn's gate and log change exactly as `FireStep` says, and the gate stays live. A shot needs a world, because the timer is set through `World` without a null check. |
| `MinigoldPawn.Pawn.ShotTimerExpired` | Source/Minigold/MinigoldPawn.cpp:127-130 | Sets `canFire` and may change no other field. |
| `MinigoldPawn.Pawn.TimerFires` | Source/Minigold/MinigoldPawn.cpp:115 | The pending shot timer running clears the pending flag and reopens the gate, as `TimerStep` says. |
| `MinigoldPawn.FireScenario` | Source/Minigold/MinigoldPawn.cpp:100-130 | A real pawn driven through fire, fire, expiry, fire has spawned exactly two projectiles, each at its location + `GunOffset` with zero rotation. |
| `FireGate.FireStep` | Source/Minigold/MinigoldPawn.cpp:100-124 | An open gate gives exactly one spawn, at location + `GunOffset` with the zero rotator. It also gives exactly one timer, of `FireRate`, and a sound at the location exactly when the sound exists. These come in the order spawn, timer, sound. Afterwards the gate is closed and a timer is pending. On a closed gate the press is a no-op: same state, no events. |
| `FireGate.TimerStep` | Source/Minigold/MinigoldPawn.cpp:127-130 | After an expiry no timer is pending. A pending expiry reopens the gate, so a live gate is always open afterwards. Without a pending timer nothing changes. |
| `FireGate.RunStaysLive` | Source/Minigold/MinigoldPawn.cpp:114-129 | Over any input sequence, the gate is closed only while an expiry is pending. |
| `FireGate.BurstSpawnsAtMostOnce` | Source/Minigold/MinigoldPawn.cpp:100-114 | Between two expiries, any number of presses spawns exactly one projectile if the gate was open and there was a press, and none otherwise. The gate is closed after any press. |
| `FireGate.SpawnsBoundedByExpiries` | Source/Minigold/MinigoldPawn.cpp:100-130 | Over any input sequence, the spawns number at most one plus one per expiry if the gate started open. If it started closed, they number at most one per expiry. |
| `FireGate.FireExpireFire` | Source/Minigold/MinigoldPawn.cpp:100-130 | From an open gate, fire, expiry, fire spawns two projectiles. |
| `MinigoldProjectile.HitEffects` | Source/Minigold/MinigoldProjectile.cpp:41-62 | The last effect is `Destroy`, and it occurs exactly once. Damage occurs exactly once for a ship and never otherwise. Its amount is 1.0 and this projectile is the causer. The impulse count is one if the other actor is real and its component simulates physics, plus one if it is a ship. Every impulse is velocity × 20 at the projectile's location. The effect kinds follow the order physics impulse, damage, ship impulse, destroy. For a ship, the damage comes right before the ship's impulse, which comes right before `Destroy`. A null or self hit gives only `Destroy`. |
| `MinigoldProjectile.HitEffectsShape` | Source/Minigold/MinigoldProjectile.cpp:44-61 | Each of the four possible effect sequences has the kinds: an optional impulse, then optionally damage followed by an impulse, then destroy. So each follows the hit order, with one destroy and the stated damage and impulse counts. |
| `MinigoldProjectile.Projectile.OnHit` | Source/Minigold/MinigoldProjectile.cpp:41-62 | The projectile ends up destroyed, and its effect log grows by exactly `HitEffects` of the hit, with itself as causer. It requires a non-null component when the other actor is a ship, because that branch dereferences `OtherComp` unchecked. |

## Left out

- `AMinigoldPawn::Tick`: per-frame float vector motion through engine calls. It uses rotation, a swept offset and deflection on a blocking hit. The raw axis value is the yaw delta, with no time scaling. `MoveSpeed` (1000) belongs to it.
- Mesh, camera, sound and projectile-mesh loading in both constructors. This is one-time engine configuration. Whether the sound asset was found is the `hasSound` parameter.
- `SetupPlayerInputComponent` in both pawns: input-binding registration only.
- Projectile flight and lifespan (`InitialSpeed` 5000, `MaxSpeed` 10000, gravity scale 0.4, lifespan 4 s, no bounce). The engine's projectile movement component runs these. Velocity and location are opaque vectors read at hit time.
- `TakeDamage` on the ship: it is the engine-inherited method, with no health rules in these files. Only the call is recorded. The empty `FDamageEvent` and the null instigator are not recorded.
- `AShipPawn` and `AMinigoldGameMode`: they log, have empty handlers, and assign the default pawn class. There is no logic to verify.
- `UE_LOG` output, real time, and the timer manager's scheduling. Expiry is an explicit event, and the timer's duration is recorded as `FireRate`.
- Floating point: vectors and `FireRate` are exact reals. `FireRate` is the real 0.1, not the single-precision value nearest it. No property depends on rounding.
- `MinigoldPawn.Pawn.FireShot`: a shot with no world is not modelled. The source dereferences the null `World` when setting the timer, so a world is a precondition of firing with an open gate.
- `MinigoldProjectile.Projectile.OnHit`: other actors and components are described by what `OnHit` tests (null, self, ship cast, simulating physics), not by object identity.
- `MinigoldProjectile.Projectile.OnHit`: a ship hit with a null `OtherComp` is not modelled. The source dereferences `OtherComp` unchecked in the ship branch, so a component is a precondition of a ship hit.
- `FireGate.FireStep`: the gate assumes a positive `FireRate`. The engine's `SetTimer` with a rate of zero or less clears the handle instead of arming it, which would leave the gate closed for good. The pawn always uses 0.1, so no reachable state is affected.
