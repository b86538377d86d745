/** Engine value types the gameplay code passes around: vectors, rotators and
    nullable references (as Option). Floating-point vectors are modelled as
    exact real triples; nothing in the core depends on rounding. */
module EngineTypes {

  datatype Option<T> = None | Some(value: T)

  /** A world-space location, offset, velocity or impulse (FVector). */
  datatype Vec3 = Vec3(x: real, y: real, z: real)

  /** An orientation as pitch, yaw and roll in degrees (FRotator). */
  datatype Rotator = Rotator(pitch: real, yaw: real, roll: real)

  const ZeroRotator: Rotator := Rotator(0.0, 0.0, 0.0)

  function Add(a: Vec3, b: Vec3): Vec3
  {
    Vec3(a.x + b.x, a.y + b.y, a.z + b.z)
  }

  /** Component-wise scaling, `v * k`. */
  function Scale(v: Vec3, k: real): Vec3
  {
    Vec3(v.x * k, v.y * k, v.z * k)
  }
}
