/**
 Shared vocabulary of the mesh and intersection models: angle indices with
 uninterpreted cosine and sine, small vectors, and views of a flat float
 buffer as vectors.
 */
module Geometry {

  /** The angle 2*pi*step/slices, named by its index rather than by its value.
      The demos compute it in floating point with their own value of pi; the
      model never needs the number itself. */
  datatype Angle = Angle(step: int, slices: nat)

  /** Cosine and sine, left uninterpreted: every property proved below holds
      for ANY pair of functions, so nothing depends on trigonometric identities. */
  datatype Trig = Trig(cos: Angle -> real, sin: Angle -> real)

  /** cos and sin agree at step and one full turn later, step + slices. Nothing
      in the model assumes this; the lemmas about what a full turn repeats
      take it as a hypothesis for the steps they need. */
  predicate FullTurnAgrees(trig: Trig, step: int, slices: nat)
  {
    && trig.cos(Angle(step + slices, slices)) == trig.cos(Angle(step, slices))
    && trig.sin(Angle(step + slices, slices)) == trig.sin(Angle(step, slices))
  }

  datatype Vec2 = Vec2(u: real, v: real)
  datatype Vec3 = Vec3(x: real, y: real, z: real)
  datatype Vec4 = Vec4(x: real, y: real, z: real, w: real)

  function Sub(a: Vec3, b: Vec3): Vec3
  {
    Vec3(a.x - b.x, a.y - b.y, a.z - b.z)
  }

  function Dot(a: Vec3, b: Vec3): real
  {
    a.x * b.x + a.y * b.y + a.z * b.z
  }

  function Cross(a: Vec3, b: Vec3): Vec3
  {
    Vec3(a.y * b.z - a.z * b.y, a.z * b.x - a.x * b.z, a.x * b.y - a.y * b.x)
  }

  /** A cross product is orthogonal to both of its factors. */
  lemma CrossOrthogonal(a: Vec3, b: Vec3)
    ensures Dot(Cross(a, b), a) == 0.0
    ensures Dot(Cross(a, b), b) == 0.0
  {
  }

  /** The three (two, four) floats of `s` starting at `base`, read as a vector. */
  function Vec2At(s: seq<real>, base: int): Vec2
    requires 0 <= base && base + 2 <= |s|
  {
    Vec2(s[base], s[base + 1])
  }

  function Vec3At(s: seq<real>, base: int): Vec3
    requires 0 <= base && base + 3 <= |s|
  {
    Vec3(s[base], s[base + 1], s[base + 2])
  }

  function Vec4At(s: seq<real>, base: int): Vec4
    requires 0 <= base && base + 4 <= |s|
  {
    Vec4(s[base], s[base + 1], s[base + 2], s[base + 3])
  }

  function Extend(v: Vec3, w: real): Vec4
  {
    Vec4(v.x, v.y, v.z, w)
  }
}
