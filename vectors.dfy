/** Cartesian 3-vectors over the reals: the model of `GpuArray<Real, 3>` and of
    the few arithmetic helpers the damping kernel needs. */
module Vectors {

  /** A fixed-size array of three reals, indexed 0, 1, 2. */
  type Vec3 = s: seq<real> | |s| == 3 witness [0.0, 0.0, 0.0]

  const Zero: Vec3 := [0.0, 0.0, 0.0]

  /** Two 3-vectors with the same components are equal. */
  lemma Vec3Equal(a: Vec3, b: Vec3)
    requires a[0] == b[0] && a[1] == b[1] && a[2] == b[2]
    ensures a == b
  {
  }

  function Sub(a: Vec3, b: Vec3): Vec3
  {
    [a[0] - b[0], a[1] - b[1], a[2] - b[2]]
  }

  function Scale(c: real, v: Vec3): Vec3
  {
    [c * v[0], c * v[1], c * v[2]]
  }

  function Dot(a: Vec3, b: Vec3): real
  {
    a[0] * b[0] + a[1] * b[1] + a[2] * b[2]
  }

  function Abs(x: real): real
  {
    if x < 0.0 then -x else x
  }

  /** `amrex::min` on two reals. */
  function Min(a: real, b: real): (r: real)
    ensures r <= a && r <= b
    ensures r == a || r == b
  {
    if a < b then a else b
  }

  /** `amrex::max` on two reals. */
  function Max(a: real, b: real): (r: real)
    ensures r >= a && r >= b
    ensures r == a || r == b
  {
    if a > b then a else b
  }
}
