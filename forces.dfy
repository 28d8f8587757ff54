/** The momentum sources the two blocks of `do_ext_src` synthesise for one
    cell, and the kinetic-energy source that goes with each. */
module Forces {
  import opened Vectors
  import opened Damping

  /** The helpers `do_ext_src` calls whose bodies are not part of this model,
      with the cell, geometry, `omega` and `time` arguments already applied:
      `inertial_to_rotational_velocity`, `inertial_velocity(loc, vel, omega)`,
      `linear_to_hybrid(loc, Sr)` and `std::sqrt`. */
  datatype Helpers = Helpers(
    toRotating: Vec3 -> Vec3,
    inertialVelocity: (Vec3, Vec3) -> Vec3,
    toHybrid: (Vec3, Vec3) -> Vec3,
    sqrt: real -> real
  )

  /** Whether the relaxation block moves the momentum into the rotating frame. */
  predicate TransformsToRotatingFrame(cfg: Config)
  {
    cfg.rotation && cfg.doRotation == 1 && cfg.stateInRotatingFrame == 0
  }

  /** The momentum the relaxation block damps: the cell momentum, or, when the
      state is kept in the inertial frame of a rotating run, rho times the
      rotating-frame velocity. */
  function RelaxationMomentum(cfg: Config, h: Helpers, rho: real, m: Vec3): Vec3
    requires rho != 0.0
  {
    if TransformsToRotatingFrame(cfg) then Scale(rho, h.toRotating(Scale(1.0 / rho, m))) else m
  }

  /** The relaxation momentum source `Sr[dir] = mom[dir] * damping_factor`. */
  function RelaxationForce(mom: Vec3, coeff: real): Vec3
  {
    [mom[0] * coeff, mom[1] * coeff, mom[2] * coeff]
  }

  /** The kinetic-energy source `sum over dir of rhoInv * mom[dir] * Sr[dir]`,
      summed in the order of the loop. */
  function KineticEnergySource(rhoInv: real, mom: Vec3, sr: Vec3): real
  {
    rhoInv * mom[0] * sr[0] + rhoInv * mom[1] * sr[1] + rhoInv * mom[2] * sr[2]
  }

  /** The energy source is the velocity mom/rho dotted with the momentum source. */
  lemma EnergyIsVelocityDotForce(rho: real, mom: Vec3, sr: Vec3)
    requires rho != 0.0
    ensures KineticEnergySource(1.0 / rho, mom, sr) == Dot(Scale(1.0 / rho, mom), sr)
  {
  }

  /** The relaxation source is antiparallel to the damped momentum: with a
      negative coefficient it is zero only when the momentum is, and its energy
      source is coeff * |mom|^2 / rho, never positive. */
  lemma RelaxationRemovesEnergy(rho: real, mom: Vec3, coeff: real)
    requires rho > 0.0 && coeff < 0.0
    ensures KineticEnergySource(1.0 / rho, mom, RelaxationForce(mom, coeff))
         == coeff * Dot(mom, mom) / rho
    ensures KineticEnergySource(1.0 / rho, mom, RelaxationForce(mom, coeff)) <= 0.0
    ensures RelaxationForce(mom, coeff) == Zero <==> mom == Zero
  {
    var sr := RelaxationForce(mom, coeff);
    var r := 1.0 / rho;
    var m2 := Dot(mom, mom);
    assert m2 >= 0.0 by {
      assert mom[0] * mom[0] >= 0.0 && mom[1] * mom[1] >= 0.0 && mom[2] * mom[2] >= 0.0;
    }
    assert KineticEnergySource(r, mom, sr) == r * coeff * m2;
    assert r * coeff * m2 == coeff * m2 / rho;
    assert r > 0.0;
    assert r * coeff <= 0.0;
    assert r * coeff * m2 <= 0.0 by {
      var rc := r * coeff;
      assert rc * m2 <= 0.0;
    }
    if sr == Zero {
      assert mom[0] * coeff == 0.0 && mom[1] * coeff == 0.0 && mom[2] * coeff == 0.0;
      assert mom == Zero;
    }
  }

  /** Orbital axes name each of the three Cartesian directions once. */
  predicate AxesArePermutation(cfg: Config)
  {
    1 <= cfg.axis1 <= 3 && 1 <= cfg.axis2 <= 3 && 1 <= cfg.axis3 <= 3
    && cfg.axis1 != cfg.axis2 && cfg.axis1 != cfg.axis3 && cfg.axis2 != cfg.axis3
  }

  /** `r` is the positive square root of the squared in-plane distance of `loc`. */
  predicate IsPlanarRadius(cfg: Config, loc: Vec3, r: real)
    requires AxesArePermutation(cfg)
  {
    var x1, x2 := loc[cfg.axis1 - 1], loc[cfg.axis2 - 1];
    r > 0.0 && r * r == x1 * x1 + x2 * x2
  }

  /** The projection `v_rad = cos(theta) * v[axis_1] + sin(theta) * v[axis_2]`. */
  function RadialVelocity(cfg: Config, loc: Vec3, rPrp: real, velI: Vec3): real
    requires AxesArePermutation(cfg) && rPrp != 0.0
  {
    (loc[cfg.axis1 - 1] / rPrp) * velI[cfg.axis1 - 1] + (loc[cfg.axis2 - 1] / rPrp) * velI[cfg.axis2 - 1]
  }

  /** The radial-drift source, assigned in the order of the code: the axis_1
      and axis_2 components carry (cos, sin) * rho * |v_rad| * coeff and the
      axis_3 component is zero. */
  function DriftForce(cfg: Config, loc: Vec3, rPrp: real, rho: real, vRad: real, coeff: real): (sr: Vec3)
    requires AxesArePermutation(cfg) && rPrp != 0.0
    ensures sr[cfg.axis1 - 1] == (loc[cfg.axis1 - 1] / rPrp) * (rho * Abs(vRad)) * coeff
    ensures sr[cfg.axis2 - 1] == (loc[cfg.axis2 - 1] / rPrp) * (rho * Abs(vRad)) * coeff
    ensures sr[cfg.axis3 - 1] == 0.0
  {
    var cosTheta, sinTheta := loc[cfg.axis1 - 1] / rPrp, loc[cfg.axis2 - 1] / rPrp;
    Zero[cfg.axis1 - 1 := cosTheta * (rho * Abs(vRad)) * coeff]
        [cfg.axis2 - 1 := sinTheta * (rho * Abs(vRad)) * coeff]
        [cfg.axis3 - 1 := 0.0]
  }

  /** Each of the three directions is one of the orbital axes. */
  lemma AxisCovers(cfg: Config, d: int)
    requires AxesArePermutation(cfg) && 0 <= d < 3
    ensures d == cfg.axis1 - 1 || d == cfg.axis2 - 1 || d == cfg.axis3 - 1
  {
  }

  /** A dot product summed over the orbital axes instead of over 0, 1, 2. */
  lemma DotOverAxes(cfg: Config, a: Vec3, b: Vec3)
    requires AxesArePermutation(cfg)
    ensures Dot(a, b) == a[cfg.axis1 - 1] * b[cfg.axis1 - 1] + a[cfg.axis2 - 1] * b[cfg.axis2 - 1]
                       + a[cfg.axis3 - 1] * b[cfg.axis3 - 1]
  {
    var i, j, k := cfg.axis1 - 1, cfg.axis2 - 1, cfg.axis3 - 1;
    assert i + j + k == 3;
    if i == 0 {
      if j == 1 { assert k == 2; } else { assert j == 2 && k == 1; }
    } else if i == 1 {
      if j == 0 { assert k == 2; } else { assert j == 2 && k == 0; }
    } else {
      if j == 0 { assert k == 1; } else { assert j == 1 && k == 0; }
    }
  }

  /** The drift source reads nothing of the configuration but its axes. */
  lemma DriftForceReadsOnlyAxes(cfg1: Config, cfg2: Config, loc: Vec3, rPrp: real, rho: real, vRad: real, coeff: real)
    requires AxesArePermutation(cfg1) && rPrp != 0.0
    requires cfg1.axis1 == cfg2.axis1 && cfg1.axis2 == cfg2.axis2 && cfg1.axis3 == cfg2.axis3
    ensures DriftForce(cfg2, loc, rPrp, rho, vRad, coeff) == DriftForce(cfg1, loc, rPrp, rho, vRad, coeff)
  {
    var f2, f1 := DriftForce(cfg2, loc, rPrp, rho, vRad, coeff), DriftForce(cfg1, loc, rPrp, rho, vRad, coeff);
    forall d | 0 <= d < 3
      ensures f2[d] == f1[d]
    {
      AxisCovers(cfg1, d);
    }
    Vec3Equal(f2, f1);
  }

  /** The drift source depends on v_rad only through |v_rad|: reversing the
      radial motion gives the same force. */
  lemma DriftForceEvenInRadialVelocity(cfg: Config, loc: Vec3, rPrp: real, rho: real, vRad: real, coeff: real)
    requires AxesArePermutation(cfg) && rPrp != 0.0
    ensures DriftForce(cfg, loc, rPrp, rho, -vRad, coeff) == DriftForce(cfg, loc, rPrp, rho, vRad, coeff)
  {
    var a, b := DriftForce(cfg, loc, rPrp, rho, -vRad, coeff), DriftForce(cfg, loc, rPrp, rho, vRad, coeff);
    assert Abs(-vRad) == Abs(vRad);
    forall d | 0 <= d < 3
      ensures a[d] == b[d]
    {
      AxisCovers(cfg, d);
    }
  }

  /** (x1/R, x2/R) is a unit vector, and projecting (x1, x2) on it gives R. */
  lemma UnitDirection(x1: real, x2: real, r: real)
    requires r > 0.0 && r * r == x1 * x1 + x2 * x2
    ensures (x1 / r) * (x1 / r) + (x2 / r) * (x2 / r) == 1.0
    ensures x1 * (x1 / r) + x2 * (x2 / r) == r
  {
    var c, s := x1 / r, x2 / r;
    assert c * r == x1 && s * r == x2;
    assert (c * r) * (c * r) == x1 * x1 && (s * r) * (s * r) == x2 * x2;
    calc {
      (c * c + s * s) * (r * r);
      (c * r) * (c * r) + (s * r) * (s * r);
      x1 * x1 + x2 * x2;
      r * r;
    }
    assert (c * c + s * s - 1.0) * (r * r) == 0.0;
    assert r * r > 0.0;
    assert (x1 * c + x2 * s) * r == x1 * x1 + x2 * x2;
    assert (x1 * c + x2 * s) * r == r * r;
  }

  /** The drift source lies along the in-plane radial direction, with the
      magnitude rho * |v_rad| * |coeff| (stated for the squares). */
  lemma DriftForceMagnitude(cfg: Config, loc: Vec3, rPrp: real, rho: real, vRad: real, coeff: real)
    requires AxesArePermutation(cfg) && IsPlanarRadius(cfg, loc, rPrp)
    ensures var sr := DriftForce(cfg, loc, rPrp, rho, vRad, coeff);
      Dot(sr, sr) == (rho * vRad * coeff) * (rho * vRad * coeff)
  {
    var sr := DriftForce(cfg, loc, rPrp, rho, vRad, coeff);
    var x1, x2 := loc[cfg.axis1 - 1], loc[cfg.axis2 - 1];
    var c, s := x1 / rPrp, x2 / rPrp;
    var f := rho * Abs(vRad) * coeff;
    UnitDirection(x1, x2, rPrp);
    assert sr[cfg.axis1 - 1] == c * f && sr[cfg.axis2 - 1] == s * f;
    DotOverAxes(cfg, sr, sr);
    assert Dot(sr, sr) == (c * c + s * s) * (f * f);
    assert Abs(vRad) * Abs(vRad) == vRad * vRad;
    assert f * f == (rho * vRad * coeff) * (rho * vRad * coeff);
  }

  /** The drift source lies along the outward in-plane direction: its
      component along loc is R * rho * |v_rad| * coeff. */
  lemma DriftRadialComponent(cfg: Config, loc: Vec3, rPrp: real, rho: real, vRad: real, coeff: real)
    requires AxesArePermutation(cfg) && IsPlanarRadius(cfg, loc, rPrp)
    ensures Dot(loc, DriftForce(cfg, loc, rPrp, rho, vRad, coeff)) == rPrp * (rho * Abs(vRad)) * coeff
  {
    var sr := DriftForce(cfg, loc, rPrp, rho, vRad, coeff);
    var x1, x2 := loc[cfg.axis1 - 1], loc[cfg.axis2 - 1];
    var c, s := x1 / rPrp, x2 / rPrp;
    var g := rho * Abs(vRad);
    var f := g * coeff;
    assert Dot(loc, sr) == rPrp * f by {
      UnitDirection(x1, x2, rPrp);
      DotOverAxes(cfg, loc, sr);
      assert sr[cfg.axis1 - 1] == c * f by { assert c * g * coeff == c * (g * coeff); }
      assert sr[cfg.axis2 - 1] == s * f by { assert s * g * coeff == s * (g * coeff); }
      assert Dot(loc, sr) == x1 * (c * f) + x2 * (s * f);
      assert x1 * (c * f) + x2 * (s * f) == (x1 * c + x2 * s) * f;
    }
    assert rPrp * f == rPrp * g * coeff;
  }

  /** With a non-positive coefficient and positive density the drift source
      points towards the orbital axis: its component along loc is never
      positive. */
  lemma DriftPointsInward(cfg: Config, loc: Vec3, rPrp: real, rho: real, vRad: real, coeff: real)
    requires AxesArePermutation(cfg) && IsPlanarRadius(cfg, loc, rPrp)
    requires rho > 0.0 && coeff <= 0.0
    ensures Dot(loc, DriftForce(cfg, loc, rPrp, rho, vRad, coeff)) == rPrp * (rho * Abs(vRad)) * coeff
    ensures Dot(loc, DriftForce(cfg, loc, rPrp, rho, vRad, coeff)) <= 0.0
  {
    DriftRadialComponent(cfg, loc, rPrp, rho, vRad, coeff);
    var g := rho * Abs(vRad);
    assert rPrp * g * coeff <= 0.0 by {
      assert Abs(vRad) >= 0.0;
      SignOfProduct(rho, Abs(vRad));
      SignOfProduct(rPrp, g);
      SignOfProduct(rPrp * g, -coeff);
    }
  }

  lemma SignOfProduct(a: real, b: real)
    requires a >= 0.0 && b >= 0.0
    ensures a * b >= 0.0 && a * -b <= 0.0
  {
  }

  /** The velocity the drift block projects: `vel = rhoInv * mom` passed
      through `inertial_velocity(loc, vel, omega)`. */
  function DriftVelocity(h: Helpers, rho: real, loc: Vec3, m: Vec3): Vec3
    requires rho != 0.0
  {
    h.inertialVelocity(loc, Scale(1.0 / rho, m))
  }
}
