/** What one call of `do_ext_src` adds to a cell, stated slot by slot and
    physically: which slots move, what each receives, that the relaxation
    source removes kinetic energy, that the drift source points towards the
    orbital axis, and the worked scenarios of the two blocks. */
module KernelProperties {
  import opened Vectors
  import opened Damping
  import opened Forces
  import opened ExtSrc

  /** With both guards off the kernel adds nothing to any slot. */
  lemma DisabledKernelAddsNothing(cfg: Config, layout: Layout, h: Helpers, rho: real, m: Vec3, pos: Vec3, dt: real, n: int)
    requires KernelInputsValid(cfg, h, pos, rho, dt)
    requires cfg.problem != 1 || (cfg.relaxationDampingFactor <= 0.0 && cfg.radialDampingFactor <= 0.0)
    ensures CellIncrement(cfg, layout, h, rho, m, pos, dt, n) == 0.0
  {
  }

  /** A slot outside the momentum, hybrid-momentum and energy slots never
      receives anything. */
  lemma UntouchedSlotsUnchanged(cfg: Config, layout: Layout, h: Helpers, rho: real, m: Vec3, pos: Vec3, dt: real, n: int)
    requires KernelInputsValid(cfg, h, pos, rho, dt)
    requires n !in TouchedSlots(cfg, layout)
    ensures CellIncrement(cfg, layout, h, rho, m, pos, dt, n) == 0.0
  {
    assert SlotShare(layout.uMx, Zero, 3, n) == 0.0;
  }

  /** The momentum slot UMX+d receives the d-th component of each enabled
      block's momentum source, and nothing else. */
  lemma MomentumSlotIncrement(cfg: Config, layout: Layout, h: Helpers, rho: real, m: Vec3, pos: Vec3, dt: real, d: int)
    requires KernelInputsValid(cfg, h, pos, rho, dt) && SlotsDistinct(cfg, layout) && 0 <= d < 3
    ensures CellIncrement(cfg, layout, h, rho, m, pos, dt, layout.uMx + d)
         == (if RelaxationEnabled(cfg) then RelaxationSource(cfg, h, rho, m, dt)[d] else 0.0)
          + (if DriftEnabled(cfg) then DriftSource(cfg, h, rho, m, pos, dt)[d] else 0.0)
  {
  }

  /** With hybrid momentum, the slot UMR+d receives the d-th component of
      each enabled block's source remapped by `linear_to_hybrid`. */
  lemma HybridSlotIncrement(cfg: Config, layout: Layout, h: Helpers, rho: real, m: Vec3, pos: Vec3, dt: real, d: int)
    requires KernelInputsValid(cfg, h, pos, rho, dt) && SlotsDistinct(cfg, layout) && 0 <= d < 3
    requires cfg.hybridMomentum
    ensures CellIncrement(cfg, layout, h, rho, m, pos, dt, layout.uMr + d)
         == (if RelaxationEnabled(cfg) then h.toHybrid(Sub(pos, cfg.center), RelaxationSource(cfg, h, rho, m, dt))[d] else 0.0)
          + (if DriftEnabled(cfg) then h.toHybrid(Sub(pos, cfg.center), DriftSource(cfg, h, rho, m, pos, dt))[d] else 0.0)
  {
  }

  /** The energy slot UEDEN receives each enabled block's energy source. */
  lemma EnergySlotIncrement(cfg: Config, layout: Layout, h: Helpers, rho: real, m: Vec3, pos: Vec3, dt: real)
    requires KernelInputsValid(cfg, h, pos, rho, dt) && SlotsDistinct(cfg, layout)
    ensures CellIncrement(cfg, layout, h, rho, m, pos, dt, layout.uEden)
         == (if RelaxationEnabled(cfg) then RelaxationEnergy(cfg, h, rho, m, dt) else 0.0)
          + (if DriftEnabled(cfg) then DriftEnergy(cfg, h, rho, m, pos, dt) else 0.0)
  {
  }

  /** The momentum slot along the axis normal to the orbital plane receives
      only the relaxation source: the drift block adds zero there. */
  lemma OrbitalNormalGetsNoDrift(cfg: Config, layout: Layout, h: Helpers, rho: real, m: Vec3, pos: Vec3, dt: real)
    requires KernelInputsValid(cfg, h, pos, rho, dt) && SlotsDistinct(cfg, layout)
    requires AxesArePermutation(cfg)
    ensures CellIncrement(cfg, layout, h, rho, m, pos, dt, layout.uMx + cfg.axis3 - 1)
         == (if RelaxationEnabled(cfg) then RelaxationSource(cfg, h, rho, m, dt)[cfg.axis3 - 1] else 0.0)
  {
    MomentumSlotIncrement(cfg, layout, h, rho, m, pos, dt, cfg.axis3 - 1);
  }

  /** The relaxation source is the damped momentum times a coefficient in
      (-1/tau, 0); its energy source is the velocity of that momentum dotted
      with the source, equal to coeff * |mom|^2 / rho and never positive. */
  lemma RelaxationDampsKineticEnergy(cfg: Config, h: Helpers, rho: real, m: Vec3, dt: real)
    requires RelaxationInputsValid(cfg, rho, dt)
    ensures var mom, c := RelaxationMomentum(cfg, h, rho, m), RelaxationCoefficient(cfg, dt);
      && RelaxationSource(cfg, h, rho, m, dt) == Scale(c, mom)
      && -1.0 / RelaxationTimescale(cfg) < c < 0.0
      && RelaxationEnergy(cfg, h, rho, m, dt) == Dot(Scale(1.0 / rho, mom), RelaxationSource(cfg, h, rho, m, dt))
      && RelaxationEnergy(cfg, h, rho, m, dt) == c * Dot(mom, mom) / rho
      && RelaxationEnergy(cfg, h, rho, m, dt) <= 0.0
  {
    var mom, c := RelaxationMomentum(cfg, h, rho, m), RelaxationCoefficient(cfg, dt);
    RelaxationCoefficientDamps(cfg, dt);
    Vec3Equal(RelaxationForce(mom, c), Scale(c, mom));
    EnergyIsVelocityDotForce(rho, mom, RelaxationForce(mom, c));
    RelaxationRemovesEnergy(rho, mom, c);
  }

  /** Without a frame change the relaxation block damps the cell momentum
      itself, and its energy source is the cell velocity dotted with the source. */
  lemma RelaxationInStateFrame(cfg: Config, h: Helpers, rho: real, m: Vec3, dt: real)
    requires RelaxationInputsValid(cfg, rho, dt) && !TransformsToRotatingFrame(cfg)
    ensures RelaxationSource(cfg, h, rho, m, dt) == Scale(RelaxationCoefficient(cfg, dt), m)
    ensures RelaxationEnergy(cfg, h, rho, m, dt) == Dot(Scale(1.0 / rho, m), RelaxationSource(cfg, h, rho, m, dt))
  {
    RelaxationDampsKineticEnergy(cfg, h, rho, m, dt);
  }

  /** The drift energy source is the cell velocity mom/rho dotted with the
      drift source. */
  lemma DriftEnergyIsVelocityDotForce(cfg: Config, h: Helpers, rho: real, m: Vec3, pos: Vec3, dt: real)
    requires DriftInputsValid(cfg, h, pos, rho, dt)
    ensures DriftEnergy(cfg, h, rho, m, pos, dt) == Dot(Scale(1.0 / rho, m), DriftSource(cfg, h, rho, m, pos, dt))
  {
    EnergyIsVelocityDotForce(rho, m, DriftSource(cfg, h, rho, m, pos, dt));
  }

  /** The drift source as written: along (cos, sin) in the orbital plane,
      zero along the normal, of squared magnitude (rho * v_rad * coeff)^2, and
      -- while the relaxation factor is positive -- pointing towards the
      orbital axis, with radial component R * rho * |v_rad| * coeff. */
  lemma DriftSourceGeometry(cfg: Config, h: Helpers, rho: real, m: Vec3, pos: Vec3, dt: real)
    requires DriftInputsValid(cfg, h, pos, rho, dt) && TimescalesPositive(cfg)
    ensures var sr, vRad, c := DriftSource(cfg, h, rho, m, pos, dt), DriftRadialVelocity(cfg, h, rho, m, pos),
                               DampingCoefficient(dt, DriftTimescale(cfg));
      && sr[cfg.axis3 - 1] == 0.0
      && Dot(sr, sr) == (rho * vRad * c) * (rho * vRad * c)
      && Dot(Sub(pos, cfg.center), sr) == PlanarRadius(cfg, h, pos) * (rho * Abs(vRad)) * c
      && (cfg.relaxationDampingFactor > 0.0 ==> Dot(Sub(pos, cfg.center), sr) <= 0.0)
  {
    var loc, r := Sub(pos, cfg.center), PlanarRadius(cfg, h, pos);
    var vRad, c := DriftRadialVelocity(cfg, h, rho, m, pos), DampingCoefficient(dt, DriftTimescale(cfg));
    DriftForceMagnitude(cfg, loc, r, rho, vRad, c);
    if cfg.relaxationDampingFactor > 0.0 {
      DriftCoefficientDampsWhileRelaxing(cfg, dt);
      DriftPointsInward(cfg, loc, r, rho, vRad, c);
    } else {
      DriftRadialComponent(cfg, loc, r, rho, vRad, c);
    }
  }

  /** Two momenta whose radial velocities are opposite receive the same drift
      source: the force depends on |v_rad| only. */
  lemma DriftSourceEvenInRadialVelocity(cfg: Config, h: Helpers, rho: real, m1: Vec3, m2: Vec3, pos: Vec3, dt: real)
    requires DriftInputsValid(cfg, h, pos, rho, dt)
    requires DriftRadialVelocity(cfg, h, rho, m2, pos) == -DriftRadialVelocity(cfg, h, rho, m1, pos)
    ensures DriftSource(cfg, h, rho, m2, pos, dt) == DriftSource(cfg, h, rho, m1, pos, dt)
  {
    DriftForceEvenInRadialVelocity(cfg, Sub(pos, cfg.center), PlanarRadius(cfg, h, pos), rho,
                                   DriftRadialVelocity(cfg, h, rho, m1, pos), DampingCoefficient(dt, DriftTimescale(cfg)));
  }

  // ----- Worked scenarios -----

  /** Relaxation with rho = 1, momentum (2, 0, 0), factor 0.5 and free-fall
      times 10, dt = 1, no frame change: tau = 5, the coefficient is -1/6, the
      source is (-1/3, 0, 0) and the energy source is -2/3. */
  lemma RelaxationScenario(h: Helpers, center: Vec3, layout: Layout)
    ensures var cfg := Config(1, 0.5, 0.0, 10.0, 10.0, center, 1, 2, 3, 0, 0, false, false);
      && RelaxationInputsValid(cfg, 1.0, 1.0)
      && RelaxationTimescale(cfg) == 5.0
      && RelaxationCoefficient(cfg, 1.0) == -1.0 / 6.0
      && RelaxationSource(cfg, h, 1.0, [2.0, 0.0, 0.0], 1.0) == [-1.0 / 3.0, 0.0, 0.0]
      && RelaxationEnergy(cfg, h, 1.0, [2.0, 0.0, 0.0], 1.0) == -2.0 / 3.0
  {
    var cfg := Config(1, 0.5, 0.0, 10.0, 10.0, center, 1, 2, 3, 0, 0, false, false);
    var sr := RelaxationSource(cfg, h, 1.0, [2.0, 0.0, 0.0], 1.0);
    assert RelaxationCoefficient(cfg, 1.0) == -1.0 / 6.0;
    Vec3Equal(sr, [-1.0 / 3.0, 0.0, 0.0]);
  }

  /** Drift at in-plane offset (3, 4), R = 5, radial velocity 0.6, rho = 1
      and coefficient -0.2: the source is (-0.072, -0.096, 0). */
  lemma DriftScenario(center: Vec3)
    ensures var cfg := Config(1, 1.0, 1.0, 10.0, 10.0, center, 1, 2, 3, 0, 0, false, false);
      DriftForce(cfg, [3.0, 4.0, 0.0], 5.0, 1.0, 0.6, -0.2) == [-0.072, -0.096, 0.0]
  {
    var cfg := Config(1, 1.0, 1.0, 10.0, 10.0, center, 1, 2, 3, 0, 0, false, false);
    Vec3Equal(DriftForce(cfg, [3.0, 4.0, 0.0], 5.0, 1.0, 0.6, -0.2), [-0.072, -0.096, 0.0]);
  }

  // ----- The drift timescale of line 107 -----

  /** As written, the drift source does not depend on the radial damping
      factor at all: changing it (while keeping the block enabled) changes
      nothing. */
  lemma DriftSourceIgnoresRadialFactor(cfg: Config, radial: real, h: Helpers, rho: real, m: Vec3, pos: Vec3, dt: real)
    requires DriftInputsValid(cfg, h, pos, rho, dt)
    ensures DriftInputsValid(cfg.(radialDampingFactor := radial), h, pos, rho, dt)
    ensures DriftSource(cfg.(radialDampingFactor := radial), h, rho, m, pos, dt) == DriftSource(cfg, h, rho, m, pos, dt)
  {
    var cfg2 := cfg.(radialDampingFactor := radial);
    assert DriftTimescale(cfg2) == DriftTimescale(cfg);
    assert cfg2.axis1 == cfg.axis1 && cfg2.axis2 == cfg.axis2 && cfg2.center == cfg.center;
    assert PlanarDistanceSquared(cfg2, Sub(pos, cfg.center)) == PlanarDistanceSquared(cfg, Sub(pos, cfg.center));
    assert PlanarRadius(cfg2, h, pos) == PlanarRadius(cfg, h, pos);
    assert DriftRadialVelocity(cfg2, h, rho, m, pos) == DriftRadialVelocity(cfg, h, rho, m, pos);
    var loc, r, v := Sub(pos, cfg.center), PlanarRadius(cfg, h, pos), DriftRadialVelocity(cfg, h, rho, m, pos);
    var c := DampingCoefficient(dt, DriftTimescale(cfg));
    DriftForceReadsOnlyAxes(cfg, cfg2, loc, r, rho, v, c);
  }

  /** The identity frame helpers and a square root that answers 5. */
  function ScenarioHelpers(): Helpers
  {
    Helpers(v => v, (l, v) => v, (l, v) => v, x => 5.0)
  }

  /** A drift-only configuration with a negative relaxation factor: the
      drift block is enabled, the relaxation block is not. */
  function OutwardConfig(): Config
  {
    Config(1, -1.0, 1.0, 10.0, 10.0, Zero, 1, 2, 3, 0, 0, false, false)
  }

  /** As written, a negative relaxation factor makes the drift timescale
      negative: at offset (3, 4, 0) with momentum (1, 0, 0), rho = 1 and
      dt = 1, tau = -10, the coefficient is +1/9, the drift source points
      away from the axis and the kinetic-energy source is positive. */
  lemma DriftPushesOutwardAsWritten()
    ensures var cfg, h, pos, m := OutwardConfig(), ScenarioHelpers(), [3.0, 4.0, 0.0], [1.0, 0.0, 0.0];
      && DriftEnabled(cfg) && !RelaxationEnabled(cfg) && TimescalesPositive(cfg)
      && DriftInputsValid(cfg, h, pos, 1.0, 1.0)
      && DampingCoefficient(1.0, DriftTimescale(cfg)) == 1.0 / 9.0
      && Dot(Sub(pos, cfg.center), DriftSource(cfg, h, 1.0, m, pos, 1.0)) == 1.0 / 3.0
      && DriftEnergy(cfg, h, 1.0, m, pos, 1.0) > 0.0
  {
    var cfg, h, pos, m := OutwardConfig(), ScenarioHelpers(), [3.0, 4.0, 0.0], [1.0, 0.0, 0.0];
    var loc := Sub(pos, cfg.center);
    assert loc == pos;
    assert DriftTimescale(cfg) == -10.0;
    assert PlanarRadius(cfg, h, pos) == 5.0;
    var c := DampingCoefficient(1.0, DriftTimescale(cfg));
    assert c == 1.0 / 9.0;
    assert DriftVelocity(h, 1.0, loc, m) == Scale(1.0, m);
    var vRad := DriftRadialVelocity(cfg, h, 1.0, m, pos);
    assert vRad == 0.6;
    var sr := DriftSource(cfg, h, 1.0, m, pos, 1.0);
    assert sr == DriftForce(cfg, loc, 5.0, 1.0, 0.6, c);
    assert sr[0] == 0.6 * 0.6 / 9.0 && sr[1] == 0.8 * 0.6 / 9.0 && sr[2] == 0.0;
    assert DriftEnergy(cfg, h, 1.0, m, pos, 1.0) == sr[0];
  }

  /** What the drift block needs when its timescale is the radial factor
      times the larger free-fall time. */
  predicate IntendedDriftInputsValid(cfg: Config, h: Helpers, pos: Vec3, rho: real, dt: real)
  {
    DriftEnabled(cfg) && TimescalesPositive(cfg)
    && AxesArePermutation(cfg) && rho > 0.0 && dt > 0.0
    && IsPlanarRadius(cfg, Sub(pos, cfg.center), PlanarRadius(cfg, h, pos))
  }

  /** The drift source with the timescale its comment describes. */
  function IntendedDriftSource(cfg: Config, h: Helpers, rho: real, m: Vec3, pos: Vec3, dt: real): Vec3
    requires IntendedDriftInputsValid(cfg, h, pos, rho, dt)
  {
    IntendedDriftCoefficientDamps(cfg, dt);
    DriftSourceWith(cfg, h, rho, m, pos, DampingCoefficient(dt, IntendedDriftTimescale(cfg)))
  }

  /** With the intended timescale the drift source points towards the orbital
      axis for every enabled configuration, whatever the relaxation factor;
      it coincides with the code's source exactly when the two factors agree. */
  lemma IntendedDriftPointsInward(cfg: Config, h: Helpers, rho: real, m: Vec3, pos: Vec3, dt: real)
    requires IntendedDriftInputsValid(cfg, h, pos, rho, dt)
    ensures Dot(Sub(pos, cfg.center), IntendedDriftSource(cfg, h, rho, m, pos, dt)) <= 0.0
    ensures IntendedDriftSource(cfg, h, rho, m, pos, dt)[cfg.axis3 - 1] == 0.0
    ensures cfg.relaxationDampingFactor == cfg.radialDampingFactor ==>
      DriftInputsValid(cfg, h, pos, rho, dt)
      && IntendedDriftSource(cfg, h, rho, m, pos, dt) == DriftSource(cfg, h, rho, m, pos, dt)
  {
    IntendedDriftCoefficientDamps(cfg, dt);
    var c := DampingCoefficient(dt, IntendedDriftTimescale(cfg));
    DriftPointsInward(cfg, Sub(pos, cfg.center), PlanarRadius(cfg, h, pos), rho,
                      DriftRadialVelocity(cfg, h, rho, m, pos), c);
    if cfg.relaxationDampingFactor == cfg.radialDampingFactor {
      assert DriftTimescale(cfg) == IntendedDriftTimescale(cfg);
    }
  }
}
