/** Configuration of the wdmerger damping source terms, the choice of the
    dynamical timescale and the implicit damping coefficient shared by the
    relaxation block and the radial-drift block of `do_ext_src`. */
module Damping {
  import opened Vectors

  /** The read-only parameters `do_ext_src` consults: the `problem` namespace
      (problem number, damping factors, free-fall times, centre, orbital axes),
      the rotation runtime flags, and the two build options `ROTATION` and
      `HYBRID_MOMENTUM` as booleans. */
  datatype Config = Config(
    problem: int,
    relaxationDampingFactor: real,
    radialDampingFactor: real,
    tffP: real,                 // free-fall time of the primary
    tffS: real,                 // free-fall time of the secondary
    center: Vec3,
    axis1: int,                 // 1-based orbital axes
    axis2: int,
    axis3: int,
    doRotation: int,
    stateInRotatingFrame: int,
    rotation: bool,             // built with ROTATION
    hybridMomentum: bool        // built with HYBRID_MOMENTUM
  )

  /** The guard of the relaxation block. */
  predicate RelaxationEnabled(cfg: Config)
  {
    cfg.problem == 1 && cfg.relaxationDampingFactor > 0.0
  }

  /** The guard of the radial-drift block. */
  predicate DriftEnabled(cfg: Config)
  {
    cfg.problem == 1 && cfg.radialDampingFactor > 0.0
  }

  /** Free-fall times are positive, as the wdmerger setup computes them. */
  predicate TimescalesPositive(cfg: Config)
  {
    cfg.tffP > 0.0 && cfg.tffS > 0.0
  }

  /** Damping timescale of the relaxation block: the relaxation factor times
      the smaller free-fall time. */
  function RelaxationTimescale(cfg: Config): real
  {
    cfg.relaxationDampingFactor * Min(cfg.tffP, cfg.tffS)
  }

  /** Damping timescale of the radial-drift block as the code computes it:
      the larger free-fall time, scaled by the RELAXATION factor. */
  function DriftTimescale(cfg: Config): real
  {
    cfg.relaxationDampingFactor * Max(cfg.tffP, cfg.tffS)
  }

  /** Damping timescale of the radial-drift block as its own comment describes
      it: the larger free-fall time scaled by the RADIAL factor. */
  function IntendedDriftTimescale(cfg: Config): real
  {
    cfg.radialDampingFactor * Max(cfg.tffP, cfg.tffS)
  }

  /** The inputs on which the coefficient formula is finite: a non-zero step,
      and a timescale that does not cancel it (1 + dt/tau would be zero). */
  predicate CoefficientDefined(dt: real, tau: real)
  {
    dt != 0.0 && tau + dt != 0.0
  }

  /** The implicit damping coefficient -(1 - 1/(1 + dt/tau))/dt; it is the
      closed form -1/(tau + dt). A zero timescale (a zero damping factor) is
      evaluated as IEEE arithmetic does: dt/tau is an infinity, 1/(1 + dt/tau)
      is zero, and the coefficient is -1/dt. */
  function DampingCoefficient(dt: real, tau: real): (c: real)
    requires CoefficientDefined(dt, tau)
    ensures c == -1.0 / (tau + dt)
  {
    if tau == 0.0 then -1.0 / dt
    else
      var q := 1.0 + dt / tau;
      assert q * tau == tau + dt;
      var inner := 1.0 - 1.0 / q;
      assert inner == dt / (tau + dt) by {
        assert 1.0 / q == tau / (tau + dt);
      }
      -inner / dt
  }

  /** With a positive step and timescale the coefficient is a damping rate:
      negative, and smaller in magnitude than the explicit rate 1/tau. */
  lemma CoefficientBounds(dt: real, tau: real)
    requires dt > 0.0 && tau > 0.0
    ensures -1.0 / tau < DampingCoefficient(dt, tau) < 0.0
  {
    var c := DampingCoefficient(dt, tau);
    assert c * (tau + dt) == -1.0;
    assert (-1.0 / tau) * tau == -1.0;
    assert c * tau > -1.0 by {
      assert c * tau == -1.0 - c * dt;
      assert c < 0.0;
      assert c * dt < 0.0;
    }
  }

  /** The implicit coefficient differs from the explicit one by at most dt/tau^2,
      so the two agree as dt/tau goes to zero. */
  lemma CoefficientNearExplicit(dt: real, tau: real)
    requires dt > 0.0 && tau > 0.0
    ensures 0.0 < DampingCoefficient(dt, tau) + 1.0 / tau <= dt / (tau * tau)
  {
    var c := DampingCoefficient(dt, tau);
    var e := c + 1.0 / tau;
    assert e * (tau * (tau + dt)) == dt by {
      assert c * (tau + dt) == -1.0;
      assert (1.0 / tau) * tau == 1.0;
      assert e * (tau * (tau + dt)) == c * (tau + dt) * tau + (1.0 / tau) * tau * (tau + dt);
    }
    assert e == dt / (tau * (tau + dt));
    assert tau * (tau + dt) >= tau * tau;
    DivideByLarger(dt, tau * tau, tau * (tau + dt));
  }

  lemma DivideByLarger(x: real, small: real, large: real)
    requires x > 0.0 && 0.0 < small <= large
    ensures 0.0 < x / large <= x / small
  {
    var a, b := x / large, x / small;
    assert a * large == x && b * small == x;
    assert a > 0.0;
    assert a * small <= a * large;
    assert a * small <= b * small;
  }

  /** The limit the source comment claims: as dt goes to zero the implicit
      coefficient tends to the explicit rate -1/tau; any step below
      eps * tau^2 keeps the two within eps of each other. */
  lemma CoefficientTendsToExplicit(tau: real, eps: real)
    requires tau > 0.0 && eps > 0.0
    ensures forall dt: real :: 0.0 < dt < eps * (tau * tau) ==>
      Abs(DampingCoefficient(dt, tau) + 1.0 / tau) < eps
  {
    forall dt: real | 0.0 < dt < eps * (tau * tau)
      ensures Abs(DampingCoefficient(dt, tau) + 1.0 / tau) < eps
    {
      CoefficientNearExplicit(dt, tau);
      assert dt / (tau * tau) < eps by {
        assert dt / (tau * tau) * (tau * tau) == dt;
      }
    }
  }

  /** A larger step never gives a stronger damping rate. */
  lemma CoefficientMagnitudeNonIncreasing(dt1: real, dt2: real, tau: real)
    requires 0.0 < dt1 <= dt2 && tau > 0.0
    ensures Abs(DampingCoefficient(dt2, tau)) <= Abs(DampingCoefficient(dt1, tau))
  {
    CoefficientBounds(dt1, tau);
    CoefficientBounds(dt2, tau);
    DivideByLarger(1.0, tau + dt1, tau + dt2);
  }

  /** The implicit update never overshoots: over one step the damped quantity
      is multiplied by 1 + dt*c = tau/(tau + dt), which lies strictly between
      0 and 1, however large dt is. */
  lemma ImplicitStepNeverOvershoots(dt: real, tau: real)
    requires dt > 0.0 && tau > 0.0
    ensures 1.0 + dt * DampingCoefficient(dt, tau) == tau / (tau + dt)
    ensures 0.0 < 1.0 + dt * DampingCoefficient(dt, tau) < 1.0
  {
    var c := DampingCoefficient(dt, tau);
    assert dt * c == -dt / (tau + dt);
    assert 1.0 - dt / (tau + dt) == tau / (tau + dt);
    DivideByLarger(tau, tau, tau + dt);
    assert tau / tau == 1.0;
    assert tau / (tau + dt) != 1.0 by {
      assert tau / (tau + dt) * (tau + dt) == tau;
    }
  }

  /** Relaxation uses the smaller free-fall time, drift the larger, and both
      scale it by the relaxation factor; when that factor is positive the
      relaxation timescale never exceeds the drift timescale. */
  lemma TimescaleChoice(cfg: Config)
    requires TimescalesPositive(cfg)
    ensures RelaxationTimescale(cfg) == cfg.relaxationDampingFactor * cfg.tffP
         || RelaxationTimescale(cfg) == cfg.relaxationDampingFactor * cfg.tffS
    ensures DriftTimescale(cfg) == cfg.relaxationDampingFactor * cfg.tffP
         || DriftTimescale(cfg) == cfg.relaxationDampingFactor * cfg.tffS
    ensures cfg.relaxationDampingFactor > 0.0 ==>
      0.0 < RelaxationTimescale(cfg) <= DriftTimescale(cfg)
      && RelaxationTimescale(cfg) <= cfg.relaxationDampingFactor * cfg.tffP
      && RelaxationTimescale(cfg) <= cfg.relaxationDampingFactor * cfg.tffS
      && DriftTimescale(cfg) >= cfg.relaxationDampingFactor * cfg.tffP
      && DriftTimescale(cfg) >= cfg.relaxationDampingFactor * cfg.tffS
  {
    var lo, hi := Min(cfg.tffP, cfg.tffS), Max(cfg.tffP, cfg.tffS);
    var f := cfg.relaxationDampingFactor;
    if f > 0.0 {
      assert f * lo <= f * hi;
      assert f * lo <= f * cfg.tffP && f * lo <= f * cfg.tffS;
      assert f * hi >= f * cfg.tffP && f * hi >= f * cfg.tffS;
    }
  }

  /** The relaxation block, when it runs, always damps: its coefficient lies
      strictly between the explicit rate -1/tau and zero. */
  lemma RelaxationCoefficientDamps(cfg: Config, dt: real)
    requires RelaxationEnabled(cfg) && TimescalesPositive(cfg) && dt > 0.0
    ensures CoefficientDefined(dt, RelaxationTimescale(cfg))
    ensures -1.0 / RelaxationTimescale(cfg) < DampingCoefficient(dt, RelaxationTimescale(cfg)) < 0.0
  {
    TimescaleChoice(cfg);
    CoefficientBounds(dt, RelaxationTimescale(cfg));
  }

  /** With the drift timescale as intended, the drift block, when it runs,
      always has a negative coefficient, whatever the relaxation factor is. */
  lemma IntendedDriftCoefficientDamps(cfg: Config, dt: real)
    requires DriftEnabled(cfg) && TimescalesPositive(cfg) && dt > 0.0
    ensures IntendedDriftTimescale(cfg) > 0.0
    ensures CoefficientDefined(dt, IntendedDriftTimescale(cfg))
    ensures DampingCoefficient(dt, IntendedDriftTimescale(cfg)) < 0.0
  {
    var hi := Max(cfg.tffP, cfg.tffS);
    assert cfg.radialDampingFactor * hi > 0.0;
    CoefficientBounds(dt, IntendedDriftTimescale(cfg));
  }

  /** As written, the drift coefficient is negative only while the relaxation
      factor is positive. */
  lemma DriftCoefficientDampsWhileRelaxing(cfg: Config, dt: real)
    requires cfg.relaxationDampingFactor > 0.0 && TimescalesPositive(cfg) && dt > 0.0
    ensures CoefficientDefined(dt, DriftTimescale(cfg))
    ensures DampingCoefficient(dt, DriftTimescale(cfg)) < 0.0
  {
    TimescaleChoice(cfg);
    CoefficientBounds(dt, DriftTimescale(cfg));
  }
}
