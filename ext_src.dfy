/** `do_ext_src`: the per-cell wdmerger source kernel. It adds, to the source
    array of one cell, the relaxation damping source and the radial-drift
    source, each made of a momentum source, its hybrid-momentum remap and its
    kinetic-energy source. */
module ExtSrc {
  import opened Vectors
  import opened Damping
  import opened Forces

  /** Component indices of the conserved state: `URHO`, `UMX` (then `UMY`,
      `UMZ`), `UMR` (first of the three hybrid-momentum components) and `UEDEN`. */
  datatype Layout = Layout(uRho: int, uMx: int, uMr: int, uEden: int)

  /** Every slot the kernel reads from `state` or adds to in `src` exists. */
  predicate LayoutFits(cfg: Config, layout: Layout, stateComps: int, srcComps: int)
  {
    0 <= layout.uRho < stateComps
    && 0 <= layout.uMx && layout.uMx + 3 <= stateComps && layout.uMx + 3 <= srcComps
    && 0 <= layout.uEden < srcComps
    && (cfg.hybridMomentum ==> 0 <= layout.uMr && layout.uMr + 3 <= srcComps)
  }

  /** The momentum, hybrid-momentum and energy slots do not overlap. */
  predicate SlotsDistinct(cfg: Config, layout: Layout)
  {
    !(layout.uMx <= layout.uEden < layout.uMx + 3)
    && (cfg.hybridMomentum ==>
          !(layout.uMr <= layout.uEden < layout.uMr + 3)
          && (layout.uMr + 3 <= layout.uMx || layout.uMx + 3 <= layout.uMr))
  }

  /** The components of a cell the kernel may change. */
  function TouchedSlots(cfg: Config, layout: Layout): set<int>
  {
    {layout.uMx, layout.uMx + 1, layout.uMx + 2, layout.uEden}
    + (if cfg.hybridMomentum then {layout.uMr, layout.uMr + 1, layout.uMr + 2} else {})
  }

  predicate CellInRange(a: array4<real>, i: int, j: int, k: int)
  {
    0 <= i < a.Length0 && 0 <= j < a.Length1 && 0 <= k < a.Length2
  }

  /** What component n receives from a loop `src(UMX + dir) += v[dir]` over
      its first `count` directions starting at slot `base`. */
  function SlotShare(base: int, v: Vec3, count: int, n: int): real
    requires 0 <= count <= 3
  {
    if base <= n < base + count then v[n - base] else 0.0
  }

  /** The energy loop's partial sum over its first `count` directions. */
  function PartialEnergy(rhoInv: real, mom: Vec3, sr: Vec3, count: nat): real
    requires count <= 3
  {
    if count == 0 then 0.0
    else PartialEnergy(rhoInv, mom, sr, count - 1) + rhoInv * mom[count - 1] * sr[count - 1]
  }

  /** What component n of the cell receives from one block: the momentum
      source on the `UMX` slots, its hybrid remap on the `UMR` slots (with
      `HYBRID_MOMENTUM`) and the energy source on `UEDEN`. */
  function BlockIncrement(cfg: Config, layout: Layout, sr: Vec3, hybridMom: Vec3, energy: real, n: int): real
  {
    SlotShare(layout.uMx, sr, 3, n)
    + (if cfg.hybridMomentum then SlotShare(layout.uMr, hybridMom, 3, n) else 0.0)
    + (if n == layout.uEden then energy else 0.0)
  }

  /** The momentum of cell (i, j, k) of the state. */
  function CellMomentum(state: array4<real>, i: int, j: int, k: int, layout: Layout): Vec3
    requires CellInRange(state, i, j, k) && 0 <= layout.uMx && layout.uMx + 3 <= state.Length3
    reads state
  {
    [state[i, j, k, layout.uMx], state[i, j, k, layout.uMx + 1], state[i, j, k, layout.uMx + 2]]
  }

  // ----- The relaxation block -----

  predicate RelaxationInputsValid(cfg: Config, rho: real, dt: real)
  {
    RelaxationEnabled(cfg) && TimescalesPositive(cfg) && dt > 0.0 && rho > 0.0
  }

  function RelaxationCoefficient(cfg: Config, dt: real): real
    requires RelaxationEnabled(cfg) && TimescalesPositive(cfg) && dt > 0.0
  {
    RelaxationCoefficientDamps(cfg, dt);
    DampingCoefficient(dt, RelaxationTimescale(cfg))
  }

  /** The relaxation momentum source `Sr`. */
  function RelaxationSource(cfg: Config, h: Helpers, rho: real, m: Vec3, dt: real): Vec3
    requires RelaxationInputsValid(cfg, rho, dt)
  {
    RelaxationForce(RelaxationMomentum(cfg, h, rho, m), RelaxationCoefficient(cfg, dt))
  }

  /** The relaxation energy source, formed with the momentum the block damped. */
  function RelaxationEnergy(cfg: Config, h: Helpers, rho: real, m: Vec3, dt: real): real
    requires RelaxationInputsValid(cfg, rho, dt)
  {
    KineticEnergySource(1.0 / rho, RelaxationMomentum(cfg, h, rho, m), RelaxationSource(cfg, h, rho, m, dt))
  }

  function RelaxationIncrement(cfg: Config, layout: Layout, h: Helpers, rho: real, m: Vec3, pos: Vec3, dt: real, n: int): real
    requires RelaxationInputsValid(cfg, rho, dt)
  {
    var sr := RelaxationSource(cfg, h, rho, m, dt);
    BlockIncrement(cfg, layout, sr, h.toHybrid(Sub(pos, cfg.center), sr), RelaxationEnergy(cfg, h, rho, m, dt), n)
  }

  // ----- The radial-drift block -----

  /** The argument of `std::sqrt` at line 127: the squared in-plane distance. */
  function PlanarDistanceSquared(cfg: Config, loc: Vec3): real
    requires AxesArePermutation(cfg)
  {
    loc[cfg.axis1 - 1] * loc[cfg.axis1 - 1] + loc[cfg.axis2 - 1] * loc[cfg.axis2 - 1]
  }

  /** `R_prp`: the square root of the squared in-plane distance. */
  function PlanarRadius(cfg: Config, h: Helpers, pos: Vec3): real
    requires AxesArePermutation(cfg)
  {
    h.sqrt(PlanarDistanceSquared(cfg, Sub(pos, cfg.center)))
  }

  /** What the drift block needs: a valid axis permutation, a cell off the
      orbital axis where sqrt returns the positive root, a positive density,
      and a coefficient formula that divides by nothing that is zero. */
  predicate DriftInputsValid(cfg: Config, h: Helpers, pos: Vec3, rho: real, dt: real)
  {
    AxesArePermutation(cfg) && rho > 0.0 && dt > 0.0
    && CoefficientDefined(dt, DriftTimescale(cfg))
    && IsPlanarRadius(cfg, Sub(pos, cfg.center), PlanarRadius(cfg, h, pos))
  }

  function DriftRadialVelocity(cfg: Config, h: Helpers, rho: real, m: Vec3, pos: Vec3): real
    requires AxesArePermutation(cfg) && rho != 0.0
    requires IsPlanarRadius(cfg, Sub(pos, cfg.center), PlanarRadius(cfg, h, pos))
  {
    var loc := Sub(pos, cfg.center);
    RadialVelocity(cfg, loc, PlanarRadius(cfg, h, pos), DriftVelocity(h, rho, loc, m))
  }

  /** The radial-drift momentum source `Sr` with a given coefficient. */
  function DriftSourceWith(cfg: Config, h: Helpers, rho: real, m: Vec3, pos: Vec3, coeff: real): Vec3
    requires AxesArePermutation(cfg) && rho != 0.0
    requires IsPlanarRadius(cfg, Sub(pos, cfg.center), PlanarRadius(cfg, h, pos))
  {
    DriftForce(cfg, Sub(pos, cfg.center), PlanarRadius(cfg, h, pos), rho,
               DriftRadialVelocity(cfg, h, rho, m, pos), coeff)
  }

  /** The radial-drift momentum source `Sr` of the code. */
  function DriftSource(cfg: Config, h: Helpers, rho: real, m: Vec3, pos: Vec3, dt: real): Vec3
    requires DriftInputsValid(cfg, h, pos, rho, dt)
  {
    DriftSourceWith(cfg, h, rho, m, pos, DampingCoefficient(dt, DriftTimescale(cfg)))
  }

  /** The radial-drift energy source, formed with the cell momentum. */
  function DriftEnergy(cfg: Config, h: Helpers, rho: real, m: Vec3, pos: Vec3, dt: real): real
    requires DriftInputsValid(cfg, h, pos, rho, dt)
  {
    KineticEnergySource(1.0 / rho, m, DriftSource(cfg, h, rho, m, pos, dt))
  }

  function DriftIncrement(cfg: Config, layout: Layout, h: Helpers, rho: real, m: Vec3, pos: Vec3, dt: real, n: int): real
    requires DriftInputsValid(cfg, h, pos, rho, dt)
  {
    var sr := DriftSource(cfg, h, rho, m, pos, dt);
    BlockIncrement(cfg, layout, sr, h.toHybrid(Sub(pos, cfg.center), sr), DriftEnergy(cfg, h, rho, m, pos, dt), n)
  }

  // ----- The whole kernel -----

  /** What the callers of `do_ext_src` guarantee: a positive step and positive
      free-fall times, a positive density in a cell either block works on, and
      the drift block's own requirements when it runs. */
  predicate KernelInputsValid(cfg: Config, h: Helpers, pos: Vec3, rho: real, dt: real)
  {
    dt > 0.0 && TimescalesPositive(cfg)
    && (RelaxationEnabled(cfg) ==> rho > 0.0)
    && (DriftEnabled(cfg) ==> DriftInputsValid(cfg, h, pos, rho, dt))
  }

  /** What component n of cell (i, j, k) receives from one call: the sum of
      the enabled blocks' increments. */
  function CellIncrement(cfg: Config, layout: Layout, h: Helpers, rho: real, m: Vec3, pos: Vec3, dt: real, n: int): real
    requires KernelInputsValid(cfg, h, pos, rho, dt)
  {
    (if RelaxationEnabled(cfg) then RelaxationIncrement(cfg, layout, h, rho, m, pos, dt, n) else 0.0)
    + (if DriftEnabled(cfg) then DriftIncrement(cfg, layout, h, rho, m, pos, dt, n) else 0.0)
  }

  /** One `for dir` loop `src(i,j,k,base+dir) += v[dir]`. */
  method AddVector(src: array4<real>, i: int, j: int, k: int, base: int, v: Vec3)
    requires CellInRange(src, i, j, k) && 0 <= base && base + 3 <= src.Length3
    modifies src
    ensures forall a, b, c, n :: 0 <= a < src.Length0 && 0 <= b < src.Length1 && 0 <= c < src.Length2 && 0 <= n < src.Length3 ==>
      src[a, b, c, n] == old(src[a, b, c, n]) + (if a == i && b == j && c == k then SlotShare(base, v, 3, n) else 0.0)
  {
    assert forall n :: SlotShare(base, v, 0, n) == 0.0;
    for dir := 0 to 3
      invariant forall a, b, c, n :: 0 <= a < src.Length0 && 0 <= b < src.Length1 && 0 <= c < src.Length2 && 0 <= n < src.Length3 ==>
        src[a, b, c, n] == old(src[a, b, c, n]) + (if a == i && b == j && c == k then SlotShare(base, v, dir, n) else 0.0)
    {
      src[i, j, k, base + dir] := src[i, j, k, base + dir] + v[dir];
    }
  }

  /** One energy loop `src(i,j,k,slot) += rhoInv * mom[dir] * Sr[dir]`. */
  method AddEnergy(src: array4<real>, i: int, j: int, k: int, slot: int, rhoInv: real, mom: Vec3, sr: Vec3)
    requires CellInRange(src, i, j, k) && 0 <= slot < src.Length3
    modifies src
    ensures forall a, b, c, n :: 0 <= a < src.Length0 && 0 <= b < src.Length1 && 0 <= c < src.Length2 && 0 <= n < src.Length3 ==>
      src[a, b, c, n] == old(src[a, b, c, n])
        + (if a == i && b == j && c == k && n == slot then KineticEnergySource(rhoInv, mom, sr) else 0.0)
  {
    assert PartialEnergy(rhoInv, mom, sr, 0) == 0.0;
    for dir := 0 to 3
      invariant forall a, b, c, n :: 0 <= a < src.Length0 && 0 <= b < src.Length1 && 0 <= c < src.Length2 && 0 <= n < src.Length3 ==>
        src[a, b, c, n] == old(src[a, b, c, n])
          + (if a == i && b == j && c == k && n == slot then PartialEnergy(rhoInv, mom, sr, dir) else 0.0)
    {
      src[i, j, k, slot] := src[i, j, k, slot] + rhoInv * mom[dir] * sr[dir];
    }
    assert PartialEnergy(rhoInv, mom, sr, 3) == KineticEnergySource(rhoInv, mom, sr) by {
      assert PartialEnergy(rhoInv, mom, sr, 1) == rhoInv * mom[0] * sr[0];
    }
  }

  /** Lines 69-75: velocity mom/rho, moved into the rotating frame by
      `inertial_to_rotational_velocity`, then back to a momentum. */
  method ToRotatingFrame(h: Helpers, rho: real, rhoInv: real, mom: Vec3) returns (rotMom: Vec3)
    requires rho != 0.0 && rhoInv == 1.0 / rho
    ensures rotMom == Scale(rho, h.toRotating(Scale(1.0 / rho, mom)))
  {
    var vel := Zero;
    for dir := 0 to 3
      invariant forall d :: 0 <= d < dir ==> vel[d] == rhoInv * mom[d]
    {
      vel := vel[dir := rhoInv * mom[dir]];
    }
    Vec3Equal(vel, Scale(1.0 / rho, mom));
    vel := h.toRotating(vel);
    rotMom := mom;
    for dir := 0 to 3
      invariant forall d :: 0 <= d < dir ==> rotMom[d] == rho * vel[d]
    {
      rotMom := rotMom[dir := rho * vel[dir]];
    }
    Vec3Equal(rotMom, Scale(rho, vel));
  }

  /** Lines 34-76 of the relaxation block: the damping coefficient, 1/rho,
      the position relative to the centre and the momentum to damp, moved into
      the rotating frame when the state is kept in the inertial one. */
  method RelaxationSetup(i: int, j: int, k: int, cfg: Config, layout: Layout, h: Helpers, pos: Vec3,
                         state: array4<real>, dt: real)
    returns (dampingFactor: real, rhoInv: real, loc: Vec3, mom: Vec3)
    requires CellInRange(state, i, j, k) && 0 <= layout.uRho < state.Length3
    requires 0 <= layout.uMx && layout.uMx + 3 <= state.Length3
    requires RelaxationInputsValid(cfg, state[i, j, k, layout.uRho], dt)
    ensures dampingFactor == RelaxationCoefficient(cfg, dt)
    ensures -1.0 / RelaxationTimescale(cfg) < dampingFactor < 0.0
    ensures rhoInv == 1.0 / state[i, j, k, layout.uRho]
    ensures loc == Sub(pos, cfg.center)
    ensures mom == RelaxationMomentum(cfg, h, state[i, j, k, layout.uRho], CellMomentum(state, i, j, k, layout))
  {
    var dynamicalTimescale := Min(cfg.tffP, cfg.tffS);
    var relaxationDampingTimescale := cfg.relaxationDampingFactor * dynamicalTimescale;
    RelaxationCoefficientDamps(cfg, dt);
    dampingFactor := DampingCoefficient(dt, relaxationDampingTimescale);

    loc, mom := Zero, Zero;
    var rho := state[i, j, k, layout.uRho];
    rhoInv := 1.0 / rho;
    loc := pos;

    for dir := 0 to 3
      invariant forall d :: 0 <= d < dir ==> loc[d] == pos[d] - cfg.center[d] && mom[d] == state[i, j, k, layout.uMx + d]
      invariant forall d :: dir <= d < 3 ==> loc[d] == pos[d]
    {
      loc := loc[dir := loc[dir] - cfg.center[dir]];
      mom := mom[dir := state[i, j, k, layout.uMx + dir]];
    }
    ghost var m := CellMomentum(state, i, j, k, layout);
    Vec3Equal(loc, Sub(pos, cfg.center));
    Vec3Equal(mom, m);

    if cfg.rotation && cfg.doRotation == 1 && cfg.stateInRotatingFrame == 0 {
      mom := ToRotatingFrame(h, rho, rhoInv, mom);
    }
  }

  /** Lines 79-82: `Sr[dir] = mom[dir] * damping_factor`, added to
      `src(i,j,k,UMX+dir)`. */
  method DampMomentum(src: array4<real>, i: int, j: int, k: int, base: int, mom: Vec3, dampingFactor: real)
    returns (sr: Vec3)
    requires CellInRange(src, i, j, k) && 0 <= base && base + 3 <= src.Length3
    modifies src
    ensures sr == RelaxationForce(mom, dampingFactor)
    ensures forall a, b, c, n :: 0 <= a < src.Length0 && 0 <= b < src.Length1 && 0 <= c < src.Length2 && 0 <= n < src.Length3 ==>
      src[a, b, c, n] == old(src[a, b, c, n]) + (if a == i && b == j && c == k then SlotShare(base, sr, 3, n) else 0.0)
  {
    sr := Zero;
    assert forall n :: SlotShare(base, sr, 0, n) == 0.0;
    for dir := 0 to 3
      invariant forall d :: 0 <= d < dir ==> sr[d] == mom[d] * dampingFactor
      invariant forall a, b, c, n :: 0 <= a < src.Length0 && 0 <= b < src.Length1 && 0 <= c < src.Length2 && 0 <= n < src.Length3 ==>
        src[a, b, c, n] == old(src[a, b, c, n]) + (if a == i && b == j && c == k then SlotShare(base, sr, dir, n) else 0.0)
    {
      sr := sr[dir := mom[dir] * dampingFactor];
      src[i, j, k, base + dir] := src[i, j, k, base + dir] + sr[dir];
    }
    Vec3Equal(sr, RelaxationForce(mom, dampingFactor));
  }

  /** The relaxation block, lines 28-95. */
  method RelaxationBlock(i: int, j: int, k: int, cfg: Config, layout: Layout, h: Helpers, pos: Vec3,
                         state: array4<real>, src: array4<real>, dt: real)
    requires src != state && CellInRange(state, i, j, k) && CellInRange(src, i, j, k)
    requires LayoutFits(cfg, layout, state.Length3, src.Length3)
    requires RelaxationInputsValid(cfg, state[i, j, k, layout.uRho], dt)
    modifies src
    ensures forall a, b, c, n :: 0 <= a < src.Length0 && 0 <= b < src.Length1 && 0 <= c < src.Length2 && 0 <= n < src.Length3 ==>
      src[a, b, c, n] == old(src[a, b, c, n])
        + (if a == i && b == j && c == k
           then RelaxationIncrement(cfg, layout, h, state[i, j, k, layout.uRho], CellMomentum(state, i, j, k, layout), pos, dt, n)
           else 0.0)
  {
    var dampingFactor, rhoInv, loc, mom := RelaxationSetup(i, j, k, cfg, layout, h, pos, state, dt);
    ghost var rho, m := state[i, j, k, layout.uRho], CellMomentum(state, i, j, k, layout);

    var sr := DampMomentum(src, i, j, k, layout.uMx, mom, dampingFactor);
    Vec3Equal(sr, RelaxationSource(cfg, h, rho, m, dt));

    if cfg.hybridMomentum {
      var hybridMom := h.toHybrid(loc, sr);
      AddVector(src, i, j, k, layout.uMr, hybridMom);
    }

    AddEnergy(src, i, j, k, layout.uEden, rhoInv, mom, sr);
    assert forall n :: (RelaxationIncrement(cfg, layout, h, rho, m, pos, dt, n)
      == BlockIncrement(cfg, layout, sr, h.toHybrid(loc, sr), KineticEnergySource(rhoInv, mom, sr), n));
  }

  /** Lines 127-148: the in-plane radius and direction, the radial velocity
      of the inertial-frame velocity, and the drift source along (cos, sin). */
  method DriftSynthesis(cfg: Config, h: Helpers, rho: real, dampingFactor: real, loc: Vec3, vel: Vec3)
    returns (sr: Vec3)
    requires AxesArePermutation(cfg) && rho != 0.0
    requires IsPlanarRadius(cfg, loc, h.sqrt(PlanarDistanceSquared(cfg, loc)))
    ensures var rPrp := h.sqrt(PlanarDistanceSquared(cfg, loc));
      sr == DriftForce(cfg, loc, rPrp, rho, RadialVelocity(cfg, loc, rPrp, h.inertialVelocity(loc, vel)), dampingFactor)
  {
    var a1, a2, a3 := cfg.axis1 - 1, cfg.axis2 - 1, cfg.axis3 - 1;
    assert loc[a1] * loc[a1] + loc[a2] * loc[a2] == PlanarDistanceSquared(cfg, loc);
    var rPrp := h.sqrt(loc[a1] * loc[a1] + loc[a2] * loc[a2]);
    assert IsPlanarRadius(cfg, loc, rPrp);
    var cosTheta := loc[a1] / rPrp;
    var sinTheta := loc[a2] / rPrp;

    var velI := h.inertialVelocity(loc, vel);
    var vRad := cosTheta * velI[a1] + sinTheta * velI[a2];

    sr := Zero;
    sr := sr[a1 := cosTheta * (rho * Abs(vRad)) * dampingFactor];
    sr := sr[a2 := sinTheta * (rho * Abs(vRad)) * dampingFactor];
    sr := sr[a3 := 0.0];
    ghost var force := DriftForce(cfg, loc, rPrp, rho, vRad, dampingFactor);
    assert sr[a1] == force[a1];
    assert sr[a2] == force[a2];
    assert sr[a3] == force[a3];
    Vec3Equal(sr, force);
    assert vRad == RadialVelocity(cfg, loc, rPrp, velI);
  }

  /** Lines 119-126: 1/rho, the position relative to the centre, the cell
      momentum and the velocity mom/rho. */
  method DriftCellVectors(i: int, j: int, k: int, cfg: Config, layout: Layout, pos: Vec3, state: array4<real>)
    returns (rhoInv: real, loc: Vec3, mom: Vec3, vel: Vec3)
    requires CellInRange(state, i, j, k) && 0 <= layout.uRho < state.Length3
    requires 0 <= layout.uMx && layout.uMx + 3 <= state.Length3
    requires state[i, j, k, layout.uRho] != 0.0
    ensures rhoInv == 1.0 / state[i, j, k, layout.uRho]
    ensures loc == Sub(pos, cfg.center)
    ensures mom == CellMomentum(state, i, j, k, layout)
    ensures vel == Scale(1.0 / state[i, j, k, layout.uRho], mom)
  {
    vel, loc, mom := Zero, Zero, Zero;
    rhoInv := 1.0 / state[i, j, k, layout.uRho];
    loc := pos;

    for dir := 0 to 3
      invariant forall d :: 0 <= d < dir ==>
        loc[d] == pos[d] - cfg.center[d] && mom[d] == state[i, j, k, layout.uMx + d] && vel[d] == rhoInv * mom[d]
      invariant forall d :: dir <= d < 3 ==> loc[d] == pos[d]
    {
      loc := loc[dir := loc[dir] - cfg.center[dir]];
      mom := mom[dir := state[i, j, k, layout.uMx + dir]];
      vel := vel[dir := rhoInv * mom[dir]];
    }
    Vec3Equal(loc, Sub(pos, cfg.center));
    Vec3Equal(mom, CellMomentum(state, i, j, k, layout));
    Vec3Equal(vel, Scale(1.0 / state[i, j, k, layout.uRho], mom));
  }

  /** Lines 105-148 of the radial-drift block: 1/rho, the position relative
      to the centre, the cell momentum and the drift source `Sr`. */
  method DriftSetup(i: int, j: int, k: int, cfg: Config, layout: Layout, h: Helpers, pos: Vec3,
                    state: array4<real>, dt: real)
    returns (rhoInv: real, loc: Vec3, mom: Vec3, sr: Vec3)
    requires CellInRange(state, i, j, k) && 0 <= layout.uRho < state.Length3
    requires 0 <= layout.uMx && layout.uMx + 3 <= state.Length3
    requires DriftInputsValid(cfg, h, pos, state[i, j, k, layout.uRho], dt)
    ensures rhoInv == 1.0 / state[i, j, k, layout.uRho]
    ensures loc == Sub(pos, cfg.center)
    ensures mom == CellMomentum(state, i, j, k, layout)
    ensures sr == DriftSource(cfg, h, state[i, j, k, layout.uRho], mom, pos, dt)
    ensures sr[cfg.axis3 - 1] == 0.0
  {
    var dynamicalTimescale := Max(cfg.tffP, cfg.tffS);
    var relaxationDampingTimescale := cfg.relaxationDampingFactor * dynamicalTimescale;
    var dampingFactor := DampingCoefficient(dt, relaxationDampingTimescale);

    var rho := state[i, j, k, layout.uRho];
    var vel;
    rhoInv, loc, mom, vel := DriftCellVectors(i, j, k, cfg, layout, pos, state);
    ghost var m := CellMomentum(state, i, j, k, layout);
    sr := DriftSynthesis(cfg, h, rho, dampingFactor, loc, vel);
    assert dampingFactor == DampingCoefficient(dt, DriftTimescale(cfg));
    assert DriftSource(cfg, h, rho, m, pos, dt) == DriftSourceWith(cfg, h, rho, m, pos, dampingFactor);
  }

  /** The radial-drift block, lines 99-165. */
  method DriftBlock(i: int, j: int, k: int, cfg: Config, layout: Layout, h: Helpers, pos: Vec3,
                    state: array4<real>, src: array4<real>, dt: real)
    requires src != state && CellInRange(state, i, j, k) && CellInRange(src, i, j, k)
    requires LayoutFits(cfg, layout, state.Length3, src.Length3)
    requires DriftInputsValid(cfg, h, pos, state[i, j, k, layout.uRho], dt)
    modifies src
    ensures forall a, b, c, n :: 0 <= a < src.Length0 && 0 <= b < src.Length1 && 0 <= c < src.Length2 && 0 <= n < src.Length3 ==>
      src[a, b, c, n] == old(src[a, b, c, n])
        + (if a == i && b == j && c == k
           then DriftIncrement(cfg, layout, h, state[i, j, k, layout.uRho], CellMomentum(state, i, j, k, layout), pos, dt, n)
           else 0.0)
  {
    var rhoInv, loc, mom, sr := DriftSetup(i, j, k, cfg, layout, h, pos, state, dt);

    AddVector(src, i, j, k, layout.uMx, sr);

    if cfg.hybridMomentum {
      var hybridMom := h.toHybrid(loc, sr);
      AddVector(src, i, j, k, layout.uMr, hybridMom);
    }

    AddEnergy(src, i, j, k, layout.uEden, rhoInv, mom, sr);
    assert forall n :: (DriftIncrement(cfg, layout, h, state[i, j, k, layout.uRho], mom, pos, dt, n)
      == BlockIncrement(cfg, layout, sr, h.toHybrid(loc, sr), KineticEnergySource(rhoInv, mom, sr), n));
  }

  /** `do_ext_src` for cell (i, j, k): every component of every cell of `src`
      ends up as its old value plus what the enabled blocks add to it; only
      the cell (i, j, k) receives anything. The cell-centre position, the
      rotation helpers and sqrt are inputs (see `Helpers`). */
  method DoExtSrc(i: int, j: int, k: int, cfg: Config, layout: Layout, h: Helpers, pos: Vec3,
                  state: array4<real>, src: array4<real>, dt: real)
    requires src != state && CellInRange(state, i, j, k) && CellInRange(src, i, j, k)
    requires LayoutFits(cfg, layout, state.Length3, src.Length3)
    requires KernelInputsValid(cfg, h, pos, state[i, j, k, layout.uRho], dt)
    modifies src
    ensures forall a, b, c, n :: 0 <= a < src.Length0 && 0 <= b < src.Length1 && 0 <= c < src.Length2 && 0 <= n < src.Length3 ==>
      src[a, b, c, n] == old(src[a, b, c, n])
        + (if a == i && b == j && c == k
           then CellIncrement(cfg, layout, h, state[i, j, k, layout.uRho], CellMomentum(state, i, j, k, layout), pos, dt, n)
           else 0.0)
    ensures !RelaxationEnabled(cfg) && !DriftEnabled(cfg) ==> forall a, b, c, n ::
      0 <= a < src.Length0 && 0 <= b < src.Length1 && 0 <= c < src.Length2 && 0 <= n < src.Length3 ==>
        src[a, b, c, n] == old(src[a, b, c, n])
  {
    if RelaxationEnabled(cfg) {
      RelaxationBlock(i, j, k, cfg, layout, h, pos, state, src, dt);
    }
    if DriftEnabled(cfg) {
      DriftBlock(i, j, k, cfg, layout, h, pos, state, src, dt);
    }
  }
}
