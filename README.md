# wdmerger damping source kernel

This project models `do_ext_src`, the per-cell external source kernel of
Castro's white-dwarf merger problem (`wdmerger`), and proves properties of
the model in Dafny. For one cell `(i, j, k)` the kernel adds two optional
blocks to the source array `src`:

- **Relaxation damping** is enabled for problem 1 with a positive
  `relaxation_damping_factor`. The cell momentum is moved into the rotating
  frame when the state is kept in the inertial frame of a rotating run. It is
  then damped with the implicit coefficient `-(1 - 1/(1 + dt/tau))/dt`, where
  tau is the relaxation factor times the smaller free-fall time.
- **Radial drift** is enabled for problem 1 with a positive
  `radial_damping_factor`. It adds an in-plane force along
  `(cos theta, sin theta)` with magnitude `rho * |v_rad| * coeff`. Here tau is
  the larger free-fall time times the relaxation factor, as line 107 computes
  it.

Each block adds three things:

- its momentum source to `UMX..UMZ`;
- with `HYBRID_MOMENTUM`, the `linear_to_hybrid` remap of that source to
  `UMR..`;
- `rhoInv * mom . Sr` to `UEDEN`.

The modules are:

- `Vectors` has 3-vectors (`GpuArray<Real, 3>`) and `amrex::min`/`max`.
- `Damping` has the configuration, the timescales and the implicit coefficient.
- `Forces` has the relaxation and drift momentum sources and their energy
  sources.
- `ExtSrc` has the kernel as imperative code. `src` and `state` are
  `array4<real>`, and the `for dir` loops are kept.
- `KernelProperties` has the cell-level consequences, the worked scenarios and
  the line-107 finding.

Several things are inputs rather than computed:

- the cell-centre `position`;
- `inertial_to_rotational_velocity`;
- `inertial_velocity`;
- `linear_to_hybrid`;
- `std::sqrt`.

They are fields of the `Helpers` datatype, with `geomdata`, `omega` and `time`
already applied. Nothing is assumed about them except at the point of use: the
square root must return the positive root of the squared in-plane distance.

The energy source is formed as the code forms it.

- Line 93 uses `mom` after the frame change. So in a rotating run with an
  inertial-frame state, the relaxation energy source is the rotating-frame
  velocity dotted with the source (`RelaxationEnergy`), not the inertial one.
- The relaxation source is added as computed. It is not transformed back to
  the inertial frame first.

## Model

| member | source | states |
|---|---|---|
| Vectors.Min | Exec/science/wdmerger/Castro_ext_src.H:34 | the dynamical timescale of relaxation is one of the two free-fall times and no larger than either |
| Vectors.Max | Exec/science/wdmerger/Castro_ext_src.H:105 | the dynamical timescale of drift is one of the two free-fall times and no smaller than either |
| Damping.DampingCoefficient | Exec/science/wdmerger/Castro_ext_src.H:49 | the implicit coefficient equals -1/(tau + dt) wherever it is finite; a zero timescale gives -1/dt, as IEEE division does |
| Damping.CoefficientBounds | Exec/science/wdmerger/Castro_ext_src.H:43-49 | for dt, tau > 0 the coefficient is negative and greater than the explicit rate -1/tau |
| Damping.CoefficientNearExplicit | Exec/science/wdmerger/Castro_ext_src.H:43-46 | the implicit and explicit coefficients differ by more than 0 and at most dt/tau^2 |
| Damping.CoefficientTendsToExplicit | Exec/science/wdmerger/Castro_ext_src.H:43-46 | for every eps > 0, every dt below eps*tau^2 gives a coefficient within eps of -1/tau (the limit dt -> 0) |
| Damping.CoefficientMagnitudeNonIncreasing | Exec/science/wdmerger/Castro_ext_src.H:43-49 | a larger step never gives a larger damping rate |
| Damping.ImplicitStepNeverOvershoots | Exec/science/wdmerger/Castro_ext_src.H:43-49 | one implicit step multiplies the damped quantity by tau/(tau+dt), strictly between 0 and 1, however large dt is |
| Damping.TimescaleChoice | Exec/science/wdmerger/Castro_ext_src.H:34-41 | relaxation uses the smaller and drift the larger free-fall time, both scaled by the relaxation factor; with a positive factor the relaxation timescale is at most the drift one |
| Damping.RelaxationCoefficientDamps | Exec/science/wdmerger/Castro_ext_src.H:28-49 | whenever the relaxation block runs its coefficient is defined and lies in (-1/tau, 0) |
| Damping.DriftCoefficientDampsWhileRelaxing | Exec/science/wdmerger/Castro_ext_src.H:105-109 | the drift coefficient as written is defined and negative whenever the relaxation factor is positive |
| Damping.IntendedDriftCoefficientDamps | Exec/science/wdmerger/Castro_ext_src.H:140-144 | with tau = radial factor times the larger free-fall time, the drift coefficient is negative whenever the block runs |
| Forces.EnergyIsVelocityDotForce | Exec/science/wdmerger/Castro_ext_src.H:161-164 | the energy loop's sum equals the velocity mom/rho dotted with the momentum source |
| Forces.RelaxationRemovesEnergy | Exec/science/wdmerger/Castro_ext_src.H:79-94 | with a negative coefficient the relaxation energy source is coeff*|mom|^2/rho and never positive, and the source vanishes exactly when the momentum does |
| Forces.DriftForce | Exec/science/wdmerger/Castro_ext_src.H:146-148 | the axis_1 and axis_2 components are (cos, sin)*rho*|v_rad|*coeff and the axis_3 component is zero |
| Forces.DriftForceEvenInRadialVelocity | Exec/science/wdmerger/Castro_ext_src.H:146-147 | reversing v_rad leaves the drift source unchanged |
| Forces.UnitDirection | Exec/science/wdmerger/Castro_ext_src.H:127-129 | (cos theta, sin theta) is a unit vector and projecting the in-plane offset on it gives R_prp |
| Forces.DriftForceMagnitude | Exec/science/wdmerger/Castro_ext_src.H:127-148 | the squared magnitude of the drift source is (rho*v_rad*coeff)^2 |
| Forces.DriftRadialComponent | Exec/science/wdmerger/Castro_ext_src.H:127-148 | the component of the drift source along the offset from the centre is R_prp*rho*|v_rad|*coeff |
| Forces.DriftPointsInward | Exec/science/wdmerger/Castro_ext_src.H:135-148 | with a non-positive coefficient and positive density the drift source points towards the orbital axis |
| ExtSrc.AddVector | Exec/science/wdmerger/Castro_ext_src.H:150-152 | the loop adds v[d] to component base+d of the cell and changes nothing else in src |
| ExtSrc.AddEnergy | Exec/science/wdmerger/Castro_ext_src.H:162-164 | the loop adds the kinetic-energy source to the energy slot of the cell and changes nothing else |
| ExtSrc.ToRotatingFrame | Exec/science/wdmerger/Castro_ext_src.H:69-75 | the momentum becomes rho times the rotating-frame velocity of mom/rho |
| ExtSrc.RelaxationSetup | Exec/science/wdmerger/Castro_ext_src.H:34-76 | the coefficient is the relaxation coefficient in (-1/tau, 0), loc is the offset from the centre, and mom is the cell momentum, frame-changed when required |
| ExtSrc.DampMomentum | Exec/science/wdmerger/Castro_ext_src.H:79-82 | Sr is mom times the coefficient and is added to the momentum slots of the cell only |
| ExtSrc.RelaxationBlock | Exec/science/wdmerger/Castro_ext_src.H:28-95 | every slot of every cell of src ends as its old value plus the relaxation increment of that slot at (i,j,k), and plus nothing elsewhere |
| ExtSrc.DriftCellVectors | Exec/science/wdmerger/Castro_ext_src.H:119-126 | 1/rho, the offset from the centre, the cell momentum and the velocity mom/rho |
| ExtSrc.DriftSynthesis | Exec/science/wdmerger/Castro_ext_src.H:127-148 | Sr is the drift force for R_prp and the radial velocity of the inertial velocity |
| ExtSrc.DriftSetup | Exec/science/wdmerger/Castro_ext_src.H:105-148 | Sr is the drift source with the coefficient of line 109, and its axis_3 component is zero |
| ExtSrc.DriftBlock | Exec/science/wdmerger/Castro_ext_src.H:99-165 | every slot of every cell of src ends as its old value plus the drift increment of that slot at (i,j,k), and plus nothing elsewhere |
| ExtSrc.DoExtSrc | Exec/science/wdmerger/Castro_ext_src.H:17-166 | src ends as its old value plus the sum of the enabled blocks' increments at cell (i,j,k); with both guards off nothing changes |
| KernelProperties.DisabledKernelAddsNothing | Exec/science/wdmerger/Castro_ext_src.H:28 | a problem other than 1, or both factors at most 0, adds zero to every slot |
| KernelProperties.UntouchedSlotsUnchanged | Exec/science/wdmerger/Castro_ext_src.H:79-94 | only the momentum, hybrid-momentum and energy slots can receive anything |
| KernelProperties.MomentumSlotIncrement | Exec/science/wdmerger/Castro_ext_src.H:79-82 | with distinct slots, UMX+d receives the d-th component of each enabled block's source |
| KernelProperties.HybridSlotIncrement | Exec/science/wdmerger/Castro_ext_src.H:154-158 | with hybrid momentum, UMR+d receives the d-th component of each enabled block's remapped source |
| KernelProperties.EnergySlotIncrement | Exec/science/wdmerger/Castro_ext_src.H:161-164 | UEDEN receives each enabled block's energy source |
| KernelProperties.OrbitalNormalGetsNoDrift | Exec/science/wdmerger/Castro_ext_src.H:148-152 | the momentum slot normal to the orbital plane receives only the relaxation source |
| KernelProperties.RelaxationDampsKineticEnergy | Exec/science/wdmerger/Castro_ext_src.H:79-94 | the relaxation source is coeff times the damped momentum, and its energy source is velocity dot source = coeff*|mom|^2/rho <= 0 |
| KernelProperties.RelaxationInStateFrame | Exec/science/wdmerger/Castro_ext_src.H:62-82 | without a frame change the relaxation damps the cell momentum and its energy is the cell velocity dotted with the source |
| KernelProperties.DriftEnergyIsVelocityDotForce | Exec/science/wdmerger/Castro_ext_src.H:161-164 | the drift energy source is the cell velocity dotted with the drift source |
| KernelProperties.DriftSourceGeometry | Exec/science/wdmerger/Castro_ext_src.H:127-148 | the drift source is zero along axis_3, has magnitude rho*|v_rad|*|coeff|, has radial component R_prp*rho*|v_rad|*coeff, and points inward while the relaxation factor is positive |
| KernelProperties.DriftSourceEvenInRadialVelocity | Exec/science/wdmerger/Castro_ext_src.H:133-147 | momenta with opposite radial velocities receive the same drift source |
| KernelProperties.RelaxationScenario | Exec/science/wdmerger/Castro_ext_src.H:34-94 | rho 1, momentum (2,0,0), factor 0.5, free-fall times 10, dt 1: coefficient -1/6, source (-1/3,0,0), energy -2/3 |
| KernelProperties.DriftScenario | Exec/science/wdmerger/Castro_ext_src.H:146-148 | offset (3,4), R 5, v_rad 0.6, rho 1, coefficient -0.2: source (-0.072,-0.096,0) |
| KernelProperties.DriftSourceIgnoresRadialFactor | Exec/science/wdmerger/Castro_ext_src.H:107 | as written, the drift source does not depend on the radial damping factor |
| KernelProperties.DriftPushesOutwardAsWritten | Exec/science/wdmerger/Castro_ext_src.H:107-109 | a negative relaxation factor with a positive radial factor gives coefficient +1/9, an outward drift source and a positive energy source |
| KernelProperties.IntendedDriftPointsInward | Exec/science/wdmerger/Castro_ext_src.H:140-144 | with tau = radial factor times the larger free-fall time the drift source always points inward, and it equals the code's source when the two factors agree |

## Left out

- Floating point is left out. The model computes over exact reals, so rounding, NaN and infinities are not modelled. The one exception is a zero drift timescale, where IEEE arithmetic gives the finite value -1/dt and the model does the same.
- `position`, `inertial_to_rotational_velocity`, `inertial_velocity` and `linear_to_hybrid` are not part of this model. Their results are supplied as functions in `Helpers`. So the model proves nothing about the rotation formulas or the hybrid basis.
- `std::sqrt` is supplied the same way. It is constrained only at the cell where it is used: it must return the positive root. A cell on the orbital axis (R_prp = 0) is excluded, where the code divides by zero.
- `omega`, `time` and `geomdata` are folded into those helper functions.
- `AMREX_SPACEDIM` is taken to be 3.
- The GPU launch, the `Array4` views and the concurrency across cells are left out. `state` and `src` are distinct arrays, and the model considers one cell per call.
- Preconditions the code does not check are made requirements, because its result is undefined without them:
  - rho > 0;
  - dt > 0;
  - positive free-fall times;
  - axes forming a permutation of 1, 2, 3;
  - a drift timescale that does not cancel dt.
- The rotation and hybrid-momentum build options are the booleans `rotation` and `hybridMomentum` of `Config`, not compile-time switches.
- The per-slot lemmas assume that the momentum, hybrid-momentum and energy slots do not overlap. The kernel itself does not need this, because it sums increments per slot.

## Findings

| source | as written | input that shows it | evidently intended | confidence | as-written member | corrected member |
|---|---|---|---|---|---|---|
| Exec/science/wdmerger/Castro_ext_src.H:107 | the drift timescale is `relaxation_damping_factor * max(t_ff_P, t_ff_S)`, so the drift strength ignores `radial_damping_factor`, and a relaxation factor at or below 0 gives a timescale at or below 0 | relaxation factor -1, radial factor 1, free-fall times 10, dt 1, offset (3,4,0), rho 1, momentum (1,0,0): tau = -10, the coefficient is +1/9, the drift source (0.04, 0.0533, 0) points outward and the energy source is +0.04 | tau = `radial_damping_factor * max(t_ff_P, t_ff_S)`, as the comment at lines 140-144 describes, which always gives an inward drift | not executed | KernelProperties.DriftPushesOutwardAsWritten | KernelProperties.IntendedDriftPointsInward |

The kernel `ExtSrc.DoExtSrc` keeps line 107 as written, so that it models the
code. The corrected source is `KernelProperties.IntendedDriftSource`. It
coincides with the kernel's source whenever the two damping factors are equal.
