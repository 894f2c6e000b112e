/** `find_k` of FrictionCoefficientsFinder.py and of kRampe_calculator.py
    (the same code in both files): the ramp friction coefficient is found
    by trying `0, step, 2 * step, ...` until the simulated exit speed of
    the ramp drops to the measured speed `vi`, and the ground coefficient
    follows in closed form from the speeds `vi` and `vt` measured `t`
    seconds apart. */
module Friction {
  import opened Wrappers
  import opened Ramp

  /** The parameters `find_k` fixes: `m`, `h`, `l`, `g` and `stepPente`. */
  const Mass: real := 0.382
  const Height: real := 1.0
  const Width: real := 0.5
  const Gravity: real := 9.81
  const SlopeStep: real := 0.001

  /** The ramp `simulation(kp, m, h, l, g, stepPente)` runs for a trial
      `kp`, with `n` samples: `n` is the length of `np.arange(-l, 0,
      stepPente)`, 500 for the parameters above. */
  function FinderRamp(np: Numpy, n: nat, kp: real): (s: Slope)
    requires n >= 2
    ensures Runs(s) && s.kp == kp && Count(s) == n
  {
    RampOf(np, kp, Mass, Height, Width, Gravity, SlopeStep, n)
  }

  /** `simulation` as a function of the trial coefficient: the exit speed
      of the ramp. */
  function Simulation(np: Numpy, n: nat): (exit: real -> real)
    requires n >= 2
    ensures forall kp :: exit(kp) == ExitSpeed(np, FinderRamp(np, n, kp))
  {
    kp => ExitSpeed(np, FinderRamp(np, n, kp))
  }

  /** The coefficient of trial `j`: `step` added `j` times to 0. */
  function Multiple(step: real, j: nat): (k: real)
  {
    if j == 0 then 0.0 else Multiple(step, j - 1) + step
  }

  /** Adding `step` `j` times gives `j * step`. */
  lemma {:induction false} MultipleIsProduct(step: real, j: nat)
    ensures Multiple(step, j) == (j as real) * step
  {
    if j > 0 {
      MultipleIsProduct(step, j - 1);
    }
  }

  /** The exit speed of trial `j`. */
  function Trial(exit: real -> real, step: real, j: nat): real {
    exit(Multiple(step, j))
  }

  /** The first trial from `j` on, among the next `fuel + 1`, whose exit
      speed is at most `vi`. */
  function FirstCrossing(exit: real -> real, vi: real, step: real, j: nat, fuel: nat): (r: Option<nat>)
    ensures r.Some? ==> j <= r.value <= j + fuel && Trial(exit, step, r.value) <= vi
    ensures r.Some? ==> forall i :: j <= i < r.value ==> Trial(exit, step, i) > vi
    ensures r.None? ==> forall i :: j <= i <= j + fuel ==> Trial(exit, step, i) > vi
    decreases fuel
  {
    if Trial(exit, step, j) <= vi then Some(j)
    else if fuel == 0 then None
    else FirstCrossing(exit, vi, step, j + 1, fuel - 1)
  }

  /** `(-m / t) * np.log(vt / vi)`: both divisions are Python's and raise
      `ZeroDivisionError` on a zero divisor. */
  function GroundCoefficient(np: Numpy, vi: real, vt: real, t: real): (r: Option<real>)
    ensures r.Some? <==> t != 0.0 && vi != 0.0
  {
    if t == 0.0 || vi == 0.0 then None
    else Some((-Mass / t) * np.log(vt / vi))
  }

  /** The ground coefficient is the `k` for which the speed `vi`, decaying
      as `vi * e ** (-k * t / m)`, has become `vt` after `t` seconds,
      wherever `np.exp` undoes `np.log` at `vt / vi`. */
  lemma GroundDecay(np: Numpy, vi: real, vt: real, t: real)
    requires t != 0.0 && vi != 0.0
    requires np.exp(np.log(vt / vi)) == vt / vi
    ensures vi * np.exp(-GroundCoefficient(np, vi, vt, t).value * t / Mass) == vt
  {
    var l := np.log(vt / vi);
    assert GroundCoefficient(np, vi, vt, t).value * t == -Mass * l;
    assert -GroundCoefficient(np, vi, vt, t).value * t / Mass == l;
  }

  /** The outcome of `find_k`: the pair `(k, k_pente)`, the
      `ZeroDivisionError` of the ground formula, or a search that ran
      out of trials. */
  datatype Outcome = Coefficients(ground: real, ramp: real) | ZeroDivision | Exhausted

  /** What `find_k` returns: nothing when the search found no crossing,
      otherwise the ground coefficient, or its error, and the coefficient
      of the crossing trial. */
  function Result(crossing: Option<nat>, ground: Option<real>, step: real): Outcome {
    match crossing
    case None => Exhausted
    case Some(j) =>
      match ground
      case None => ZeroDivision
      case Some(k) => Coefficients(k, Multiple(step, j))
  }

  /** `find_k(vi, vt, t, step)`, for the simulation `exit`. The source
      loop has no bound: it stops at the first trial whose exit speed is
      not above `vi`, and runs on forever only when no trial gets there
      (for instance when `step <= 0`). Exit speeds here are reals, and the
      search gives up after `fuel` increments. The ramp
      coefficient found is the first trial multiple of `step` whose exit
      speed is at most `vi`, 0 when the frictionless ramp already is that
      slow, and the ground coefficient does not depend on the search. */
  method FindK(exit: real -> real, np: Numpy, vi: real, vt: real, t: real, step: real, fuel: nat)
    returns (r: Outcome)
    ensures r == Result(FirstCrossing(exit, vi, step, 0, fuel), GroundCoefficient(np, vi, vt, t), step)
    ensures r.Coefficients? ==> Trial(exit, step, 0) > vi || r.ramp == 0.0
  {
    var kPente := 0.0;
    var j: nat := 0;
    while exit(kPente) > vi
      invariant j <= fuel && kPente == Multiple(step, j)
      invariant FirstCrossing(exit, vi, step, 0, fuel) == FirstCrossing(exit, vi, step, j, fuel - j)
      decreases fuel - j
    {
      assert Trial(exit, step, j) > vi;
      if j == fuel {
        return Exhausted;
      }
      kPente := kPente + step;
      j := j + 1;
    }
    assert FirstCrossing(exit, vi, step, 0, fuel) == Some(j) by {
      assert Trial(exit, step, j) <= vi;
    }
    if t == 0.0 || vi == 0.0 {
      return ZeroDivision;
    }
    var k := (-Mass / t) * np.log(vt / vi);
    r := Coefficients(k, kPente);
  }

  /** `find_k` with the ramp simulation of the same file. */
  method FindKOnRamp(np: Numpy, n: nat, vi: real, vt: real, t: real, step: real, fuel: nat)
    returns (r: Outcome)
    requires n >= 2
    ensures r == Result(FirstCrossing(Simulation(np, n), vi, step, 0, fuel), GroundCoefficient(np, vi, vt, t), step)
  {
    r := FindK(Simulation(np, n), np, vi, vt, t, step, fuel);
  }

  /** A larger budget only lets the search find a crossing it could not
      reach before: one it found stays the one it finds. */
  lemma {:induction false} MoreFuel(exit: real -> real, vi: real, step: real, j: nat, fuel: nat, more: nat)
    requires fuel <= more
    requires FirstCrossing(exit, vi, step, j, fuel).Some?
    ensures FirstCrossing(exit, vi, step, j, more) == FirstCrossing(exit, vi, step, j, fuel)
    decreases fuel
  {
    if Trial(exit, step, j) > vi {
      MoreFuel(exit, vi, step, j + 1, fuel - 1, more - 1);
    }
  }
}
