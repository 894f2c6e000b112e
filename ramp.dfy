/** The ramp part of the vehicle simulation, shared by `simulation()` in
    PhysicsSimulation.py and `simulation(kp, m, h, w, g, step)` in
    FrictionCoefficientsFinder.py and kRampe_calculator.py: the curved
    ramp is cut into straight segments and a uniformly accelerated motion
    is solved on each one, carrying the speed and the angle of the next
    segment from one sample to the next. */
module Ramp {
  import opened Wrappers
  import opened Iteration

  /** numpy's elementwise functions, left uninterpreted, and numpy's float
      division, which returns inf or nan instead of raising when the
      divisor is zero. */
  datatype Numpy = Numpy(
    sqrt: real -> real,
    sin: real -> real,
    cos: real -> real,
    arctan: real -> real,
    exp: real -> real,
    log: real -> real,
    div: (real, real) -> real)

  /** The only facts the model uses about the transcendental functions. */
  predicate Sane(np: Numpy) {
    np.sin(0.0) == 0.0 && np.cos(0.0) == 1.0
  }

  /** The ramp profile: `xPente = np.arange(-w, 0, step)` with `n` samples
      (the sample count is a parameter) and `yPente = h * e ** (-3.5 * x / w - 3.5)`. */
  function ProfileX(w: real, step: real, n: nat): (xs: seq<real>)
    ensures |xs| == n
    ensures forall i :: 0 <= i < n ==> xs[i] == -w + (i as real) * step
  {
    seq(n, i => -w + (i as real) * step)
  }

  function ProfileY(np: Numpy, h: real, w: real, xs: seq<real>): (ys: seq<real>)
    ensures |ys| == |xs|
    ensures forall i :: 0 <= i < |xs| ==> ys[i] == h * np.exp(np.div(-3.5 * xs[i], w) - 3.5)
  {
    seq(|xs|, i requires 0 <= i < |xs| => h * np.exp(np.div(-3.5 * xs[i], w) - 3.5))
  }

  /** A ramp: its sample points, the ramp friction coefficient `kp`, the
      mass `m` and the gravity `g`. */
  datatype Slope = Slope(xs: seq<real>, ys: seq<real>, kp: real, m: real, g: real)

  /** The loop reads `yPente[1]` and divides by `m` on its first pass (with
      `vi` still the Python integer 0, so the division is Python's and
      raises on zero); afterwards every division is numpy's. */
  predicate Runs(s: Slope) {
    |s.xs| == |s.ys| >= 2 && s.m != 0.0
  }

  function Count(s: Slope): nat {
    |s.xs|
  }

  /** The angle of the first segment. */
  function FirstAngle(np: Numpy, s: Slope): real
    requires Runs(s)
  {
    np.arctan(np.div(s.ys[0] - s.ys[1], s.xs[1] - s.xs[0]))
  }

  /** The angle of the segment after sample `i`; there is none after the
      last sample, where the angle is set to 0. */
  function NextAngle(np: Numpy, s: Slope, i: nat): real
    requires Runs(s) && 1 <= i < Count(s)
  {
    if i == Count(s) - 1 then 0.0
    else np.arctan(np.div(s.ys[i] - s.ys[i + 1], s.xs[i + 1] - s.xs[i]))
  }

  /** Length of the segment ending at sample `i`. */
  function SegmentLength(np: Numpy, s: Slope, i: nat): real
    requires Runs(s) && 1 <= i < Count(s)
  {
    var dx := s.xs[i] - s.xs[i - 1];
    var dy := s.ys[i] - s.ys[i - 1];
    np.sqrt(dx * dx + dy * dy)
  }

  /** What the loop knows after sample `i`: `vf`, the speed at the end of
      the segment, `angle`, the angle of the next one, and the sample's
      own `aPente[i]` and `tPente[i]`. */
  datatype Carried = Carried(speed: real, angle: real, accel: real, time: real)

  /** Gravity along `angle` less the friction at speed `vi`. */
  function SegmentAccel(s: Slope, np: Numpy, vi: real, angle: real): real
    requires s.m != 0.0
  {
    s.g * np.sin(angle) - (s.kp * vi) / s.m
  }

  /** Speed at the end of a segment of length `dx`, entered at speed `vi`
      with acceleration `a`. */
  function FinalSpeed(np: Numpy, a: real, dx: real, vi: real): real {
    np.sqrt(2.0 * a * dx + vi * vi)
  }

  /** Time to cover that segment. */
  function SegmentTime(np: Numpy, a: real, dx: real, vi: real): real {
    np.div(-vi + np.sqrt(2.0 * a * dx + vi * vi), a)
  }

  /** Sample 0: at rest, `aPente[0] = g`, `tPente[0] = 0`, facing the
      first segment. */
  function Start(np: Numpy, s: Slope): Carried
    requires Runs(s)
  {
    Carried(0.0, FirstAngle(np, s), s.g, 0.0)
  }

  /** Solving the segment that ends at sample `i`, entered in state `prev`. */
  function Step(np: Numpy, s: Slope, i: nat, prev: Carried): Carried
    requires Runs(s) && 1 <= i < Count(s)
  {
    var a := SegmentAccel(s, np, prev.speed, prev.angle);
    var dx := SegmentLength(np, s, i);
    Carried(FinalSpeed(np, a, dx, prev.speed), NextAngle(np, s, i), a,
            prev.time + SegmentTime(np, a, dx, prev.speed))
  }

  /** `Step` as a step function of the loop; it is only applied to the
      samples `1 <= i < Count(s)` of a ramp that runs. */
  function RampStep(np: Numpy, s: Slope): (nat, Carried) -> Carried {
    (i: nat, c: Carried) => if Runs(s) && 1 <= i < Count(s) then Step(np, s, i, c) else c
  }

  /** The states of the first `k` samples. */
  function States(np: Numpy, s: Slope, k: nat): (cs: seq<Carried>)
    requires Runs(s) && 1 <= k <= Count(s)
    ensures |cs| == k
  {
    Iterate(Start(np, s), RampStep(np, s), k)
  }

  /** One more sample is one more step. */
  lemma StatesNext(np: Numpy, s: Slope, k: nat)
    requires Runs(s) && 1 <= k < Count(s)
    ensures States(np, s, k + 1) == States(np, s, k) + [Step(np, s, k, States(np, s, k)[k - 1])]
  {
  }

  /** The components of speed `vf` along the direction `angle`. */
  function HorizontalSpeed(np: Numpy, vf: real, angle: real): real {
    vf * np.cos(angle)
  }

  function VerticalSpeed(np: Numpy, vf: real, angle: real): real {
    -vf * np.sin(angle)
  }

  /** The columns `aPente`, `tPente`, `vxPente` and `vyPente` of a run;
      sample 0 of `vxPente` and `vyPente` keeps the zero of `zeros_like`. */
  function Accels(cs: seq<Carried>): (r: seq<real>)
    ensures |r| == |cs| && forall j :: 0 <= j < |cs| ==> r[j] == cs[j].accel
  {
    seq(|cs|, j requires 0 <= j < |cs| => cs[j].accel)
  }

  function Times(cs: seq<Carried>): (r: seq<real>)
    ensures |r| == |cs| && forall j :: 0 <= j < |cs| ==> r[j] == cs[j].time
  {
    seq(|cs|, j requires 0 <= j < |cs| => cs[j].time)
  }

  function Vxs(np: Numpy, cs: seq<Carried>): (r: seq<real>)
    ensures |r| == |cs|
    ensures forall j :: 0 <= j < |cs| ==> r[j] == if j == 0 then 0.0 else HorizontalSpeed(np, cs[j].speed, cs[j].angle)
  {
    seq(|cs|, j requires 0 <= j < |cs| => if j == 0 then 0.0 else HorizontalSpeed(np, cs[j].speed, cs[j].angle))
  }

  function Vys(np: Numpy, cs: seq<Carried>): (r: seq<real>)
    ensures |r| == |cs|
    ensures forall j :: 0 <= j < |cs| ==> r[j] == if j == 0 then 0.0 else VerticalSpeed(np, cs[j].speed, cs[j].angle)
  {
    seq(|cs|, j requires 0 <= j < |cs| => if j == 0 then 0.0 else VerticalSpeed(np, cs[j].speed, cs[j].angle))
  }

  /** Adding a sample adds one entry at the end of each column. */
  lemma ColumnsAppend(np: Numpy, cs: seq<Carried>, c: Carried)
    requires |cs| >= 1
    ensures Accels(cs + [c]) == Accels(cs) + [c.accel]
    ensures Times(cs + [c]) == Times(cs) + [c.time]
    ensures Vxs(np, cs + [c]) == Vxs(np, cs) + [HorizontalSpeed(np, c.speed, c.angle)]
    ensures Vys(np, cs + [c]) == Vys(np, cs) + [VerticalSpeed(np, c.speed, c.angle)]
  {
  }

  /** `aPente[0] = g` and `tPente[0] = 0`; each later time is the one
      before plus the time on the segment, solved with the sample's own
      acceleration and the speed carried from the previous sample. */
  lemma TimeRecurrence(np: Numpy, s: Slope, i: nat)
    requires Runs(s) && 1 <= i < Count(s)
    ensures Accels(States(np, s, Count(s)))[0] == s.g && Times(States(np, s, Count(s)))[0] == 0.0
    ensures
      var cs := States(np, s, Count(s));
      Times(cs)[i] == Times(cs)[i - 1] + SegmentTime(np, Accels(cs)[i], SegmentLength(np, s, i), cs[i - 1].speed)
  {
    IterateSteps(Start(np, s), RampStep(np, s), Count(s), i);
  }

  /** The speed the vehicle leaves the ramp with, `vxPente[-1]`. */
  function ExitSpeed(np: Numpy, s: Slope): real
    requires Runs(s)
  {
    Vxs(np, States(np, s, Count(s)))[Count(s) - 1]
  }

  /** Since the angle after the last sample is forced to 0, the vehicle
      leaves the ramp horizontally, at the final speed `vf`. */
  lemma ExitIsHorizontal(np: Numpy, s: Slope)
    requires Runs(s) && Sane(np)
    ensures ExitSpeed(np, s) == States(np, s, Count(s))[Count(s) - 1].speed
    ensures Vys(np, States(np, s, Count(s)))[Count(s) - 1] == 0.0
  {
    var n := Count(s);
    assert States(np, s, n)[n - 1].angle == 0.0;
  }

  /** The ramp loop: fills `aPente`, `tPente`, `vxPente` and `vyPente`
      sample by sample while carrying the speed and the angle.  Each array
      is written once per index in increasing order, so it is built here
      by appending one sample per pass. */
  method Simulate(np: Numpy, s: Slope) returns (acc: seq<real>, t: seq<real>, vx: seq<real>, vy: seq<real>)
    requires Runs(s)
    ensures acc == Accels(States(np, s, Count(s))) && t == Times(States(np, s, Count(s)))
    ensures vx == Vxs(np, States(np, s, Count(s))) && vy == Vys(np, States(np, s, Count(s)))
  {
    var n := Count(s);
    acc, t, vx, vy := [s.g], [0.0], [0.0], [0.0];
    var vf := 0.0;
    var angle := FirstAngle(np, s);
    ghost var states := [Start(np, s)];
    for i := 1 to n
      invariant states == States(np, s, i)
      invariant acc == Accels(states) && t == Times(states)
      invariant vx == Vxs(np, states) && vy == Vys(np, states)
      invariant states[i - 1] == Carried(vf, angle, acc[i - 1], t[i - 1])
    {
      var next := Step(np, s, i, Carried(vf, angle, acc[i - 1], t[i - 1]));
      StatesNext(np, s, i);
      ColumnsAppend(np, states, next);
      states := states + [next];
      vf, angle := next.speed, next.angle;
      acc, t := acc + [next.accel], t + [next.time];
      vx, vy := vx + [HorizontalSpeed(np, vf, angle)], vy + [VerticalSpeed(np, vf, angle)];
    }
  }

  /** The ramp `simulation(kp, m, h, w, g, step)` builds, with `n` samples. */
  function RampOf(np: Numpy, kp: real, m: real, h: real, w: real, g: real, step: real, n: nat): (s: Slope)
    ensures Count(s) == n && s.kp == kp && s.m == m && s.g == g
    ensures s.xs == ProfileX(w, step, n)
  {
    var xs := ProfileX(w, step, n);
    Slope(xs, ProfileY(np, h, w, xs), kp, m, g)
  }

  /** `simulation(kp, m, h, w, g, step)` of the friction finder: the exit
      speed of the ramp; with fewer than two samples the first angle
      reads past the end (IndexError), and `m == 0` raises
      ZeroDivisionError on the first pass. */
  method RampExitSpeed(np: Numpy, kp: real, m: real, h: real, w: real, g: real, step: real, n: nat)
    returns (r: Option<real>)
    ensures r.Some? <==> n >= 2 && m != 0.0
    ensures r.Some? ==> r.value == ExitSpeed(np, RampOf(np, kp, m, h, w, g, step, n))
    ensures r.Some? && Sane(np) ==> r.value == States(np, RampOf(np, kp, m, h, w, g, step, n), n)[n - 1].speed
  {
    var s := RampOf(np, kp, m, h, w, g, step, n);
    if !Runs(s) {
      return None;
    }
    var acc, t, vx, vy := Simulate(np, s);
    r := Some(vx[n - 1]);
    if Sane(np) {
      ExitIsHorizontal(np, s);
    }
  }
}
