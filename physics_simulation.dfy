/** `simulation()` of PhysicsSimulation.py: the ramp (module `Ramp`), then
    the vehicle rolling on flat ground under a drag force `-k v`, integrated
    with Euler steps of `GroundStep` seconds; the two runs joined into one
    time line, the energies along it, and the experimental samples kept up to
    the end time. */
module PhysicsSimulation {
  import opened Wrappers
  import opened Ramp

  /** `step` and `stepPente`. */
  const GroundStep: real := 0.001
  const SlopeStep: real := 0.001

  /** `settings`: the drag coefficient on the ground `k`, the mass `m`, the
      ramp's height `hp` and length `lp`, the drag coefficient on the ramp
      `kp`, gravity `g` and the end time `Fin`. */
  datatype Settings = Settings(k: real, m: real, hp: real, lp: real, kp: real, g: real, fin: real)

  /** Acceleration `f_frott / m` for the drag force `-k v`. */
  function Drag(k: real, m: real, v: real): (a: real)
    requires m != 0.0
  {
    (-k * v) / m
  }

  /** Speed after `i` Euler steps on the ground, starting at `v0`. */
  function GroundSpeed(v0: real, k: real, m: real, i: nat): real
    requires m != 0.0
  {
    if i == 0 then v0
    else
      var v := GroundSpeed(v0, k, m, i - 1);
      v + Drag(k, m, v) * GroundStep
  }

  /** Position after `i` Euler steps; the ground starts at `x = 0`. */
  function GroundPosition(v0: real, k: real, m: real, i: nat): real
    requires m != 0.0
  {
    if i == 0 then 0.0
    else GroundPosition(v0, k, m, i - 1) + GroundSpeed(v0, k, m, i - 1) * GroundStep
  }

  /** The arrays `x`, `v` and `a` the ground loop fills over `n` samples.
      `a` keeps its `zeros_like` value at the last sample, which the loop
      never reaches. */
  function GroundPositions(v0: real, k: real, m: real, n: nat): (r: seq<real>)
    requires m != 0.0
    ensures |r| == n && forall i {:trigger r[i]} :: 0 <= i < n ==> r[i] == GroundPosition(v0, k, m, i)
  {
    seq(n, i requires 0 <= i < n => GroundPosition(v0, k, m, i))
  }

  function GroundSpeeds(v0: real, k: real, m: real, n: nat): (r: seq<real>)
    requires m != 0.0
    ensures |r| == n && forall i {:trigger r[i]} :: 0 <= i < n ==> r[i] == GroundSpeed(v0, k, m, i)
  {
    seq(n, i requires 0 <= i < n => GroundSpeed(v0, k, m, i))
  }

  function GroundAccels(v0: real, k: real, m: real, n: nat): (r: seq<real>)
    requires m != 0.0
    ensures |r| == n
    ensures forall i {:trigger r[i]} :: 0 <= i < n ==> r[i] == if i < n - 1 then Drag(k, m, GroundSpeed(v0, k, m, i)) else 0.0
  {
    seq(n, i requires 0 <= i < n => if i < n - 1 then Drag(k, m, GroundSpeed(v0, k, m, i)) else 0.0)
  }

  /** The ground loop's arrays from `x = 0` at the exit speed `v0`: each
      acceleration is the drag force over the mass, each next speed and
      position one Euler step on, and the last acceleration is left at 0. */
  predicate EulerLaws(x: seq<real>, v: seq<real>, a: seq<real>, v0: real, k: real, m: real)
    requires m != 0.0
  {
    |x| == |v| == |a| >= 1 && x[0] == 0.0 && v[0] == v0 && a[|a| - 1] == 0.0 &&
    forall j {:trigger a[j]} :: 0 <= j < |a| - 1 ==>
      a[j] == Drag(k, m, v[j]) && v[j + 1] == v[j] + a[j] * GroundStep && x[j + 1] == x[j] + v[j] * GroundStep
  }

  /** The arrays the ground loop fills are the only ones that obey its
      laws. */
  lemma EulerLawsExactly(x: seq<real>, v: seq<real>, a: seq<real>, v0: real, k: real, m: real)
    requires m != 0.0 && |x| >= 1
    ensures EulerLaws(x, v, a, v0, k, m) <==>
      x == GroundPositions(v0, k, m, |x|) && v == GroundSpeeds(v0, k, m, |x|) && a == GroundAccels(v0, k, m, |x|)
  {
    var n := |x|;
    if EulerLaws(x, v, a, v0, k, m) {
      EulerLawsSolution(x, v, a, v0, k, m, n - 1);
      assert x == GroundPositions(v0, k, m, n) && v == GroundSpeeds(v0, k, m, n);
    }
    if x == GroundPositions(v0, k, m, n) && v == GroundSpeeds(v0, k, m, n) && a == GroundAccels(v0, k, m, n) {
      forall j | 0 <= j < n - 1
        ensures a[j] == Drag(k, m, v[j]) && v[j + 1] == v[j] + a[j] * GroundStep && x[j + 1] == x[j] + v[j] * GroundStep
      {
        var vj, pj := GroundSpeed(v0, k, m, j), GroundPosition(v0, k, m, j);
        assert v[j] == vj && x[j] == pj && a[j] == Drag(k, m, vj);
        assert v[j + 1] == GroundSpeed(v0, k, m, j + 1) == vj + Drag(k, m, vj) * GroundStep;
        assert x[j + 1] == GroundPosition(v0, k, m, j + 1) == pj + vj * GroundStep;
      }
    }
  }

  lemma {:induction false} EulerLawsSolution(x: seq<real>, v: seq<real>, a: seq<real>, v0: real, k: real, m: real, i: nat)
    requires m != 0.0 && EulerLaws(x, v, a, v0, k, m) && i < |x|
    ensures forall j {:trigger x[j]} :: 0 <= j <= i ==> x[j] == GroundPosition(v0, k, m, j)
    ensures forall j {:trigger v[j]} :: 0 <= j <= i ==> v[j] == GroundSpeed(v0, k, m, j)
  {
    if i > 0 {
      EulerLawsSolution(x, v, a, v0, k, m, i - 1);
      assert a[i - 1] == Drag(k, m, v[i - 1]);
    }
  }

  /** The accelerations the ground loop has written after `n` passes. */
  function DragsUpTo(v0: real, k: real, m: real, n: nat): (r: seq<real>)
    requires m != 0.0
    ensures |r| == n && forall i {:trigger r[i]} :: 0 <= i < n ==> r[i] == Drag(k, m, GroundSpeed(v0, k, m, i))
  {
    seq(n, i requires 0 <= i < n => Drag(k, m, GroundSpeed(v0, k, m, i)))
  }

  /** One more pass of the ground loop appends one entry to each array. */
  lemma GroundColumnsNext(v0: real, k: real, m: real, i: nat)
    requires m != 0.0
    ensures GroundPositions(v0, k, m, i + 2) ==
      GroundPositions(v0, k, m, i + 1) + [GroundPositions(v0, k, m, i + 1)[i] + GroundSpeeds(v0, k, m, i + 1)[i] * GroundStep]
    ensures GroundSpeeds(v0, k, m, i + 2) ==
      GroundSpeeds(v0, k, m, i + 1) + [GroundSpeeds(v0, k, m, i + 1)[i] + Drag(k, m, GroundSpeeds(v0, k, m, i + 1)[i]) * GroundStep]
    ensures DragsUpTo(v0, k, m, i + 1) == DragsUpTo(v0, k, m, i) + [Drag(k, m, GroundSpeeds(v0, k, m, i + 1)[i])]
  {
  }

  /** The ground loop. Each array is written once per index in increasing
      order (the last acceleration keeps its initial 0), so it is built
      here by appending one sample per pass. */
  method Ground(v0: real, k: real, m: real, n: nat) returns (x: seq<real>, v: seq<real>, a: seq<real>)
    requires m != 0.0 && n >= 1
    ensures x == GroundPositions(v0, k, m, n)
    ensures v == GroundSpeeds(v0, k, m, n)
    ensures a == GroundAccels(v0, k, m, n)
  {
    x, v, a := [0.0], [v0], [];
    for i := 0 to n - 1
      invariant x == GroundPositions(v0, k, m, i + 1)
      invariant v == GroundSpeeds(v0, k, m, i + 1)
      invariant a == DragsUpTo(v0, k, m, i)
    {
      GroundColumnsNext(v0, k, m, i);
      a := a + [Drag(k, m, v[i])];
      v := v + [v[i] + a[i] * GroundStep];
      x := x + [x[i] + v[i] * GroundStep];
    }
    assert GroundAccels(v0, k, m, n) == a + [0.0];
    a := a + [0.0];
  }

  /** Without drag the vehicle keeps its speed and covers `v0` metres per
      second. */
  lemma {:induction false} NoDrag(v0: real, m: real, i: nat)
    requires m != 0.0
    ensures GroundSpeed(v0, 0.0, m, i) == v0
    ensures GroundPosition(v0, 0.0, m, i) == (i as real) * GroundStep * v0
  {
    if i > 0 {
      NoDrag(v0, m, i - 1);
    }
  }

  /** The factor `1 - k step / m` by which one Euler step scales the
      speed. */
  function Decay(k: real, m: real): real
    requires m != 0.0
  {
    1.0 - k * GroundStep / m
  }

  lemma DragStep(k: real, m: real, v: real)
    requires m != 0.0
    ensures v + Drag(k, m, v) * GroundStep == v * Decay(k, m)
  {
    var a, q := Drag(k, m, v), Decay(k, m);
    assert a * m == -k * v;
    assert q * m == m - k * GroundStep;
    calc {
      (v + a * GroundStep) * m;
      v * m + (a * m) * GroundStep;
      v * m - k * v * GroundStep;
      v * (q * m);
      (v * q) * m;
    }
  }

  /** One Euler step on the ground scales the speed by `Decay(k, m)`. */
  lemma SpeedStep(v0: real, k: real, m: real, i: nat)
    requires m != 0.0
    ensures GroundSpeed(v0, k, m, i + 1) == GroundSpeed(v0, k, m, i) * Decay(k, m)
  {
    DragStep(k, m, GroundSpeed(v0, k, m, i));
  }

  /** `v0 * q^i`. */
  function Geometric(v0: real, q: real, i: nat): real {
    if i == 0 then v0 else Geometric(v0, q, i - 1) * q
  }

  /** The ground speeds form the geometric sequence `v0 * (1 - k step / m)^i`. */
  lemma {:induction false} GeometricDecay(v0: real, k: real, m: real, i: nat)
    requires m != 0.0
    ensures GroundSpeed(v0, k, m, i) == Geometric(v0, Decay(k, m), i)
  {
    if i > 0 {
      GeometricDecay(v0, k, m, i - 1);
      SpeedStep(v0, k, m, i - 1);
    }
  }

  lemma Shrink(v: real, q: real)
    requires v >= 0.0 && 0.0 <= q <= 1.0
    ensures 0.0 <= v * q <= v
  {
  }

  /** With `0 <= k step <= m`, the speed factor of one step lies in [0, 1]. */
  lemma DecayBounds(k: real, m: real)
    requires k >= 0.0 && m > 0.0 && k * GroundStep <= m
    ensures 0.0 <= Decay(k, m) <= 1.0
  {
    var d := k * GroundStep / m;
    assert d * m == k * GroundStep;
  }

  /** Moving forward with a non-negative drag coefficient and a step small
      enough (`k step <= m`), the vehicle slows down but never turns back,
      and its position never decreases. */
  lemma {:induction false} Slows(v0: real, k: real, m: real, i: nat)
    requires v0 >= 0.0 && k >= 0.0 && m > 0.0 && k * GroundStep <= m
    ensures 0.0 <= GroundSpeed(v0, k, m, i + 1) <= GroundSpeed(v0, k, m, i)
    ensures GroundPosition(v0, k, m, i) <= GroundPosition(v0, k, m, i + 1)
  {
    var v := GroundSpeed(v0, k, m, i);
    if i > 0 {
      Slows(v0, k, m, i - 1);
    }
    assert v >= 0.0;
    var q := Decay(k, m);
    DecayBounds(k, m);
    SpeedStep(v0, k, m, i);
    assert GroundSpeed(v0, k, m, i + 1) == v * q;
    Shrink(v, q);
    assert GroundPosition(v0, k, m, i + 1) == GroundPosition(v0, k, m, i) + v * GroundStep;
  }

  /** `-tPente[-1] + tPente`: the ramp's times moved so that it ends at
      time 0, with the intervals between samples unchanged. */
  function Shifted(ts: seq<real>): (r: seq<real>)
    requires |ts| >= 1
    ensures |r| == |ts| && r[|ts| - 1] == 0.0
    ensures forall i, j :: 0 <= i < |ts| && 0 <= j < |ts| ==> r[i] - r[j] == ts[i] - ts[j]
  {
    seq(|ts|, i requires 0 <= i < |ts| => -ts[|ts| - 1] + ts[i])
  }

  /** `np.arange(0, end, step)` with `n` samples. */
  function GroundTimes(n: nat): (r: seq<real>)
    ensures |r| == n && (n > 0 ==> r[0] == 0.0)
    ensures forall i :: 0 < i < n ==> r[i] - r[i - 1] == GroundStep
  {
    seq(n, i requires 0 <= i < n => (i as real) * GroundStep)
  }

  /** Length of the velocity vector `(vx, vy)`. */
  function Magnitude(np: Numpy, vx: real, vy: real): real {
    np.sqrt(vx * vx + vy * vy)
  }

  /** `np.sqrt(vxPente**2 + vyPente**2)`. */
  function Magnitudes(np: Numpy, vx: seq<real>, vy: seq<real>): (r: seq<real>)
    requires |vx| == |vy|
    ensures |r| == |vx|
    ensures forall i :: 0 <= i < |vx| ==> r[i] == Magnitude(np, vx[i], vy[i])
  {
    seq(|vx|, i requires 0 <= i < |vx| => Magnitude(np, vx[i], vy[i]))
  }

  /** `e_pot = m * g * y`. */
  function PotentialEnergy(m: real, g: real, ys: seq<real>): (r: seq<real>)
    ensures |r| == |ys|
    ensures forall i :: 0 <= i < |ys| ==> r[i] == m * g * ys[i]
  {
    seq(|ys|, i requires 0 <= i < |ys| => m * g * ys[i])
  }

  /** `e_cin = m * v**2 / 2`. */
  function KineticEnergy(m: real, vs: seq<real>): (r: seq<real>)
    ensures |r| == |vs|
    ensures forall i :: 0 <= i < |vs| ==> r[i] == m * (vs[i] * vs[i]) / 2.0
  {
    seq(|vs|, i requires 0 <= i < |vs| => m * (vs[i] * vs[i]) / 2.0)
  }

  /** Elementwise sum of two arrays of the same length. */
  function Sum(xs: seq<real>, ys: seq<real>): (r: seq<real>)
    requires |xs| == |ys|
    ensures |r| == |xs|
    ensures forall i :: 0 <= i < |xs| ==> r[i] == xs[i] + ys[i]
  {
    seq(|xs|, i requires 0 <= i < |xs| => xs[i] + ys[i])
  }

  /** The list comprehension `[xs[i] for i in range(len(ts)) if ts[i] <= fin]`,
      from index `lo` on. */
  function KeepFrom(ts: seq<real>, xs: seq<real>, fin: real, lo: nat): seq<real>
    requires |xs| == |ts| && lo <= |ts|
    decreases |ts| - lo
  {
    if lo == |ts| then []
    else (if ts[lo] <= fin then [xs[lo]] else []) + KeepFrom(ts, xs, fin, lo + 1)
  }

  function Keep(ts: seq<real>, xs: seq<real>, fin: real): seq<real>
    requires |xs| == |ts|
  {
    KeepFrom(ts, xs, fin, 0)
  }

  /** The indices from `lo` on, in increasing order, of the samples taken
      no later than `fin`. */
  function KeptIndices(ts: seq<real>, fin: real, lo: nat): (idx: seq<nat>)
    requires lo <= |ts|
    ensures forall j :: 0 <= j < |idx| ==> lo <= idx[j] < |ts| && ts[idx[j]] <= fin
    ensures forall j, l :: 0 <= j < l < |idx| ==> idx[j] < idx[l]
    ensures forall i :: lo <= i < |ts| && ts[i] <= fin ==> i in idx
    decreases |ts| - lo
  {
    if lo == |ts| then []
    else (if ts[lo] <= fin then [lo] else []) + KeptIndices(ts, fin, lo + 1)
  }

  /** Every column the comprehension filters picks the samples at the same
      indices: the kept samples of `xs` are `xs` at `KeptIndices(ts, fin, lo)`,
      whatever `xs` holds, so the five experimental lists stay aligned. */
  lemma {:induction false} KeepPicksKeptIndices(ts: seq<real>, xs: seq<real>, fin: real, lo: nat)
    requires |xs| == |ts| && lo <= |ts|
    ensures |KeepFrom(ts, xs, fin, lo)| == |KeptIndices(ts, fin, lo)|
    ensures forall j :: 0 <= j < |KeptIndices(ts, fin, lo)| ==>
      KeepFrom(ts, xs, fin, lo)[j] == xs[KeptIndices(ts, fin, lo)[j]]
    decreases |ts| - lo
  {
    if lo < |ts| {
      KeepPicksKeptIndices(ts, xs, fin, lo + 1);
      var rest, restIdx := KeepFrom(ts, xs, fin, lo + 1), KeptIndices(ts, fin, lo + 1);
      if ts[lo] <= fin {
        assert KeepFrom(ts, xs, fin, lo) == [xs[lo]] + rest;
        assert KeptIndices(ts, fin, lo) == [lo] + restIdx;
      } else {
        assert KeepFrom(ts, xs, fin, lo) == rest;
        assert KeptIndices(ts, fin, lo) == restIdx;
      }
    }
  }

  /** The experimental samples (`tExp`, `xExp`, `yExp`, `vExp`, `aExp`),
      the rows of one table. */
  datatype Samples = Samples(t: seq<real>, x: seq<real>, y: seq<real>, v: seq<real>, a: seq<real>)

  predicate Table(d: Samples) {
    |d.x| == |d.t| && |d.y| == |d.t| && |d.v| == |d.t| && |d.a| == |d.t|
  }

  /** `tExpTmp` … `aExpTmp`. */
  function KeepUntil(d: Samples, fin: real): (r: Samples)
    requires Table(d)
  {
    Samples(Keep(d.t, d.t, fin), Keep(d.t, d.x, fin), Keep(d.t, d.y, fin), Keep(d.t, d.v, fin), Keep(d.t, d.a, fin))
  }

  /** The kept rows are exactly the rows taken no later than `fin`, in
      their order, with all five columns of each row kept together. */
  lemma KeepUntilRows(d: Samples, fin: real)
    requires Table(d)
    ensures var r := KeepUntil(d, fin); var idx := KeptIndices(d.t, fin, 0);
      Table(r) && |r.t| == |idx| &&
      forall j :: 0 <= j < |idx| ==>
        r.t[j] == d.t[idx[j]] <= fin && r.x[j] == d.x[idx[j]] && r.y[j] == d.y[idx[j]] &&
        r.v[j] == d.v[idx[j]] && r.a[j] == d.a[idx[j]]
  {
    KeepPicksKeptIndices(d.t, d.t, fin, 0);
    KeepPicksKeptIndices(d.t, d.x, fin, 0);
    KeepPicksKeptIndices(d.t, d.y, fin, 0);
    KeepPicksKeptIndices(d.t, d.v, fin, 0);
    KeepPicksKeptIndices(d.t, d.a, fin, 0);
  }

  /** The simulated series over the joined time line, the energies, and the
      kept experimental samples. */
  datatype Run = Run(t: seq<real>, x: seq<real>, y: seq<real>, v: seq<real>, a: seq<real>,
                     ePot: seq<real>, eCin: seq<real>, eTot: seq<real>, exp: Samples)

  /** The ramp `simulation()` builds from the settings, with `rampCount`
      samples from `np.arange(-w, 0, stepPente)`. */
  function SlopeOf(np: Numpy, s: Settings, rampCount: nat): (sl: Slope)
    ensures Count(sl) == rampCount && sl.m == s.m
    ensures Runs(sl) <==> rampCount >= 2 && s.m != 0.0
  {
    RampOf(np, s.kp, s.m, s.hp, s.lp, s.g, SlopeStep, rampCount)
  }

  /** The ramp's series as `simulation()` joins them: time shifted to end
      at 0, the profile, the speed along the slope and the acceleration. */
  function RampSeries(np: Numpy, sl: Slope): (r: Samples)
    requires Runs(sl)
    ensures Table(r) && |r.t| == Count(sl) && r.t[Count(sl) - 1] == 0.0
  {
    var cs := States(np, sl, Count(sl));
    Samples(Shifted(Times(cs)), sl.xs, sl.ys, Magnitudes(np, Vxs(np, cs), Vys(np, cs)), Accels(cs))
  }

  /** The ground's series: time from 0, the ground loop's arrays, and height
      0 throughout. */
  function GroundSeries(v0: real, k: real, m: real, n: nat): (r: Samples)
    requires m != 0.0
    ensures Table(r) && |r.t| == n
    ensures n >= 1 ==> r.t[0] == 0.0 && r.x[0] == 0.0 && r.v[0] == v0
    ensures forall i :: 0 <= i < n ==> r.y[i] == 0.0
  {
    Samples(GroundTimes(n), GroundPositions(v0, k, m, n), seq(n, _ => 0.0), GroundSpeeds(v0, k, m, n), GroundAccels(v0, k, m, n))
  }

  /** `np.concatenate` of the ramp's and the ground's series, and the
      energies `e_pot`, `e_cin` and `e_tot` along them. */
  function Concatenate(ramp: Samples, ground: Samples, m: real, g: real, exp: Samples): Run
    requires Table(ramp) && Table(ground)
  {
    var y := ramp.y + ground.y;
    var v := ramp.v + ground.v;
    var ePot := PotentialEnergy(m, g, y);
    var eCin := KineticEnergy(m, v);
    Run(ramp.t + ground.t, ramp.x + ground.x, y, v, ramp.a + ground.a, ePot, eCin, Sum(ePot, eCin), exp)
  }

  /** The joined series have one entry per sample of the ramp and of the
      ground, the ramp's first and the ground's after them; at every sample
      the potential energy is `m g y`, the kinetic energy `m v^2 / 2` and
      the total their sum. */
  lemma ConcatenateLayout(ramp: Samples, ground: Samples, m: real, g: real, exp: Samples)
    requires Table(ramp) && Table(ground)
    ensures var run := Concatenate(ramp, ground, m, g, exp);
      var r, n := |ramp.t|, |ramp.t| + |ground.t|;
      |run.t| == n && |run.x| == n && |run.y| == n && |run.v| == n && |run.a| == n &&
      |run.ePot| == n && |run.eCin| == n && |run.eTot| == n && run.exp == exp &&
      (forall i :: 0 <= i < r ==>
        run.t[i] == ramp.t[i] && run.x[i] == ramp.x[i] && run.y[i] == ramp.y[i] &&
        run.v[i] == ramp.v[i] && run.a[i] == ramp.a[i]) &&
      (forall i :: 0 <= i < |ground.t| ==>
        run.t[r + i] == ground.t[i] && run.x[r + i] == ground.x[i] && run.y[r + i] == ground.y[i] &&
        run.v[r + i] == ground.v[i] && run.a[r + i] == ground.a[i]) &&
      forall i :: 0 <= i < n ==>
        run.ePot[i] == m * g * run.y[i] && run.eCin[i] == m * (run.v[i] * run.v[i]) / 2.0 &&
        run.eTot[i] == run.ePot[i] + run.eCin[i]
  {
  }

  /** What `simulation()` leaves in its globals when it returns. */
  function Joined(np: Numpy, s: Settings, rampCount: nat, groundCount: nat, data: Samples): Run
    requires rampCount >= 2 && s.m != 0.0 && groundCount >= 1 && Table(data)
  {
    var sl := SlopeOf(np, s, rampCount);
    Concatenate(RampSeries(np, sl), GroundSeries(ExitSpeed(np, sl), s.k, s.m, groundCount), s.m, s.g, KeepUntil(data, s.fin))
  }

  /** `simulation()`. `rampCount` and `groundCount` are the lengths of the
      two `np.arange` grids. `None` where the source raises: a ramp of fewer
      than two samples (IndexError), `m == 0` (ZeroDivisionError in the
      first ramp step), or an empty ground grid (IndexError at `x[0]`). */
  method Simulation(np: Numpy, s: Settings, rampCount: nat, groundCount: nat, data: Samples)
    returns (r: Option<Run>)
    requires Table(data)
    ensures r.Some? <==> rampCount >= 2 && s.m != 0.0 && groundCount >= 1
    ensures r.Some? ==> r.value == Joined(np, s, rampCount, groundCount, data)
  {
    var sl := SlopeOf(np, s, rampCount);
    if !Runs(sl) || groundCount == 0 {
      return None;
    }
    var aPente, tPente, vxPente, vyPente := Simulate(np, sl);
    var x, v, a := Ground(vxPente[rampCount - 1], s.k, s.m, groundCount);
    var ramp := Samples(Shifted(tPente), sl.xs, sl.ys, Magnitudes(np, vxPente, vyPente), aPente);
    var ground := Samples(GroundTimes(groundCount), x, seq(groundCount, _ => 0.0), v, a);
    r := Some(Concatenate(ramp, ground, s.m, s.g, KeepUntil(data, s.fin)));
  }

  /** Where a ramp ending at time 0 meets a ground at height 0 starting at
      time 0, the joined time line reads 0 twice, and along the ground all
      the energy is kinetic. */
  lemma ConcatenateJunction(ramp: Samples, ground: Samples, m: real, g: real, exp: Samples)
    requires Table(ramp) && Table(ground) && |ramp.t| >= 1 && |ground.t| >= 1
    requires ramp.t[|ramp.t| - 1] == 0.0 && ground.t[0] == 0.0
    requires forall i :: 0 <= i < |ground.t| ==> ground.y[i] == 0.0
    ensures var run := Concatenate(ramp, ground, m, g, exp);
      var r := |ramp.t|;
      run.t[r - 1] == 0.0 && run.t[r] == 0.0 && run.v[r] == ground.v[0] &&
      forall i :: r <= i < r + |ground.t| ==> run.ePot[i] == 0.0 && run.eTot[i] == run.eCin[i]
  {
    var run := Concatenate(ramp, ground, m, g, exp);
    var r := |ramp.t|;
    forall i | r <= i < r + |ground.t|
      ensures run.ePot[i] == 0.0 && run.eTot[i] == run.eCin[i]
    {
      assert run.y[i] == ground.y[i - r];
    }
  }

  /** In `simulation()`'s result the time line reads 0 at the last ramp
      sample and at the first ground sample, the ground starts at the
      ramp's exit speed, and on the ground all the energy is kinetic. */
  lemma Junction(np: Numpy, s: Settings, rampCount: nat, groundCount: nat, data: Samples)
    requires rampCount >= 2 && s.m != 0.0 && groundCount >= 1 && Table(data)
    ensures var run := Joined(np, s, rampCount, groundCount, data);
      |run.t| == rampCount + groundCount && run.t[rampCount - 1] == 0.0 && run.t[rampCount] == 0.0 &&
      run.v[rampCount] == ExitSpeed(np, SlopeOf(np, s, rampCount)) &&
      forall i :: rampCount <= i < rampCount + groundCount ==> run.ePot[i] == 0.0 && run.eTot[i] == run.eCin[i]
  {
    var sl := SlopeOf(np, s, rampCount);
    var ramp, ground := RampSeries(np, sl), GroundSeries(ExitSpeed(np, sl), s.k, s.m, groundCount);
    ConcatenateLayout(ramp, ground, s.m, s.g, KeepUntil(data, s.fin));
    ConcatenateJunction(ramp, ground, s.m, s.g, KeepUntil(data, s.fin));
  }
}
