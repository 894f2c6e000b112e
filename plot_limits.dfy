/** The y-axis limits `createPlot` sets in PhysicsSimulation.py and in
    DataComparison.py: the range of all plotted values, made symmetric
    about 0 on request, and widened on both sides by 5% of its span. */
module PlotLimits {
  import opened Wrappers

  function Abs(x: real): (r: real)
    ensures r >= 0.0 && (r == x || r == -x)
  {
    if x < 0.0 then -x else x
  }

  /** `np.amax` of a non-empty array. */
  function Max(xs: seq<real>): (m: real)
    requires |xs| > 0
    ensures exists i :: 0 <= i < |xs| && xs[i] == m
    ensures forall i :: 0 <= i < |xs| ==> xs[i] <= m
  {
    if |xs| == 1 then xs[0]
    else
      var rest := Max(xs[1..]);
      assert forall i :: 1 <= i < |xs| ==> xs[i] == xs[1..][i - 1];
      if xs[0] > rest then xs[0] else rest
  }

  /** `np.amin` of a non-empty array. */
  function Min(xs: seq<real>): (m: real)
    requires |xs| > 0
    ensures exists i :: 0 <= i < |xs| && xs[i] == m
    ensures forall i :: 0 <= i < |xs| ==> m <= xs[i]
  {
    if |xs| == 1 then xs[0]
    else
      var rest := Min(xs[1..]);
      assert forall i :: 1 <= i < |xs| ==> xs[i] == xs[1..][i - 1];
      if xs[0] < rest then xs[0] else rest
  }

  /** `np.amax`/`np.amin` raise ValueError on an empty array, and the
      outer call raises on an empty list of arrays. */
  predicate Plottable(series: seq<seq<real>>) {
    |series| > 0 && forall i :: 0 <= i < |series| ==> |series[i]| > 0
  }

  /** The per-array maxima and minima the list comprehensions build. */
  function Maxima(series: seq<seq<real>>): (r: seq<real>)
    requires Plottable(series)
    ensures |r| == |series|
    ensures forall i :: 0 <= i < |series| ==> r[i] == Max(series[i])
  {
    seq(|series|, i requires 0 <= i < |series| => Max(series[i]))
  }

  function Minima(series: seq<seq<real>>): (r: seq<real>)
    requires Plottable(series)
    ensures |r| == |series|
    ensures forall i :: 0 <= i < |series| ==> r[i] == Min(series[i])
  {
    seq(|series|, i requires 0 <= i < |series| => Min(series[i]))
  }

  /** Every plotted value lies between `lo` and `hi`. */
  predicate Within(series: seq<seq<real>>, lo: real, hi: real) {
    forall i, j :: 0 <= i < |series| && 0 <= j < |series[i]| ==> lo <= series[i][j] <= hi
  }

  /** `v` is one of the plotted values. */
  predicate Plotted(series: seq<seq<real>>, v: real) {
    exists i, j :: 0 <= i < |series| && 0 <= j < |series[i]| && series[i][j] == v
  }

  datatype Limits = Limits(low: real, high: real)

  /** The overall maximum and minimum are plotted values that bound all
      the others. */
  lemma {:induction false} Extremes(series: seq<seq<real>>)
    requires Plottable(series)
    ensures Plotted(series, Max(Maxima(series))) && Plotted(series, Min(Minima(series)))
    ensures Within(series, Min(Minima(series)), Max(Maxima(series)))
  {
    var hi := Max(Maxima(series));
    var lo := Min(Minima(series));
    var a :| 0 <= a < |series| && Maxima(series)[a] == hi;
    var b :| 0 <= b < |series| && Minima(series)[b] == lo;
    var j :| 0 <= j < |series[a]| && series[a][j] == Max(series[a]);
    var k :| 0 <= k < |series[b]| && series[b][k] == Min(series[b]);
    assert series[a][j] == hi && series[b][k] == lo;
    forall i, l | 0 <= i < |series| && 0 <= l < |series[i]|
      ensures lo <= series[i][l] <= hi
    {
      assert Maxima(series)[i] <= hi && lo <= Minima(series)[i];
    }
  }

  /** `createPlot`'s limits: `None` where `np.amax`/`np.amin` raise. */
  function YLimits(series: seq<seq<real>>, symmetric: bool): (r: Option<Limits>)
    ensures r.Some? <==> Plottable(series)
  {
    if !Plottable(series) then None
    else
      var top := Max(Maxima(series));
      var bottom := Min(Minima(series));
      var absMax := if Abs(top) > Abs(bottom) then Abs(top) else Abs(bottom);
      var hi := if symmetric then absMax else top;
      var lo := if symmetric then -absMax else bottom;
      var margin := Abs(hi - lo) * 0.05;
      Some(Limits(lo - margin, hi + margin))
  }

  /** Without symmetry the limits are the smallest and largest plotted
      values, each moved out by a twentieth of the distance between them. */
  lemma AsymmetricLimits(series: seq<seq<real>>)
    requires Plottable(series)
    ensures var r := YLimits(series, false).value;
      Within(series, r.low, r.high) &&
      exists lo, hi :: Plotted(series, lo) && Plotted(series, hi) && Within(series, lo, hi) &&
        r.low == lo - (hi - lo) / 20.0 && r.high == hi + (hi - lo) / 20.0
  {
    Extremes(series);
    var lo, hi := Min(Minima(series)), Max(Maxima(series));
    assert lo <= series[0][0] <= hi;
  }

  /** With symmetry the limits are `-1.1 * M` and `1.1 * M`, where `M` is
      the largest magnitude of a plotted value. */
  lemma SymmetricLimits(series: seq<seq<real>>)
    requires Plottable(series)
    ensures var r := YLimits(series, true).value;
      Within(series, r.low, r.high) && r.low == -r.high &&
      exists v :: Plotted(series, v) && r.high == 1.1 * Abs(v) &&
        forall i, j :: 0 <= i < |series| && 0 <= j < |series[i]| ==> Abs(series[i][j]) <= Abs(v)
  {
    Extremes(series);
    var top, bottom := Max(Maxima(series)), Min(Minima(series));
    var r := YLimits(series, true).value;
    var v := if Abs(top) > Abs(bottom) then top else bottom;
    assert Plotted(series, v);
    forall i, j | 0 <= i < |series| && 0 <= j < |series[i]|
      ensures Abs(series[i][j]) <= Abs(v) && r.low <= series[i][j] <= r.high
    {
      assert bottom <= series[i][j] <= top;
    }
  }
}
