/** The computational helpers of the function finder: the parameter and
    expression strings of `polynomialBuilder`, the data preparation of
    `curve_fitting` (sorting, default interval, clamping for the
    exponential fit), the fitting gate and the line wrapping of
    `updateFunction`. */
module FunctionFinder {
  import opened Wrappers
  import opened Strings
  import opened Coordinates

  // ----- polynomialBuilder -----

  /** The exponents `i` in `range(degree + 1)` kept by `polynomialBuilder`:
      all of them with `oddTerms`, only the even ones otherwise. */
  function TermIndices(degree: int, oddTerms: bool): (r: seq<nat>)
    ensures forall k: nat :: k in r <==> k <= degree && (oddTerms || k % 2 == 0)
    ensures forall a, b :: 0 <= a < b < |r| ==> r[a] < r[b]
  {
    IndicesFrom(0, degree, oddTerms)
  }

  function IndicesFrom(i: nat, degree: int, oddTerms: bool): (r: seq<nat>)
    ensures forall k: nat :: k in r <==> i <= k <= degree && (oddTerms || k % 2 == 0)
    ensures forall a, b :: 0 <= a < b < |r| ==> r[a] < r[b]
    ensures forall a :: 0 <= a < |r| ==> i <= r[a]
    decreases degree - i
  {
    if i > degree then []
    else if oddTerms || i % 2 == 0 then [i] + IndicesFrom(i + 1, degree, oddTerms)
    else IndicesFrom(i + 1, degree, oddTerms)
  }

  /** There are at most `degree + 1` terms. */
  lemma {:induction false} TermCount(i: nat, degree: int, oddTerms: bool)
    requires i <= degree + 1
    ensures |IndicesFrom(i, degree, oddTerms)| <= degree + 1 - i
    decreases degree - i
  {
    if i <= degree {
      TermCount(i + 1, degree, oddTerms);
    }
  }

  /** `f"c{i}"`. */
  function ParameterName(i: nat): string {
    "c" + NatToString(i)
  }

  /** `f"c{i}*x**{i}"`. */
  function TermText(i: nat): string {
    "c" + NatToString(i) + "*x**" + NatToString(i)
  }

  function ParameterNames(ix: seq<nat>): (r: seq<string>)
    ensures |r| == |ix| && forall k :: 0 <= k < |ix| ==> r[k] == ParameterName(ix[k])
  {
    if |ix| == 0 then [] else [ParameterName(ix[0])] + ParameterNames(ix[1..])
  }

  function TermTexts(ix: seq<nat>): (r: seq<string>)
    ensures |r| == |ix| && forall k :: 0 <= k < |ix| ==> r[k] == TermText(ix[k])
  {
    if |ix| == 0 then [] else [TermText(ix[0])] + TermTexts(ix[1..])
  }

  /** The parameter list `c0,c1,...` of the generated lambda. */
  function Parameters(degree: int, oddTerms: bool): string {
    Join(',', ParameterNames(TermIndices(degree, oddTerms)))
  }

  /** The body `c0*x**0+c1*x**1+...` of the generated lambda. */
  function Expression(degree: int, oddTerms: bool): string {
    Join('+', TermTexts(TermIndices(degree, oddTerms)))
  }

  /** Reads the index back out of `c{i}`. */
  function ParameterIndex(t: string): (r: Option<nat>)
    ensures forall i: nat :: t == ParameterName(i) ==> r == Some(i)
  {
    if |t| >= 1 && t[0] == 'c' then
      assert forall i: nat :: t == ParameterName(i) ==> t[1..] == NatToString(i);
      ParseNatToStringAll();
      ParseNat(t[1..])
    else None
  }

  lemma ParseNatToStringAll()
    ensures forall i: nat :: ParseNat(NatToString(i)) == Some(i)
  {
    forall i: nat ensures ParseNat(NatToString(i)) == Some(i) {
      ParseNatToString(i);
    }
  }

  /** Reads the index back out of `c{i}*x**{i}`; `None` unless both
      occurrences name the same index. */
  function TermIndex(t: string): Option<nat> {
    var p := Split(t, '*');
    if |p| == 4 && p[1] == "x" && p[2] == "" then
      match (ParameterIndex(p[0]), ParseNat(p[3]))
      case (Some(i), Some(j)) => if i == j then Some(i) else None
      case _ => None
    else None
  }

  /** The indices named by a list of `c{i}` parameters. */
  function ReadParameters(ts: seq<string>): Option<seq<nat>> {
    if |ts| == 0 then Some([])
    else match (ParameterIndex(ts[0]), ReadParameters(ts[1..]))
      case (Some(i), Some(rest)) => Some([i] + rest)
      case _ => None
  }

  /** The indices named by a list of `c{i}*x**{i}` terms. */
  function ReadTerms(ts: seq<string>): Option<seq<nat>> {
    if |ts| == 0 then Some([])
    else match (TermIndex(ts[0]), ReadTerms(ts[1..]))
      case (Some(i), Some(rest)) => Some([i] + rest)
      case _ => None
  }

  lemma {:induction false} ReadParameterNames(ix: seq<nat>)
    ensures ReadParameters(ParameterNames(ix)) == Some(ix)
  {
    if |ix| > 0 {
      assert ParameterNames(ix)[1..] == ParameterNames(ix[1..]);
      ReadParameterNames(ix[1..]);
      assert ix == [ix[0]] + ix[1..];
    }
  }

  lemma TermTextSplits(i: nat)
    ensures Split(TermText(i), '*') == [ParameterName(i), "x", "", NatToString(i)]
  {
    var d := NatToString(i);
    var parts := [ParameterName(i), "x", "", d];
    assert Join('*', parts) == TermText(i) by {
      assert Join('*', parts[2..]) == "" + "*" + d;
      assert Join('*', parts[1..]) == "x" + "*" + Join('*', parts[2..]);
    }
    assert '*' !in d by { assert forall k :: 0 <= k < |d| ==> IsDigit(d[k]); }
    SplitJoin(parts, '*');
  }

  lemma {:induction false} ReadTermTexts(ix: seq<nat>)
    ensures ReadTerms(TermTexts(ix)) == Some(ix)
  {
    if |ix| > 0 {
      TermTextSplits(ix[0]);
      ParseNatToString(ix[0]);
      assert TermTexts(ix)[1..] == TermTexts(ix[1..]);
      ReadTermTexts(ix[1..]);
      assert ix == [ix[0]] + ix[1..];
    }
  }

  /** The parameter string and the expression string of `polynomialBuilder`
      name the same exponents, in increasing order: reading the indices back
      out of either one gives `TermIndices`. */
  lemma BuilderStringsAgree(degree: int, oddTerms: bool)
    requires degree >= 0
    ensures ReadParameters(Split(Parameters(degree, oddTerms), ',')) == Some(TermIndices(degree, oddTerms))
    ensures ReadTerms(Split(Expression(degree, oddTerms), '+')) == Some(TermIndices(degree, oddTerms))
  {
    var ix := TermIndices(degree, oddTerms);
    assert 0 in ix;
    var names := ParameterNames(ix);
    var terms := TermTexts(ix);
    forall k | 0 <= k < |names| ensures ',' !in names[k] {
      var d := NatToString(ix[k]);
      assert forall m :: 0 <= m < |d| ==> IsDigit(d[m]);
    }
    forall k | 0 <= k < |terms| ensures '+' !in terms[k] {
      var d := NatToString(ix[k]);
      assert forall m :: 0 <= m < |d| ==> IsDigit(d[m]);
    }
    SplitJoin(names, ',');
    SplitJoin(terms, '+');
    ReadParameterNames(ix);
    ReadTermTexts(ix);
  }

  // ----- curve_fitting: data preparation -----

  /** `(x, y)` pairs, compared as Python compares tuples. */
  predicate PairLe(p: Point, q: Point) {
    p.x < q.x || (p.x == q.x && p.y <= q.y)
  }

  predicate SortedPairs(ps: seq<Point>) {
    forall i, j :: 0 <= i < j < |ps| ==> PairLe(ps[i], ps[j])
  }

  function Insert(p: Point, ps: seq<Point>): (r: seq<Point>)
    requires SortedPairs(ps)
    ensures SortedPairs(r)
    ensures multiset(r) == multiset(ps) + multiset{p}
  {
    if |ps| == 0 then [p]
    else if PairLe(p, ps[0]) then [p] + ps
    else
      var tail := Insert(p, ps[1..]);
      assert ps == [ps[0]] + ps[1..];
      assert forall k :: 0 <= k < |tail| ==> PairLe(ps[0], tail[k]) by {
        forall k | 0 <= k < |tail| ensures PairLe(ps[0], tail[k]) {
          assert tail[k] in multiset(tail);
          assert tail[k] in multiset(ps[1..]) || tail[k] == p;
        }
      }
      [ps[0]] + tail
  }

  /** `sorted(zip(x_data, y_data))`: the pairs in ascending tuple order. */
  function SortPairs(ps: seq<Point>): (r: seq<Point>)
    ensures SortedPairs(r)
    ensures multiset(r) == multiset(ps)
  {
    if |ps| == 0 then []
    else
      assert ps == [ps[0]] + ps[1..];
      Insert(ps[0], SortPairs(ps[1..]))
  }

  /** The data `curve_fitting` hands to the fit: `x_data` and `y_data`
      sorted by `x` (ties by `y`), and the interval to plot on. */
  datatype FitData = FitData(xs: seq<real>, ys: seq<real>, low: real, high: real)

  function Xs(ps: seq<Point>): (r: seq<real>)
    ensures |r| == |ps| && forall k :: 0 <= k < |ps| ==> r[k] == ps[k].x
  {
    if |ps| == 0 then [] else [ps[0].x] + Xs(ps[1..])
  }

  function Ys(ps: seq<Point>): (r: seq<real>)
    ensures |r| == |ps| && forall k :: 0 <= k < |ps| ==> r[k] == ps[k].y
  {
    if |ps| == 0 then [] else [ps[0].y] + Ys(ps[1..])
  }

  /** Sorting, unzipping and the interval of `curve_fitting`.  With no
      points the unzipping raises ValueError: `None`.  The default interval
      reaches a twentieth of the `x` range beyond each end; an `interval`
      argument replaces it. */
  function PrepareFit(points: seq<Point>, interval: Option<(real, real)>): (r: Option<FitData>)
    ensures r.None? <==> |points| == 0
  {
    if |points| == 0 then None
    else
      var sorted := SortPairs(points);
      assert multiset(sorted) == multiset(points);
      assert |sorted| == |points|;
      var xs := Xs(sorted);
      var ys := Ys(sorted);
      var first := xs[0];
      var last := xs[|xs| - 1];
      var margin := (last - first) / 20.0;
      match interval
      case Some(given) => Some(FitData(xs, ys, given.0, given.1))
      case None => Some(FitData(xs, ys, first - margin, last + margin))
  }

  /** `x_data` comes out ascending, and the `(x, y)` pairs are exactly the
      input pairs, rearranged. */
  lemma PrepareFitSorted(points: seq<Point>, interval: Option<(real, real)>)
    requires |points| > 0
    ensures var d := PrepareFit(points, interval).value;
      |d.xs| == |d.ys| == |points| &&
      (forall i, j :: 0 <= i < j < |d.xs| ==> d.xs[i] <= d.xs[j]) &&
      multiset(Zip(d.xs, d.ys)) == multiset(points)
  {
    var sorted := SortPairs(points);
    assert multiset(sorted) == multiset(points);
    var d := PrepareFit(points, interval).value;
    assert Zip(d.xs, d.ys) == sorted;
  }

  function Zip(xs: seq<real>, ys: seq<real>): (r: seq<Point>)
    requires |xs| == |ys|
    ensures |r| == |xs| && forall k :: 0 <= k < |xs| ==> r[k] == Point(xs[k], ys[k])
  {
    if |xs| == 0 then [] else [Point(xs[0], ys[0])] + Zip(xs[1..], ys[1..])
  }

  /** A given `interval=` is used as it is.  Without one, the interval
      runs from the smallest to the largest `x`, widened on each side by a
      twentieth of their distance, and so holds every `x` value. */
  lemma DefaultIntervalCovers(points: seq<Point>, interval: Option<(real, real)>)
    requires |points| > 0
    ensures var d := PrepareFit(points, interval).value;
      interval.Some? ==> d.low == interval.value.0 && d.high == interval.value.1
    ensures var d := PrepareFit(points, interval).value;
      var first := d.xs[0];
      var last := d.xs[|d.xs| - 1];
      interval.None? ==>
        (forall k :: 0 <= k < |d.xs| ==> first <= d.xs[k] <= last) &&
        d.low == first - (last - first) / 20.0 &&
        d.high == last + (last - first) / 20.0 &&
        (forall k :: 0 <= k < |d.xs| ==> d.low <= d.xs[k] <= d.high)
  {
    PrepareFitSorted(points, interval);
    if interval.Some? {
      return;
    }
    var d := PrepareFit(points, None).value;
    var first := d.xs[0];
    var last := d.xs[|d.xs| - 1];
    assert first <= last;
    assert d.low == first - (last - first) / 20.0;
    assert d.high == last + (last - first) / 20.0;
    forall k | 0 <= k < |d.xs| ensures first <= d.xs[k] <= last && d.low <= d.xs[k] <= d.high {
      assert first <= d.xs[k] <= last;
    }
  }

  /** The exponential branch replaces every `y <= 0` by `0.001` (so that
      the logarithm is defined) and keeps the other values. */
  method ClampNonPositive(ys: array<real>)
    modifies ys
    ensures forall k :: 0 <= k < ys.Length ==>
      ys[k] == (if old(ys[k]) <= 0.0 then 0.001 else old(ys[k]))
    ensures forall k :: 0 <= k < ys.Length ==> ys[k] > 0.0
  {
    var i := 0;
    while i < ys.Length
      invariant 0 <= i <= ys.Length
      invariant forall k :: 0 <= k < i ==>
        ys[k] == (if old(ys[k]) <= 0.0 then 0.001 else old(ys[k]))
      invariant forall k :: i <= k < ys.Length ==> ys[k] == old(ys[k])
    {
      if ys[i] <= 0.0 {
        ys[i] := 0.001;
      }
      i := i + 1;
    }
  }

  // ----- updateFunction -----

  datatype FunctionKind = Polynomial | Exponential

  /** A curve is fitted only for a polynomial with more points than its
      degree, or an exponential with more than two points. */
  predicate ShouldFit(kind: FunctionKind, degree: int, count: nat) {
    (kind == Polynomial && count > degree) || (kind == Exponential && count > 2)
  }

  /** Number of coefficients the fit looks for. */
  function ParameterCount(kind: FunctionKind, degree: int, oddTerms: bool): nat {
    if kind == Exponential then 2 else |TermIndices(degree, oddTerms)|
  }

  /** When the gate lets a fit through there are at least as many points
      as coefficients to fit, and at least one point to sort. */
  lemma GateLeavesEnoughPoints(kind: FunctionKind, degree: int, oddTerms: bool, count: nat)
    requires ShouldFit(kind, degree, count)
    ensures count >= ParameterCount(kind, degree, oddTerms)
    ensures degree >= 0 || kind == Exponential ==> count >= 1
  {
    if kind == Polynomial && degree >= 0 {
      TermCount(0, degree, oddTerms);
    }
  }

  /** The expression text is cut into lines of 21 characters; the last line
      holds the rest, and the lines are joined with newlines. */
  method WrapLines(expression: string) returns (lines: seq<string>, text: string)
    ensures |lines| >= 1
    ensures forall k :: 0 <= k < |lines| - 1 ==> |lines[k]| == 21
    ensures |lines[|lines| - 1]| <= 21
    ensures |expression| > 0 ==> |lines[|lines| - 1]| > 0
    ensures Concat(lines) == expression
    ensures text == Join('\n', lines)
  {
    var rest := expression;
    lines := [];
    while |rest| > 21
      invariant forall k :: 0 <= k < |lines| ==> |lines[k]| == 21
      invariant Concat(lines) + rest == expression
      invariant |expression| > 0 ==> |rest| > 0
    {
      ConcatAppend(lines, rest[..21]);
      assert rest[..21] + rest[21..] == rest;
      lines := lines + [rest[..21]];
      rest := rest[21..];
    }
    ConcatAppend(lines, rest);
    lines := lines + [rest];
    text := Join('\n', lines);
  }

  lemma {:induction false} ConcatAppend(parts: seq<string>, s: string)
    ensures Concat(parts + [s]) == Concat(parts) + s
  {
    if |parts| > 0 {
      assert (parts + [s])[1..] == parts[1..] + [s];
      ConcatAppend(parts[1..], s);
    }
  }
}
