/** Half-value-layer analysis of a gamma-ray attenuation measurement through
    aluminium: net counts after background subtraction, the half count, the
    first adjacent pair of thicknesses whose counts cross it, the thickness
    interpolated there, and the linear and mass attenuation coefficients.
    Counts are integers; thicknesses and derived values are exact reals. */
module MassAttenuation {
  import opened Outcomes

  /** Background counts subtracted from every gross count. */
  const Background: int := 1555

  /** Density of aluminium, in g/cm^3. */
  const Rho: real := 2.7

  /** Why no attenuation coefficient can be produced. */
  datatype AttenuationError =
    | EmptyCounts   // there is no first count to take as I0
    | NoCrossing    // no adjacent pair of counts crosses I0/2
    | FlatCrossing  // the crossing pair has equal counts: interpolation divides by zero
    | ZeroHvl       // the interpolated layer is 0 cm: ln 2 / HVL divides by zero

  /** The analysis results that the script reports. */
  datatype Attenuation = Attenuation(i0: int, half: real, hvl: real, mu: real, muMass: real)

  /** Net counts: every gross count less the background. */
  function NetCounts(gross: seq<int>): (net: seq<int>)
    ensures |net| == |gross|
    ensures forall i :: 0 <= i < |gross| ==> net[i] + Background == gross[i]
  {
    seq(|gross|, i requires 0 <= i < |gross| => gross[i] - Background)
  }

  /** Half of the initial count (true division of an integer count). */
  function HalfCount(i0: int): (half: real)
    ensures 2.0 * half == i0 as real
  {
    i0 as real / 2.0
  }

  /** The pair at positions i and i+1 crosses the half count from above:
      counts[i] >= half >= counts[i+1]. */
  predicate IsCrossing(counts: seq<int>, half: real, i: int)
  {
    0 <= i < |counts| - 1 && counts[i] as real >= half && counts[i + 1] as real <= half
  }

  /** A crossing pair never rises, and it is flat exactly when both of its
      counts sit on the half count. */
  lemma CrossingDescends(counts: seq<int>, half: real, i: int)
    requires IsCrossing(counts, half, i)
    ensures counts[i + 1] <= counts[i]
    ensures counts[i] == counts[i + 1] <==> counts[i] as real == half && counts[i + 1] as real == half
  {
  }

  /** Some adjacent pair crosses the half count. */
  ghost predicate HasCrossing(counts: seq<int>, half: real)
  {
    exists j :: IsCrossing(counts, half, j)
  }

  /** The first crossing at or after position `from`, scanning left to right. */
  function FirstCrossing(counts: seq<int>, half: real, from: nat): (r: Option<nat>)
    ensures r.Some? ==> from <= r.value && IsCrossing(counts, half, r.value)
    ensures r.Some? ==> forall j :: from <= j < r.value ==> !IsCrossing(counts, half, j)
    ensures r.None? ==> forall j :: from <= j ==> !IsCrossing(counts, half, j)
    decreases |counts| - from
  {
    if from >= |counts| - 1 then None
    else if IsCrossing(counts, half, from) then Some(from)
    else FirstCrossing(counts, half, from + 1)
  }

  /** A crossing with no crossing before it is the one the scan selects. */
  lemma FirstCrossingIs(counts: seq<int>, half: real, i: nat)
    requires IsCrossing(counts, half, i)
    requires forall j :: 0 <= j < i ==> !IsCrossing(counts, half, j)
    ensures FirstCrossing(counts, half, 0) == Some(i)
  {
  }

  /** Linear interpolation of the thickness at which the count equals
      `half`, between (x1, y1) and (x2, y2). Equal counts leave the line
      vertical and the division undefined. */
  function Interpolate(x1: real, x2: real, y1: int, y2: int, half: real): (r: Result<real, AttenuationError>)
    ensures r.Err? <==> y1 == y2
    ensures r.Err? ==> r.error == FlatCrossing
  {
    if y1 == y2 then Err(FlatCrossing)
    else Ok(x1 + (half - y1 as real) * (x2 - x1) / ((y2 - y1) as real))
  }

  /** The interpolated point lies on the straight line through the two
      samples: its rise from (x1, y1) over its run matches the pair's slope. */
  lemma InterpolateOnLine(x1: real, x2: real, y1: int, y2: int, half: real)
    requires y1 != y2
    ensures (Interpolate(x1, x2, y1, y2, half).value - x1) * ((y2 - y1) as real)
         == (half - y1 as real) * (x2 - x1)
  {
  }

  /** Where the pair crosses downwards (y1 > y2, half between them) over
      non-decreasing thickness, the interpolated layer lies between the two
      thicknesses; it is the first thickness when that count is exactly
      half, and the second when the second count is. */
  lemma InterpolateWithin(x1: real, x2: real, y1: int, y2: int, half: real)
    requires y2 as real <= half <= y1 as real && y2 < y1
    requires x1 <= x2
    ensures Interpolate(x1, x2, y1, y2, half).Ok?
    ensures x1 <= Interpolate(x1, x2, y1, y2, half).value <= x2
    ensures half == y1 as real ==> Interpolate(x1, x2, y1, y2, half).value == x1
    ensures half == y2 as real ==> Interpolate(x1, x2, y1, y2, half).value == x2
  {
    var num := y1 as real - half;      // drop still to go, 0 <= num <= den
    var den := (y1 - y2) as real;      // drop across the pair, den > 0
    var dx := x2 - x1;
    var t := num / den;
    assert 0.0 <= t <= 1.0;
    calc {
      Interpolate(x1, x2, y1, y2, half).value;
    ==
      x1 + (-num) * dx / (-den);
    ==
      x1 + t * dx;
    }
    FractionOfInterval(x1, dx, t);
    if half == y1 as real {
      assert num == 0.0;
    }
    if half == y2 as real {
      assert num == den;
    }
  }

  lemma FractionOfInterval(x1: real, dx: real, t: real)
    requires 0.0 <= t <= 1.0 && dx >= 0.0
    ensures x1 <= x1 + t * dx <= x1 + dx
    ensures t == 0.0 ==> x1 + t * dx == x1
    ensures t == 1.0 ==> x1 + t * dx == x1 + dx
  {
    assert t * dx >= 0.0;
    assert (1.0 - t) * dx >= 0.0;
  }

  /** The half-value layer: interpolation across the first crossing pair. */
  function HalfValueLayer(thickness: seq<real>, counts: seq<int>, half: real): (r: Result<real, AttenuationError>)
    requires |thickness| >= |counts|
    ensures r == Err(NoCrossing) <==> !HasCrossing(counts, half)
    ensures r.Err? ==> r.error == NoCrossing || r.error == FlatCrossing
  {
    match FirstCrossing(counts, half, 0)
    case None => Err(NoCrossing)
    case Some(i) => Interpolate(thickness[i], thickness[i + 1], counts[i], counts[i + 1], half)
  }

  /** The layer is the interpolation at the first crossing and at no later
      one; the division fails exactly when both counts of that pair equal
      the half count. */
  lemma HalfValueLayerAtFirstCrossing(thickness: seq<real>, counts: seq<int>, half: real, i: nat)
    requires |thickness| >= |counts|
    requires IsCrossing(counts, half, i)
    requires forall j :: 0 <= j < i ==> !IsCrossing(counts, half, j)
    ensures HalfValueLayer(thickness, counts, half)
         == Interpolate(thickness[i], thickness[i + 1], counts[i], counts[i + 1], half)
    ensures HalfValueLayer(thickness, counts, half) == Err(FlatCrossing)
        <==> counts[i] as real == half && counts[i + 1] as real == half
  {
    FirstCrossingIs(counts, half, i);
  }

  /** Over non-decreasing thicknesses a computed layer lies inside the
      interval of the first crossing pair. */
  lemma HalfValueLayerWithin(thickness: seq<real>, counts: seq<int>, half: real, i: nat)
    requires |thickness| >= |counts|
    requires IsCrossing(counts, half, i)
    requires forall j :: 0 <= j < i ==> !IsCrossing(counts, half, j)
    requires thickness[i] <= thickness[i + 1]
    requires HalfValueLayer(thickness, counts, half).Ok?
    ensures thickness[i] <= HalfValueLayer(thickness, counts, half).value <= thickness[i + 1]
  {
    HalfValueLayerAtFirstCrossing(thickness, counts, half, i);
    InterpolateWithin(thickness[i], thickness[i + 1], counts[i], counts[i + 1], half);
  }

  /** The scan of the script: walk the adjacent pairs left to right and
      interpolate at the first one that crosses the half count. */
  method FindHvl(thickness: seq<real>, counts: seq<int>, half: real) returns (r: Result<real, AttenuationError>)
    requires |thickness| >= |counts|
    ensures r == HalfValueLayer(thickness, counts, half)
    ensures r == Err(NoCrossing) <==> !HasCrossing(counts, half)
  {
    var i := 0;
    while i < |counts| - 1
      invariant 0 <= i <= |counts|
      invariant forall j :: 0 <= j < i ==> !IsCrossing(counts, half, j)
    {
      if counts[i] as real >= half && counts[i + 1] as real <= half {
        var x1, x2 := thickness[i], thickness[i + 1];
        var y1, y2 := counts[i], counts[i + 1];
        FirstCrossingIs(counts, half, i);
        r := Interpolate(x1, x2, y1, y2, half);
        return;
      }
      i := i + 1;
    }
    r := Err(NoCrossing);
  }

  /** Linear attenuation coefficient mu = ln 2 / HVL; `ln2` stands for the
      natural logarithm of 2. Intensity halves over one HVL: mu * HVL = ln 2. */
  function LinearCoefficient(hvl: real, ln2: real): (mu: real)
    requires hvl != 0.0
    ensures mu * hvl == ln2
    ensures hvl > 0.0 && ln2 > 0.0 ==> mu > 0.0
  {
    ln2 / hvl
  }

  /** Mass attenuation coefficient mu / rho. */
  function MassCoefficient(mu: real): (m: real)
    ensures m * Rho == mu
    ensures mu > 0.0 <==> m > 0.0
  {
    mu / Rho
  }

  /** The whole script: net counts, I0 and I0/2, the scan for the layer, and
      the two coefficients, or the reason the script could not finish. */
  method AnalyzeAttenuation(thickness: seq<real>, gross: seq<int>, ln2: real)
    returns (r: Result<Attenuation, AttenuationError>)
    requires |thickness| >= |gross|
    ensures r == Err(EmptyCounts) <==> |gross| == 0
    ensures r == Err(NoCrossing)
        <==> |gross| > 0 && !HasCrossing(NetCounts(gross), HalfCount(gross[0] - Background))
    ensures r == Err(FlatCrossing)
        <==> |gross| > 0 && HalfValueLayer(thickness, NetCounts(gross), HalfCount(gross[0] - Background)) == Err(FlatCrossing)
    ensures r == Err(ZeroHvl)
        <==> |gross| > 0 && HalfValueLayer(thickness, NetCounts(gross), HalfCount(gross[0] - Background)) == Ok(0.0)
    ensures r.Ok? ==>
      && r.value.i0 + Background == gross[0]
      && 2.0 * r.value.half == r.value.i0 as real
      && HalfValueLayer(thickness, NetCounts(gross), r.value.half) == Ok(r.value.hvl)
      && r.value.mu * r.value.hvl == ln2
      && r.value.muMass * Rho == r.value.mu
    ensures r.Ok? && r.value.hvl > 0.0 && ln2 > 0.0 ==> r.value.mu > 0.0 && r.value.muMass > 0.0
  {
    var counts := NetCounts(gross);
    if |counts| == 0 {
      return Err(EmptyCounts);
    }
    var i0 := counts[0];
    var half := HalfCount(i0);
    var hvl := FindHvl(thickness, counts, half);
    match hvl {
      case Err(e) =>
        r := Err(e);
      case Ok(h) =>
        if h == 0.0 {
          r := Err(ZeroHvl);
        } else {
          var mu := LinearCoefficient(h, ln2);
          r := Ok(Attenuation(i0, half, h, mu, MassCoefficient(mu)));
        }
    }
  }

  /** Thicknesses of the aluminium absorbers, in cm. */
  function AluminiumThickness(): seq<real>
  {
    [0.0, 0.5, 1.0, 1.5, 2.0, 2.5, 3.0, 3.5, 4.0, 4.5, 5.0, 5.5, 6.0]
  }

  /** Gross counts recorded behind each absorber. */
  function AluminiumGross(): seq<int>
  {
    [28587, 26077, 23702, 21255, 19630, 18028, 16242, 14828, 13310, 12752, 11616, 10715, 9730]
  }

  /** The recorded run: I0 = 27032, half count 13516, the first crossing
      between 3.0 cm and 3.5 cm (net 14687 then 13273), and an HVL of
      3 + 1171 * 0.5 / 1414 cm. */
  lemma AluminiumHalfValueLayer()
    ensures NetCounts(AluminiumGross())
         == [27032, 24522, 22147, 19700, 18075, 16473, 14687, 13273, 11755, 11197, 10061, 9160, 8175]
    ensures HalfCount(27032) == 13516.0
    ensures FirstCrossing(NetCounts(AluminiumGross()), 13516.0, 0) == Some(6)
    ensures HalfValueLayer(AluminiumThickness(), NetCounts(AluminiumGross()), 13516.0) == Ok(3.0 + 1171.0 / 2828.0)
    ensures 3.414073550212164 - 0.000000001 <= 3.0 + 1171.0 / 2828.0 <= 3.414073550212164 + 0.000000001
  {
    var net := NetCounts(AluminiumGross());
    assert net == [27032, 24522, 22147, 19700, 18075, 16473, 14687, 13273, 11755, 11197, 10061, 9160, 8175];
    assert forall j :: 0 <= j < 6 ==> !IsCrossing(net, 13516.0, j);
    FirstCrossingIs(net, 13516.0, 6);
  }

  /** With ln 2 known to ten decimals, the recorded run gives mu and the
      mass coefficient within 1e-9 of the printed 0.20302643465805545 cm^-1
      and 0.07519497579927979 cm^2/g. */
  lemma AluminiumCoefficients(ln2: real)
    requires 0.6931471805 <= ln2 <= 0.6931471806
    ensures var mu := LinearCoefficient(3.0 + 1171.0 / 2828.0, ln2);
      && 0.20302643465805545 - 0.000000001 <= mu <= 0.20302643465805545 + 0.000000001
      && 0.07519497579927979 - 0.000000001 <= MassCoefficient(mu) <= 0.07519497579927979 + 0.000000001
  {
    var hvl := 3.0 + 1171.0 / 2828.0;
    assert hvl == 9655.0 / 2828.0;
    var mu := LinearCoefficient(hvl, ln2);
    assert mu == ln2 * 2828.0 / 9655.0;
  }

  /** A three-sample run: counts 100, 80, 40 at 0, 1, 2 cm cross half of 100
      between 1 cm and 2 cm, at 1.75 cm. */
  lemma ThreeSampleHalfValueLayer()
    ensures HalfValueLayer([0.0, 1.0, 2.0], [100, 80, 40], HalfCount(100)) == Ok(1.75)
  {
    assert !IsCrossing([100, 80, 40], 50.0, 0);
    FirstCrossingIs([100, 80, 40], 50.0, 1);
  }
}
