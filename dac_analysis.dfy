/** The transfer-curve arithmetic of an n-bit inverting DAC: the ideal output
    for a digital code, the resolution (one LSB), the per-sample error against
    the measurement, its mean square, and the monotonicity check. Voltages are
    exact reals in place of floating-point numbers. */
module DacAnalysis {
  import opened Outcomes

  /** 2^n, the number of codes of an n-bit converter. */
  function Pow2(n: nat): (p: nat)
    ensures p >= 1
  {
    if n == 0 then 1 else 2 * Pow2(n - 1)
  }

  /** The digital codes 0, 1, ..., k-1 (numpy's `arange(0, k)`). */
  function Codes(k: nat): (c: seq<int>)
    ensures |c| == k
    ensures forall i :: 0 <= i < k ==> c[i] == i
  {
    seq(k, i => i)
  }

  /** Resolution: the voltage of one least-significant-bit step, Vref / 2^n.
      The full scale Vref is exactly 2^n of these steps. */
  function Lsb(n: nat, vref: real): (r: real)
    ensures r * (Pow2(n) as real) == vref
    ensures vref > 0.0 ==> r > 0.0
  {
    vref / (Pow2(n) as real)
  }

  /** Ideal output of the inverting DAC for code `d`: -Vref * 2d / 2^n,
      that is, minus two LSB steps per code. */
  function ExpectedOutput(d: int, n: nat, vref: real): (v: real)
    ensures v == -2.0 * (d as real) * Lsb(n, vref)
  {
    -vref * 2.0 * (d as real) / (Pow2(n) as real)
  }

  /** The expected sequence for a sequence of codes (the vectorised call). */
  function ExpectedCurve(codes: seq<int>, n: nat, vref: real): (e: seq<real>)
    ensures |e| == |codes|
    ensures forall i :: 0 <= i < |codes| ==> e[i] == ExpectedOutput(codes[i], n, vref)
  {
    seq(|codes|, i requires 0 <= i < |codes| => ExpectedOutput(codes[i], n, vref))
  }

  /** Code 0 is always mapped to 0 V, whatever the width and reference. */
  lemma ExpectedAtZero(n: nat, vref: real)
    ensures ExpectedOutput(0, n, vref) == 0.0
  {
  }

  /** The ideal output is linear in the code: expected(d) = d * expected(1). */
  lemma ExpectedLinear(d: int, n: nat, vref: real)
    ensures ExpectedOutput(d, n, vref) == (d as real) * ExpectedOutput(1, n, vref)
  {
  }

  /** Consecutive codes are exactly two LSB steps apart, downwards. */
  lemma ExpectedStep(d: int, n: nat, vref: real)
    ensures ExpectedOutput(d, n, vref) - ExpectedOutput(d + 1, n, vref) == 2.0 * Lsb(n, vref)
  {
  }

  /** With a positive reference the ideal output strictly decreases in the code. */
  lemma ExpectedStrictlyDecreasing(d1: int, d2: int, n: nat, vref: real)
    requires vref > 0.0 && d1 < d2
    ensures ExpectedOutput(d2, n, vref) < ExpectedOutput(d1, n, vref)
  {
  }

  /** Per-sample error `observed - expected`. */
  function ErrorVector(observed: seq<real>, expected: seq<real>): (err: seq<real>)
    requires |observed| == |expected|
    ensures |err| == |observed|
    ensures forall i :: 0 <= i < |err| ==> observed[i] == expected[i] + err[i]
  {
    seq(|observed|, i requires 0 <= i < |observed| => observed[i] - expected[i])
  }

  /** The square of a real (numpy's `x**2`). */
  function Square(x: real): real
  {
    x * x
  }

  /** A square is never negative, and positive unless its root is zero. */
  lemma SquareSign(x: real)
    ensures Square(x) >= 0.0
    ensures x != 0.0 ==> Square(x) > 0.0
  {
    if x != 0.0 {
      calc {
        Square(x);
      ==
        x * x;
      >
        0.0;
      }
    } else {
      calc {
        Square(x);
      ==
        0.0 * 0.0;
      ==
        0.0;
      }
    }
  }

  /** Sum of the squares of the samples; never negative. */
  function SumOfSquares(s: seq<real>): (r: real)
    ensures r >= 0.0
  {
    if |s| == 0 then 0.0 else SquareSign(s[0]); Square(s[0]) + SumOfSquares(s[1..])
  }

  /** The sum of squares vanishes exactly when every sample is zero. */
  lemma {:induction false} SumOfSquaresZeroIff(s: seq<real>)
    ensures SumOfSquares(s) == 0.0 <==> forall i :: 0 <= i < |s| ==> s[i] == 0.0
  {
    if |s| > 0 {
      SumOfSquaresZeroIff(s[1..]);
      SquareSign(s[0]);
      if s[0] == 0.0 {
        assert forall i :: 1 <= i < |s| ==> s[i] == s[1..][i - 1];
      }
    }
  }

  /** The mean of the squared errors (the quantity under the square root of
      the RMS error). The mean of an empty sample has no value (numpy
      returns nan). */
  function MeanSquare(err: seq<real>): (r: Option<real>)
    ensures r.None? <==> |err| == 0
    ensures r.Some? ==> r.value >= 0.0
    ensures r.Some? ==> (r.value == 0.0 <==> forall i :: 0 <= i < |err| ==> err[i] == 0.0)
  {
    if |err| == 0 then None
    else
      SumOfSquaresZeroIff(err);
      Some(SumOfSquares(err) / (|err| as real))
  }

  /** The mean squared error of a non-empty measurement is zero exactly when
      the measurement equals the ideal curve sample by sample. */
  lemma MeanSquareZeroIff(observed: seq<real>, expected: seq<real>)
    requires |observed| == |expected|
    ensures |observed| > 0 ==> (MeanSquare(ErrorVector(observed, expected)) == Some(0.0) <==> observed == expected)
  {
    var err := ErrorVector(observed, expected);
    if |observed| > 0 && MeanSquare(err) == Some(0.0) {
      assert forall i :: 0 <= i < |observed| ==> observed[i] == expected[i] by {
        forall i | 0 <= i < |observed| ensures observed[i] == expected[i] {
          assert err[i] == 0.0;
        }
      }
    }
  }

  /** Consecutive differences `s[i+1] - s[i]` (numpy's `diff`); empty for a
      sequence of length 0 or 1. */
  function Diff(s: seq<real>): (d: seq<real>)
    ensures |d| == if |s| == 0 then 0 else |s| - 1
    ensures forall i :: 0 <= i < |d| ==> s[i + 1] == s[i] + d[i]
  {
    if |s| <= 1 then [] else seq(|s| - 1, i requires 0 <= i < |s| - 1 => s[i + 1] - s[i])
  }

  /** True when every sample is negative (`all(x < 0)`, true of the empty sequence). */
  function AllNegative(xs: seq<real>): (b: bool)
    ensures b <==> forall i :: 0 <= i < |xs| ==> xs[i] < 0.0
  {
    if |xs| == 0 then true
    else
      assert forall i :: 1 <= i < |xs| ==> xs[i] == xs[1..][i - 1];
      xs[0] < 0.0 && AllNegative(xs[1..])
  }

  /** The monotonicity flag of the report: every consecutive difference is
      negative, that is, each sample is below its predecessor. */
  function Monotonic(observed: seq<real>): (m: bool)
    ensures m <==> forall i :: 0 <= i < |observed| - 1 ==> observed[i + 1] < observed[i]
  {
    AllNegative(Diff(observed))
  }

  /** Strictly decreasing: every later sample is below every earlier one. */
  ghost predicate StrictlyDecreasing(s: seq<real>)
  {
    forall i, j :: 0 <= i < j < |s| ==> s[j] < s[i]
  }

  /** Consecutive decrease extends to any pair of positions: the flag holds
      exactly when the whole measurement is strictly decreasing. In particular
      it holds of every sequence of length 0 or 1. */
  lemma MonotonicIffStrictlyDecreasing(observed: seq<real>)
    ensures Monotonic(observed) <==> StrictlyDecreasing(observed)
    ensures |observed| <= 1 ==> Monotonic(observed)
  {
    if Monotonic(observed) {
      forall i, j | 0 <= i < j < |observed| ensures observed[j] < observed[i] {
        DecreasingBetween(observed, i, j);
      }
    }
  }

  lemma {:induction false} DecreasingBetween(s: seq<real>, i: nat, j: nat)
    requires forall k :: 0 <= k < |s| - 1 ==> s[k + 1] < s[k]
    requires i < j < |s|
    ensures s[j] < s[i]
  {
    if j > i + 1 {
      DecreasingBetween(s, i, j - 1);
    }
  }

  /** The ideal curve over strictly increasing codes passes the monotonicity
      check when Vref is positive; in particular over all codes 0 .. 2^n - 1. */
  lemma ExpectedCurveMonotonic(codes: seq<int>, n: nat, vref: real)
    requires vref > 0.0
    requires forall i :: 0 <= i < |codes| - 1 ==> codes[i] < codes[i + 1]
    ensures Monotonic(ExpectedCurve(codes, n, vref))
  {
    var e := ExpectedCurve(codes, n, vref);
    forall i | 0 <= i < |e| - 1 ensures e[i + 1] < e[i] {
      ExpectedStrictlyDecreasing(codes[i], codes[i + 1], n, vref);
    }
  }

  /** The numbers `analyze_dac` reports, short of the square root and the
      straight-line fit. */
  datatype DacReport = DacReport(error: seq<real>, meanSquare: Option<real>, lsb: real, monotonic: bool)

  /** One DAC analysis: error vector, mean squared error, LSB and the
      monotonicity flag of the measurement. */
  function AnalyzeDac(observed: seq<real>, expected: seq<real>, n: nat, vref: real): (r: DacReport)
    requires |observed| == |expected|
    ensures |r.error| == |observed|
    ensures forall i :: 0 <= i < |observed| ==> observed[i] == expected[i] + r.error[i]
    ensures r.meanSquare.None? <==> |observed| == 0
    ensures r.meanSquare.Some? ==> r.meanSquare.value >= 0.0
    ensures r.meanSquare.Some? ==> (r.meanSquare.value == 0.0 <==> observed == expected)
    ensures r.lsb == Lsb(n, vref)
    ensures r.monotonic <==> StrictlyDecreasing(observed)
  {
    var err := ErrorVector(observed, expected);
    var lsb := Lsb(n, vref);
    MonotonicIffStrictlyDecreasing(observed);
    MeanSquareZeroIff(observed, expected);
    DacReport(err, MeanSquare(err), lsb, Monotonic(observed))
  }

  /** The measured 3-bit transfer curve (the script negates the typed values). */
  function Observed3Bit(): seq<real>
  {
    [0.002, -1.312, -2.583, -3.898, -5.140, -6.450, -7.72, -9.04]
  }

  /** The measured 4-bit transfer curve. */
  function Observed4Bit(): seq<real>
  {
    [0.002, -0.347, -1.304, -1.954, -2.572, -3.224, -3.884, -4.530,
     -5.14, -5.80, -6.45, -7.11, -7.72, -8.37, -9.03, -9.69]
  }

  /** With Vref = 5 and n = 3 the LSB is 0.625 V and the ideal curve steps by
      1.25 V from 0 down to -8.75 V. */
  lemma ThreeBitExpected()
    ensures Lsb(3, 5.0) == 0.625
    ensures ExpectedCurve(Codes(8), 3, 5.0) == [0.0, -1.25, -2.5, -3.75, -5.0, -6.25, -7.5, -8.75]
  {
    assert Pow2(3) == 8;
  }

  /** Sample errors of the recorded 3-bit measurement against the ideal curve. */
  lemma ThreeBitErrors()
    ensures ErrorVector(Observed3Bit(), ExpectedCurve(Codes(8), 3, 5.0))
         == [0.002, -0.062, -0.083, -0.148, -0.14, -0.2, -0.22, -0.29]
  {
    ThreeBitExpected();
  }

  /** Sum of the squared 3-bit errors, accumulated from the last sample. */
  lemma ThreeBitSumOfSquares()
    ensures SumOfSquares([0.002, -0.062, -0.083, -0.148, -0.14, -0.2, -0.22, -0.29]) == 0.224741
  {
    var err := [0.002, -0.062, -0.083, -0.148, -0.14, -0.2, -0.22, -0.29];
    assert SumOfSquares(err[7..]) == 0.0841;
    assert SumOfSquares(err[6..]) == 0.1325;
    assert SumOfSquares(err[5..]) == 0.1725;
    assert SumOfSquares(err[4..]) == 0.1921;
    assert SumOfSquares(err[3..]) == 0.214004;
    assert SumOfSquares(err[2..]) == 0.220893;
    assert SumOfSquares(err[1..]) == 0.224737;
    assert SumOfSquares(err[0..]) == 0.224741;
    assert err[0..] == err;
  }

  /** The recorded 3-bit measurement: LSB 0.625 V, monotonic, and a mean
      squared error whose square root lies in [0.16755, 0.16765), i.e. an RMS
      error that prints as 0.1676 V. */
  lemma ThreeBitReport()
    ensures var r := AnalyzeDac(Observed3Bit(), ExpectedCurve(Codes(8), 3, 5.0), 3, 5.0);
      && r.lsb == 0.625
      && r.monotonic
      && r.meanSquare == Some(0.028092625)
      && 0.16755 * 0.16755 <= r.meanSquare.value < 0.16765 * 0.16765
  {
    ThreeBitExpected();
    ThreeBitErrors();
    ThreeBitSumOfSquares();
    ThreeBitMonotonic();
  }

  /** The recorded three-bit measurement decreases from code to code. */
  lemma ThreeBitMonotonic()
    ensures Monotonic(Observed3Bit())
  {
  }

  /** With Vref = 5 and n = 4 the LSB is 0.3125 V and the ideal curve steps by
      0.625 V. */
  lemma FourBitExpected()
    ensures Lsb(4, 5.0) == 0.3125
    ensures ExpectedCurve(Codes(16), 4, 5.0)
         == [0.0, -0.625, -1.25, -1.875, -2.5, -3.125, -3.75, -4.375,
             -5.0, -5.625, -6.25, -6.875, -7.5, -8.125, -8.75, -9.375]
  {
    assert Pow2(4) == 16;
  }

  /** Sample errors of the recorded 4-bit measurement against the ideal curve. */
  lemma FourBitErrors()
    ensures ErrorVector(Observed4Bit(), ExpectedCurve(Codes(16), 4, 5.0))
         == [0.002, 0.278, -0.054, -0.079, -0.072, -0.099, -0.134, -0.155,
             -0.14, -0.175, -0.2, -0.235, -0.22, -0.245, -0.28, -0.315]
  {
    FourBitExpected();
  }

  /** Sum of the squared 4-bit errors, accumulated from the last sample. */
  lemma FourBitSumOfSquares()
    ensures SumOfSquares([0.002, 0.278, -0.054, -0.079, -0.072, -0.099, -0.134, -0.155,
                          -0.14, -0.175, -0.2, -0.235, -0.22, -0.245, -0.28, -0.315]) == 0.574911
  {
    var err := [0.002, 0.278, -0.054, -0.079, -0.072, -0.099, -0.134, -0.155,
                -0.14, -0.175, -0.2, -0.235, -0.22, -0.245, -0.28, -0.315];
    assert SumOfSquares(err[15..]) == 0.099225;
    assert SumOfSquares(err[14..]) == 0.177625;
    assert SumOfSquares(err[13..]) == 0.23765;
    assert SumOfSquares(err[12..]) == 0.28605;
    assert SumOfSquares(err[11..]) == 0.341275;
    assert SumOfSquares(err[10..]) == 0.381275;
    assert SumOfSquares(err[9..]) == 0.4119;
    assert SumOfSquares(err[8..]) == 0.4315;
    assert SumOfSquares(err[7..]) == 0.455525;
    assert SumOfSquares(err[6..]) == 0.473481;
    assert SumOfSquares(err[5..]) == 0.483282;
    assert SumOfSquares(err[4..]) == 0.488466;
    assert SumOfSquares(err[3..]) == 0.494707;
    assert SumOfSquares(err[2..]) == 0.497623;
    assert SumOfSquares(err[1..]) == 0.574907;
    assert SumOfSquares(err[0..]) == 0.574911;
    assert err[0..] == err;
  }

  /** The recorded 4-bit measurement: LSB 0.3125 V, monotonic, and an RMS
      error that prints as 0.1896 V. */
  lemma FourBitReport()
    ensures var r := AnalyzeDac(Observed4Bit(), ExpectedCurve(Codes(16), 4, 5.0), 4, 5.0);
      && r.lsb == 0.3125
      && r.monotonic
      && r.meanSquare == Some(0.0359319375)
      && 0.18955 * 0.18955 <= r.meanSquare.value < 0.18965 * 0.18965
  {
    FourBitExpected();
    FourBitErrors();
    FourBitSumOfSquares();
    FourBitMonotonic();
  }

  /** The recorded four-bit measurement decreases from code to code. */
  lemma FourBitMonotonic()
    ensures Monotonic(Observed4Bit())
  {
  }
}
