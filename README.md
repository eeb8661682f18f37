# Lab data reduction: DAC transfer curve and aluminium half-value layer

This project models, in Dafny, the numerical core of two laboratory
data-reduction scripts, with exact `real` arithmetic standing in for
floating-point numbers.

**DAC transfer-curve analysis** (`DAC_analysis.py`, module `DacAnalysis` in
`dac_analysis.dfy`). An n-bit inverting DAC ideally outputs
`-Vref * 2d / 2^n` for code `d`. One LSB is `Vref / 2^n`. The analysis
computes the per-sample error `observed - expected` and the mean of its
squares, which is the quantity under the square root of the RMS error. It
also flags the measurement as monotonic when every consecutive difference is
negative. The model proves these properties:

- the ideal curve is 0 at code 0 and linear in the code;
- consecutive codes are exactly two LSBs apart, and with a positive reference
  the curve strictly decreases;
- the mean squared error is never negative, and it is zero exactly when the
  measurement equals the ideal curve;
- the monotonic flag holds exactly when the measurement strictly decreases;
- both recorded runs reproduce the printed LSB and monotonic flag, and their
  RMS errors round to the printed 0.1676 V and 0.1896 V.

The sign facts about squares that the mean squared error needs are stated in
`DacAnalysis` as well (`Square`, `SquareSign`).

**Half-value layer of aluminium** (`Nucler_lab/Exp-3/MCA/Mass_abs_coeff_AL.py`,
module `MassAttenuation` in `attenuation.dfy`).

- Net counts are the gross counts less a background of 1555.
- `I0` is the first net count and `I_half = I0 / 2`.
- The script scans adjacent pairs left to right and stops at the first pair
  whose counts cross `I_half` from above, i.e. `Counts[i] >= I_half >=
  Counts[i+1]`. It interpolates the half-value layer (HVL) linearly between
  that pair's thicknesses.
- It reports `mu = ln 2 / HVL` and `mu_mass = mu / rho`, with rho = 2.7 g/cm^3.

The model covers these parts:

- The scan is an imperative method, `FindHvl`. Its loop invariant says that no
  pair before the current one crosses. It is proved equal to the
  specification function `HalfValueLayer`, which is built on the recursive
  `FirstCrossing`.
- Each case where the script faults, or yields nan or inf, is an explicit error:
  - no counts at all (`EmptyCounts`);
  - no crossing pair (`NoCrossing`);
  - a crossing pair whose two counts are equal, where the interpolation is
    0/0 and yields nan (`FlatCrossing`);
  - an HVL of zero, where `ln 2 / HVL` yields inf, and `mu_mass` with it
    (`ZeroHvl`).
- Lemmas prove that the interpolated point lies on the line through the pair.
  Over non-decreasing thicknesses it lies between the two thicknesses, and it
  equals a thickness whose count is exactly `I_half`.
- The recorded run gives `I0 = 27032`, `I_half = 13516` and
  `HVL = 3 + 1171/2828 cm`, within 1e-9 of the printed 3.414073550212164.
  With ln 2 to ten decimals, mu and mu_mass lie within 1e-9 of the printed
  values.

`Outcomes` (`outcomes.dfy`) holds the `Option` and `Result` types both
modules use.

Two inputs make the scripts misbehave rather than fail cleanly; the model
gives each a named outcome:

- For an empty measurement, `np.mean` of the empty error (DAC_analysis.py:49)
  yields nan; `MeanSquare` and `AnalyzeDac` return `None` for it. The script
  itself never completes `analyze_dac` on empty input, because `np.polyfit`
  (DAC_analysis.py:53) rejects it first; the fit is not part of this model.
- When no pair crosses `I_half`, the script fails later with an unbound-name
  fault when it uses `HVL_cm` (Mass_abs_coeff_AL.py:43); the model returns
  `Err(NoCrossing)`.

## Model

| member | source | states |
|---|---|---|
| DacAnalysis.Codes | DAC_analysis.py:11 | `arange(0, k)`: exactly k codes, the i-th being i |
| DacAnalysis.Lsb | DAC_analysis.py:50 | Vref is exactly 2^n LSB steps; the LSB is positive when Vref is |
| DacAnalysis.ExpectedOutput | DAC_analysis.py:35-36 | the ideal output for code d is minus two LSB steps per code |
| DacAnalysis.ExpectedCurve | DAC_analysis.py:38-39 | the expected sequence has one ideal output per code, in order |
| DacAnalysis.ExpectedAtZero | DAC_analysis.py:35-36 | code 0 maps to 0 V for every width and reference |
| DacAnalysis.ExpectedLinear | DAC_analysis.py:36 | expected(d) = d * expected(1) |
| DacAnalysis.ExpectedStep | DAC_analysis.py:36 | consecutive codes differ by exactly 2 LSB, downwards |
| DacAnalysis.ExpectedStrictlyDecreasing | DAC_analysis.py:36 | with Vref > 0 a larger code gives a strictly lower output |
| DacAnalysis.ExpectedCurveMonotonic | DAC_analysis.py:36 | the ideal curve over increasing codes passes the monotonicity check |
| DacAnalysis.ErrorVector | DAC_analysis.py:48 | the error has the measurement's length and observed[i] = expected[i] + error[i] |
| DacAnalysis.SumOfSquares | DAC_analysis.py:49 | a sum of squares is never negative |
| DacAnalysis.SumOfSquaresZeroIff | DAC_analysis.py:49 | a sum of squares is zero iff every sample is zero |
| DacAnalysis.SquareSign | DAC_analysis.py:49 | a squared error is non-negative, and positive unless the error is zero |
| DacAnalysis.MeanSquare | DAC_analysis.py:49 | no value for an empty error; otherwise non-negative, and zero iff every error is zero |
| DacAnalysis.MeanSquareZeroIff | DAC_analysis.py:48-49 | for a non-empty measurement the mean squared error is zero iff observed equals expected |
| DacAnalysis.Diff | DAC_analysis.py:63 | `np.diff`: one element fewer (none for length 0 or 1), each sample is its predecessor plus the difference |
| DacAnalysis.AllNegative | DAC_analysis.py:63 | `all(x < 0)` holds iff every element is negative (vacuously for none) |
| DacAnalysis.Monotonic | DAC_analysis.py:63 | the flag holds iff observed[i+1] < observed[i] for every consecutive pair |
| DacAnalysis.MonotonicIffStrictlyDecreasing | DAC_analysis.py:63 | the flag holds iff the whole measurement strictly decreases; always for length 0 or 1 |
| DacAnalysis.DecreasingBetween | DAC_analysis.py:63 | consecutive decrease carries over to any earlier/later pair of samples |
| DacAnalysis.AnalyzeDac | DAC_analysis.py:47-66 | the report's error, mean squared error (absent iff empty, zero iff exact match), LSB and monotonic flag (iff strictly decreasing) |
| DacAnalysis.ThreeBitExpected | DAC_analysis.py:110 | Vref = 5, n = 3: LSB 0.625 V and expected [0, -1.25, ..., -8.75] |
| DacAnalysis.ThreeBitErrors | DAC_analysis.py:14-15 | the recorded 3-bit errors against the ideal curve, sample by sample |
| DacAnalysis.ThreeBitSumOfSquares | DAC_analysis.py:49 | the squared 3-bit errors sum to 0.224741 |
| DacAnalysis.ThreeBitMonotonic | DAC_analysis.py:119 | the recorded 3-bit measurement is monotonic |
| DacAnalysis.ThreeBitReport | DAC_analysis.py:114-119 | 3-bit run: LSB 0.625, monotonic, mean squared error 0.028092625, whose root prints as 0.1676 |
| DacAnalysis.FourBitExpected | DAC_analysis.py:111-112 | Vref = 5, n = 4: LSB 0.3125 V and expected [0, -0.625, ..., -9.375] |
| DacAnalysis.FourBitErrors | DAC_analysis.py:23-27 | the recorded 4-bit errors against the ideal curve, sample by sample |
| DacAnalysis.FourBitSumOfSquares | DAC_analysis.py:49 | the squared 4-bit errors sum to 0.574911 |
| DacAnalysis.FourBitMonotonic | DAC_analysis.py:126 | the recorded 4-bit measurement is monotonic |
| DacAnalysis.FourBitReport | DAC_analysis.py:121-126 | 4-bit run: LSB 0.3125, monotonic, mean squared error 0.0359319375, whose root prints as 0.1896 |
| MassAttenuation.NetCounts | Nucler_lab/Exp-3/MCA/Mass_abs_coeff_AL.py:10 | same length; each net count plus the background 1555 is the gross count |
| MassAttenuation.HalfCount | Nucler_lab/Exp-3/MCA/Mass_abs_coeff_AL.py:20-21 | twice the half count is I0 |
| MassAttenuation.CrossingDescends | Nucler_lab/Exp-3/MCA/Mass_abs_coeff_AL.py:28 | a pair passing the test `Counts[i] >= I_half and Counts[i+1] <= I_half` never rises, and is flat iff both counts equal I_half |
| MassAttenuation.FirstCrossing | Nucler_lab/Exp-3/MCA/Mass_abs_coeff_AL.py:27-36 | the result is a crossing with none before it (from the start position), or none exists |
| MassAttenuation.FirstCrossingIs | Nucler_lab/Exp-3/MCA/Mass_abs_coeff_AL.py:27-36 | a crossing with no earlier crossing is the one the scan selects |
| MassAttenuation.Interpolate | Nucler_lab/Exp-3/MCA/Mass_abs_coeff_AL.py:35 | interpolation fails, as a division by zero, exactly when the two counts are equal |
| MassAttenuation.InterpolateOnLine | Nucler_lab/Exp-3/MCA/Mass_abs_coeff_AL.py:35 | the interpolated point lies on the line through the two samples |
| MassAttenuation.InterpolateWithin | Nucler_lab/Exp-3/MCA/Mass_abs_coeff_AL.py:28-35 | for a downward crossing over x1 <= x2 the HVL lies in [x1, x2]; it is x1 when y1 = I_half and x2 when y2 = I_half |
| MassAttenuation.HalfValueLayer | Nucler_lab/Exp-3/MCA/Mass_abs_coeff_AL.py:27-36 | "not found" iff no pair crosses; the only other failure is the flat pair |
| MassAttenuation.HalfValueLayerAtFirstCrossing | Nucler_lab/Exp-3/MCA/Mass_abs_coeff_AL.py:27-36 | the HVL is the interpolation at the first crossing; it fails iff both counts of that pair equal I_half |
| MassAttenuation.HalfValueLayerWithin | Nucler_lab/Exp-3/MCA/Mass_abs_coeff_AL.py:27-35 | over non-decreasing thicknesses the HVL lies inside the first crossing interval |
| MassAttenuation.FindHvl | Nucler_lab/Exp-3/MCA/Mass_abs_coeff_AL.py:27-36 | the loop with break returns the first-crossing interpolation, and "not found" iff no pair crosses |
| MassAttenuation.LinearCoefficient | Nucler_lab/Exp-3/MCA/Mass_abs_coeff_AL.py:43 | mu * HVL = ln 2; mu > 0 for a positive HVL |
| MassAttenuation.MassCoefficient | Nucler_lab/Exp-3/MCA/Mass_abs_coeff_AL.py:44 | mu_mass * rho = mu; mu_mass is positive iff mu is |
| MassAttenuation.AnalyzeAttenuation | Nucler_lab/Exp-3/MCA/Mass_abs_coeff_AL.py:10-44 | each failure of the script as an error, and otherwise I0, I_half, the first-crossing HVL, mu and mu_mass with their defining relations |
| MassAttenuation.AluminiumHalfValueLayer | Nucler_lab/Exp-3/MCA/Mass_abs_coeff_AL.py:76-78 | recorded run: I0 = 27032, I_half = 13516, crossing at 3.0-3.5 cm, HVL = 3 + 1171/2828, within 1e-9 of the printed 3.414073550212164 |
| MassAttenuation.AluminiumCoefficients | Nucler_lab/Exp-3/MCA/Mass_abs_coeff_AL.py:79-80 | with ln 2 to ten decimals, mu and mu_mass are within 1e-9 of the printed 0.20302643465805545 and 0.07519497579927979 |
| MassAttenuation.ThreeSampleHalfValueLayer | Nucler_lab/Exp-3/MCA/Mass_abs_coeff_AL.py:27-36 | counts 100, 80, 40 at 0, 1, 2 cm give HVL 1.75 cm |

## Left out

- Plotting (`matplotlib` figures, `savefig`) and all printing: output only.
- The straight-line fit (`np.polyfit`/`np.polyval`, DAC_analysis.py:53-54) and the slope and intercept it reports: the fit is a library call that is not part of this model. With it goes the fault the fit raises on an empty measurement; the model reports the empty case through `MeanSquare` instead.
- The square root of the RMS error (DAC_analysis.py:49): the model stops at the mean square. The worked examples bound the mean square between the squares of the printed value's rounding limits instead.
- `np.log(2)`: it is the parameter `ln2`. Positivity lemmas assume `ln2 > 0`, and the recorded-run lemma assumes ten correct decimals.
- Floating-point rounding and nan/inf: all values are exact reals. Each nan or inf outcome of the script is an explicit `None` or `Err`.
- The hard-coded measurement arrays appear only as data in the worked-example lemmas.
- The module-level `Vref` that `analyze_dac` reads as a global is a parameter of `AnalyzeDac`.
- The "mm" label printed beside a value in cm (Nucler_lab/Exp-3/MCA/Mass_abs_coeff_AL.py:51) is print-only.
- `Solid State/Analysis.py`, the solar-cell I-V script, is not part of this model.
- DacAnalysis.ErrorVector: requires equal lengths. numpy would also broadcast a length-1 operand, and it raises an error for other mismatches. Both call sites pass equal lengths.
- MassAttenuation.FindHvl: requires at least as many thicknesses as counts. The script also accepts a longer thickness array, which the model allows too. It reads `Thickness_cm[i+1]` only at a crossing, so a shorter array faults only when the crossing reaches past its end; the model does not capture that fault.
- MassAttenuation.HalfValueLayer: requires at least as many thicknesses as counts, for the same reason as `FindHvl`.
- MassAttenuation.AnalyzeAttenuation: requires at least as many thicknesses as gross counts, for the same reason as `FindHvl`.
