# Hydrostatic plate simulator: a Dafny model of its physics-to-pixels pipeline

The simulator takes five fields from the user: fluid density ρ, gravity g, plate height h, plate area A, and a sample count. It computes the hydrostatics of a vertical rectangular plate whose top edge is at the free surface, and draws a diagram: the fluid column, grid lines, one pressure bar per sample row with depth and pressure labels, a wall, and a force arrow at the centre of pressure. Everything happens inside `draw()` in `script.js`. This project models that function without the page and the canvas. It takes the parsed fields, the canvas size and the pixel ratio, and returns the readouts and the coordinates that `draw()` would write and paint.

Modules, in pipeline order:

- `JsMath` (`js_math.dfy`): `Math.round` and `Math.ceil` over exact reals, plus min and max.
- `Inputs` (`inputs.dfy`): the `x || d` fallback applied to each field.
- `Physics` (`physics.dfy`): the following quantities.
  - Pressure at depth, P0 + ρ·g·depth with P0 = 101325 Pa.
  - Centroid depth h/2.
  - Force ρ·g·(h/2)·A.
  - Base pressure.
  - Centre of pressure hc + (A·h²/12)/(hc·A), guarded by h > 0 and A > 0.
- `Format` (`format.dfy`): `formatNumber` and the three readouts.
- `Layout` (`layout.dfy`): the following geometry.
  - The fluid rectangle.
  - The grid-line loop, modelled as the method `GridLines`.
  - The bar loop, modelled as the method `BarRows`. It builds one `Row` per sample under loop invariants and is tied to the function `RowAt`.
  - The wall.
  - The force arrow.
- `Draw` (`draw.dfy`): the whole pipeline as one method.

All numbers are `real`. `Math.round(x)` is `⌊x + 0.5⌋`, which is its exact meaning on finite reals. `parseFloat` and `parseInt` are not modelled: a field arrives as `Option<real>` or `Option<int>`, and `None` stands for NaN. The digit strings that `toFixed(2)` and number-to-string print are not modelled either. A readout keeps the value its digits stand for (a whole number of hundredths, in thousands in the fixed form), whether it is printed with two fixed decimals or in plain form, and its suffix.

Three places where the code does less than the physics or the layout would suggest; the model follows the code:

- Without fluid (ρ = 0) there is no pressure gradient, so physically the centre of pressure should equal the centroid. The code's guard tests only h and A. So with h > 0 and A > 0 the code still puts the centre of pressure at 2h/3 (`Physics.NoFluid`).
- A wall placed after the measured width of the longest pressure label would always clear that label. The code measures no text and uses a fixed offset instead: the longest bar, plus 80·dpr, plus 20·dpr. The model uses the fixed offset. It bounds where each label starts, not where it ends. On the longest bar the pressure text starts exactly 20·dpr before the wall (`Layout.LastRow`).
- The arrow length is `min(maxVis, F / max(1, ρ·g·h·A) · maxVis)`. Since F = ρ·g·h·A/2, the length is maxVis/2 whenever ρ·g·h·A ≥ 1, whatever the force (`Layout.ArrowLength`, `Layout.ArrowLengthSaturates`). Below 1 it is ρ·g·h·A·maxVis/2.

## Model

| member | source | states |
|---|---|---|
| `JsMath.Round` | script.js:39 | the result is the integer nearest x, a half rounding up: x − ½ < r ≤ x + ½ |
| `JsMath.Ceil` | script.js:123 | the result is the least integer not below x |
| `Inputs.OrDefault` | script.js:44-47 | the result is 0 iff the default is 0 and the parse failed or gave 0; a result that differs from the default is the parsed value; a non-zero parse is kept |
| `Inputs.OrDefaultInt` | script.js:48 | the same fallback rule over integers |
| `Inputs.Normalise` | script.js:44-48 | each field is its own `x \|\| d` fallback (`OrDefault`, with default 0 for ρ, h, A, 9.81 for g and 30 for steps); hence afterwards g ≠ 0 and steps ≠ 0, so no later division by them fails; ρ, h, A are 0 exactly when their field failed to parse or was 0; g and steps differ from 9.81 and 30 only when the field gave that value |
| `Inputs.NormaliseKeepsParses` | script.js:44-48 | every field that parsed to a non-zero number keeps that number |
| `Inputs.NormaliseIdempotent` | script.js:44-48 | feeding normalised values back through the fallback changes nothing |
| `Inputs.NormaliseFixesNormalised` | script.js:44-48 | the fallback leaves a parameter set alone exactly when g ≠ 0 and steps ≠ 0 |
| `Physics.CentreOfPressure` | script.js:58-69 | when h > 0 and A > 0, yp = 2h/3 > h/2 (the guarded division is well defined); otherwise yp = h/2 |
| `Physics.CorrectionTerm` | script.js:63-68 | on the guarded path hc·A > 0, and (A·h²/12)/(hc·A) = h/6 |
| `Physics.SecondMoment` | script.js:65 | `A·h²/12`; no contract of its own: `CorrectionTerm` proves that divided by hc·A it is h/6, and `CentreOfPressure` that it moves yp to 2h/3 |
| `Physics.Solve` | script.js:50-69 | 2·hc = h; Pbase = P0 + ρ·g·h; F = (Pbase − P0)·A/2; when h > 0 and A > 0, yp = 2h/3 > hc, otherwise yp = hc |
| `Physics.PressureAt` | script.js:51 | `P0 + ρ·g·depth`; no contract of its own: `SurfacePressure`, `PressureMonotone` and `GaugeLinear` state that it is P0 at the surface, non-decreasing in depth when ρ·g ≥ 0, and linear in depth |
| `Physics.SurfacePressure` | script.js:50-51 | pressureAt(0) = P0 |
| `Physics.PressureMonotone` | script.js:51 | pressure does not decrease with depth when ρ·g ≥ 0 |
| `Physics.GaugeLinear` | script.js:51 | gauge pressure at frac·h is frac times the gauge pressure at h |
| `Physics.ForceIsMeanGaugePressureTimesArea` | script.js:54-56 | F is the mean of the top and bottom gauge pressures times A, and is the gauge pressure at the centroid times A |
| `Physics.DegeneratePlate` | script.js:54-69 | h = 0 gives yp = 0, F = 0 and Pbase = P0 |
| `Physics.ZeroAreaPlate` | script.js:54-63 | A = 0 gives F = 0 and yp = hc |
| `Physics.NoFluid` | script.js:54-69 | ρ = 0 gives Pbase = P0 and F = 0; with h > 0 and A > 0, yp is still 2h/3 ≠ hc |
| `Format.UnitText` | script.js:37-39 | `unit \|\| ''`: a missing unit is the empty string; no contract of its own, `FormatNumber` and `FormatExamples` state the suffixes it gives |
| `Format.ToFixed2` | script.js:37 | the result is a whole number of hundredths, the one nearest v, a tie going away from zero: v − 0.005 < t ≤ v + 0.005 for v ≥ 0 and v − 0.005 ≤ t < v + 0.005 for v < 0 |
| `Format.FormatNumber` | script.js:35-40 | the kilo form is taken iff \|x\| ≥ 1000; it then prints x/1000 rounded to a whole number of hundredths, a tie going away from zero, with the suffix " k"+unit; otherwise it prints x rounded to a whole number of hundredths, a tie going up, with the suffix " "+unit; a missing unit is empty |
| `Format.FormatCloseToValue` | script.js:35-40 | the value a readout stands for is within 0.005 of x below 1000 in magnitude, and within 5 of x from 1000 on |
| `Format.FormatExactOnHundredths` | script.js:39 | a whole number of hundredths below 1000 in magnitude is printed unchanged |
| `Format.PlainCanShowThousand` | script.js:36-39 | 999.996 takes the plain form yet prints 1000 |
| `Format.FormatExamples` | script.js:35-40 | 999.4 → 999.4 " Pa"; 1500 → 1.5 in the fixed form with " kN"; −2000 → −2 in the fixed form with " k"; 1234.567 → 1.23 in the fixed form |
| `Format.RoundedShown` | script.js:72-73 | a value first rounded to an integer n is shown as exactly n when \|n\| < 1000, and within 5.5 of the unrounded value otherwise |
| `Format.ReadoutsOf` | script.js:72-75 | the three readouts are `formatNumber(Math.round(Pbase), 'Pa')`, `formatNumber(Math.round(F), 'N')` and `formatNumber(yp, 'm')`; as corollaries, each suffix is the kilo one (kPa, kN, km) exactly when the rounded Pbase, the rounded F, or yp is at least 1000 in magnitude, a plain pressure or force readout is `Math.round` of the value, pressure and force readouts are within ½ (plain) or 5.5 (kilo) of Pbase and F, and the yp readout is within 0.005 (plain) or 5 (kilo) of yp |
| `Layout.FrameOf` | script.js:86-147 | the frame's pixel ratio is the dpr given; fluid at (32·dpr, 32·dpr); widths within ½ of 0.45·W and 0.28·W; height within ½ of H − 64·dpr; wall width within ½ of 0.12·W; all widths non-negative; the wall starts maxBarWidth + 100·dpr after the fluid; maxVis = 220·dpr |
| `Layout.GridCount` | script.js:102 | the count is between 10 and 80, and is steps itself when steps is in that range |
| `Layout.GridY` | script.js:104 | `fluidTop + (i/n)·fluidHeight`; no contract of its own: `GridStep` and `GridInsideFluid` state that the lines are fluidHeight/n apart and lie on the fluid |
| `Layout.GridLines` | script.js:102-106 | emits clamp(steps, 10, 80) lines; the first is at fluidTop; consecutive lines are fluidHeight/n apart; with a positive fluid height every line lies in [fluidTop, fluidTop + fluidHeight) |
| `Layout.GridStep` | script.js:104 | consecutive grid lines are fluidHeight/n apart |
| `Layout.GridInsideFluid` | script.js:103-105 | every grid line lies on the fluid rectangle |
| `Layout.LabelEvery` | script.js:123 | the label period k ≥ 1 satisfies 6(k − 1) < steps ≤ 6k |
| `Layout.RowAt` | script.js:112-127 | row i of the bar loop; no contract of its own: `BarRows` is proved equal to it row by row, and `RelativePressure`, `BarWidthBounds`, `BarClearsWall`, `PressureLabelBeforeWall`, `FirstRow`, `LastRow`, `RowsEvenlySpaced`, `BarsMonotone` and `LabelsSparse` state its properties |
| `Layout.BarRows` | script.js:111-129 | emits steps + 1 rows (none for negative steps), row i being `RowAt(i)`; every relative pressure is in [0, 1]; every bar ends before the wall |
| `Layout.Relative` | script.js:116 | `(P − P0)/(ρ·g·h \|\| 1)`; no contract of its own: `RelativeValue` states that it is the depth fraction when ρ·g·h ≠ 0 and 0 otherwise |
| `Layout.RelativeValue` | script.js:114-116 | the normalised pressure is the depth fraction when ρ·g·h ≠ 0, and 0 when ρ·g·h = 0 |
| `Layout.RelativePressure` | script.js:112-116 | for 0 ≤ i ≤ steps, rel = i/steps when ρ·g·h ≠ 0 and 0 otherwise; rel ∈ [0, 1] |
| `Layout.BarWidth` | script.js:117 | `max(4·dpr, rel·maxBarWidth)`; no contract of its own: `BarWidthRange` and `BarWidthMonotone` state its bounds and its monotonicity in rel |
| `Layout.BarWidthRange` | script.js:117 | for rel in [0, 1] the bar is between 4·dpr and max(4·dpr, maxBarWidth) |
| `Layout.BarWidthBounds` | script.js:111-117 | each bar is ≥ 4·dpr, and ≤ maxBarWidth when maxBarWidth ≥ 4·dpr |
| `Layout.BarClearsWall` | script.js:117-137 | fluidLeft + fluidWidth + 10·dpr + barW < wallX for every row |
| `Layout.PressureLabelBeforeWall` | script.js:126-137 | the pressure text starts at or before wallX − 20·dpr iff its bar is at most maxBarWidth, which always holds when maxBarWidth ≥ 4·dpr; the depth text starts before the pressure text |
| `Layout.LastRow` | script.js:111-137 | the last row is at the fluid's bottom, depth h, pressure Pbase; when ρ·g·h ≠ 0 and maxBarWidth ≥ 4·dpr, its bar is maxBarWidth and its pressure text starts exactly 20·dpr before the wall |
| `Layout.FirstRow` | script.js:111-127 | the first row is at fluidTop, depth 0, pressure P0, and is labelled |
| `Layout.RowsEvenlySpaced` | script.js:112-113 | consecutive rows are fluidHeight/steps apart |
| `Layout.BarsMonotone` | script.js:112-117 | bars never get shorter further down |
| `Layout.BarWidthMonotone` | script.js:117 | a larger relative pressure never gives a shorter bar |
| `Layout.LabelsSparse` | script.js:123 | of the steps + 1 rows exactly ⌊steps/k⌋ + 1 carry labels, k = ⌈steps/6⌉, and that is at most 7 |
| `Layout.LabelledCountValue` | script.js:123 | among rows 0 … n−1 the labelled ones number ⌈n/k⌉, the multiples of k = ⌈steps/6⌉ |
| `Layout.ArrowRow` | script.js:145 | the arrow row is fluidTop + ⅔·fluidHeight when h > 0 and A > 0, fluidTop when h = 0, and mid-height for any other non-zero h |
| `Layout.ArrowLength` | script.js:147-148 | the length is ≤ maxVis/2 < maxVis; it is exactly maxVis/2 when ρ·g·h·A ≥ 1, and ρ·g·h·A·maxVis/2 otherwise |
| `Layout.ArrowOf` | script.js:145-170 | the arrow sits at `ArrowRow`, the pixel row of yp, with length `ArrowLength`; it starts 8·dpr right of the wall's right edge; its length is at most maxVis/2; its label sits 6·dpr past the tip and 10·dpr above it; the label shows the rounded force |
| `Layout.ArrowLengthSaturates` | script.js:148 | any two inputs with ρ·g·h·A ≥ 1 get arrows of the same length |
| `Draw.Draw` | script.js:42-148 | the scene is the normalised inputs, their hydrostatics, readouts, frame and arrow; it has GridCount(steps) grid lines, line i at `GridY(i)`, and steps + 1 rows, row i being `RowAt(i)`; every bar ends before the wall; the arrow starts right of the wall and is at most maxVis/2 long; the last row's pressure is Pbase |
| `Draw.WorkedExample` | script.js:50-75 | ρ = 1000, g = 9.81, h = 2, A = 1 give hc = 1, Pbase = 120945, F = 9810, yp = 4/3, and the readouts 120.95 kPa (over exact reals), 9.81 kN and 1.33 m |

## Left out

- Page wiring is not modelled (script.js:3-20, 76-78). This covers DOM lookups, the `textContent` writes, the parameter summary string and the interpretation sentence. The model returns the readouts instead.
- Event handling is not modelled (script.js:22-33, 180, 197-206): listeners, the 150 ms debounce, resize handling and the initial timer. The canvas size and `devicePixelRatio || 1` are plain inputs. The pixel ratio is required to be positive, as browsers report it.
- Clipboard copy and PNG export are not modelled (script.js:181-195). They are browser APIs with asynchronous I/O.
- The paint calls themselves are not modelled: gradient, colours, `fillRect` and stroke calls, fonts, the arrow-head triangle and the two title texts (script.js:94-98, 139-142, 150-176). Only the coordinates handed to bars, labels, wall and arrow are modelled. A bar's vertical extent is also left out: it runs from y − 4·dpr and is 8·dpr tall.
- Label width is not modelled, because the code never measures text. The right edge of a label is therefore not bounded, and only where it starts is modelled.
- IEEE-754 behaviour is not modelled: NaN, infinities, rounding of intermediate results, and `-0` from `Math.round`. All arithmetic is exact over reals. Parsing is given: `None` stands for a NaN parse, and an infinite parse is not representable.
- Format.FormatNumber: states the value of the digits printed and the suffix, not the character string that `toFixed(2)` or number-to-string conversion produce.
- Format.ReadoutsOf: states the value each readout's digits stand for and its suffix, not the character string, for the same reason.
- Format.ToFixed2: rounds the exact quotient. `toFixed(2)` works on the nearest double, so on an exact tie such as 120.945 the browser may print 120.94 where the model gives 120.95.
