/**
 * The geometry `draw()` hands to the canvas (script.js:86-148): the fluid
 * rectangle, the grid lines, one pressure bar per sample row with its
 * labels, the wall and the force arrow. Only coordinates are modelled;
 * colours, fonts and the paint calls themselves are not.
 */
module Layout {
  import opened JsMath
  import opened Inputs
  import opened Physics

  /** The fixed regions of the diagram, in device pixels. */
  datatype Frame = Frame(
    dpr: real,
    fluidLeft: real, fluidTop: real, fluidWidth: real, fluidHeight: real,
    maxBarWidth: real,
    wallX: real, wallWidth: real,
    maxVis: real)

  /** What every frame built by `FrameOf` satisfies and the lemmas below rely on. */
  predicate FrameInvariant(f: Frame) {
    && f.dpr > 0.0
    && f.fluidWidth >= 0.0 && f.maxBarWidth >= 0.0 && f.wallWidth >= 0.0
    && f.wallX == f.fluidLeft + f.fluidWidth + f.maxBarWidth + 100.0 * f.dpr
    && f.maxVis == 220.0 * f.dpr
  }

  /**
   * script.js:86-90, 109, 134-138, 147 for a canvas of `width` × `height`
   * device pixels at pixel ratio `dpr`. The wall starts after the fluid,
   * the longest bar, 80·dpr of label offset and a 20·dpr margin.
   */
  function FrameOf(width: nat, height: nat, dpr: real): (f: Frame)
    requires dpr > 0.0
    ensures f.dpr == dpr
    ensures FrameInvariant(f)
    ensures f.fluidLeft == f.fluidTop == 32.0 * dpr
    ensures -0.5 < f.fluidWidth - 0.45 * width as real <= 0.5
    ensures -0.5 < f.maxBarWidth - 0.28 * width as real <= 0.5
    ensures -0.5 < f.fluidHeight - (height as real - 64.0 * dpr) <= 0.5
    ensures -0.5 < f.wallWidth - 0.12 * width as real <= 0.5
  {
    var pad := 32.0 * dpr;
    var fluidWidth := Round(width as real * 0.45) as real;
    var maxBarWidth := Round(width as real * 0.28) as real;
    RoundNonNegative(width as real * 0.45);
    RoundNonNegative(width as real * 0.28);
    RoundNonNegative(width as real * 0.12);
    Frame(
      dpr,
      pad, pad, fluidWidth, Round(height as real - pad * 2.0) as real,
      maxBarWidth,
      pad + fluidWidth + (maxBarWidth + 80.0 * dpr + 20.0 * dpr), Round(width as real * 0.12) as real,
      220.0 * dpr)
  }

  // ---------------------------------------------------------------- grid

  /** `Math.min(80, Math.max(10, steps))`: the number of grid lines. */
  function GridCount(steps: int): (n: int)
    ensures 10 <= n <= 80
    ensures 10 <= steps <= 80 ==> n == steps
    ensures steps < 10 ==> n == 10
    ensures steps > 80 ==> n == 80
  {
    Min(80, Max(10, steps))
  }

  /** Row of grid line `i` out of `n` spread over the fluid height. */
  function GridY(f: Frame, n: int, i: int): real
    requires n > 0
  {
    f.fluidTop + (i as real / n as real) * f.fluidHeight
  }

  /** The grid-line loop of script.js:102-106; each line is fluidWidth × 1 at `fluidLeft`. */
  method GridLines(f: Frame, steps: int) returns (ys: seq<real>)
    ensures |ys| == GridCount(steps)
    ensures forall i :: 0 <= i < |ys| ==> ys[i] == GridY(f, |ys|, i)
    ensures ys[0] == f.fluidTop
    ensures forall i :: 0 <= i < |ys| - 1 ==> ys[i + 1] - ys[i] == f.fluidHeight / |ys| as real
    ensures f.fluidHeight > 0.0 ==>
              forall i :: 0 <= i < |ys| ==> f.fluidTop <= ys[i] < f.fluidTop + f.fluidHeight
  {
    var lines := GridCount(steps);
    ys := [];
    var i := 0;
    while i < lines
      invariant 0 <= i <= lines
      invariant |ys| == i
      invariant forall k :: 0 <= k < i ==> ys[k] == GridY(f, lines, k)
    {
      ys := ys + [f.fluidTop + (i as real / lines as real) * f.fluidHeight];
      i := i + 1;
    }
    forall k | 0 <= k < |ys| - 1
      ensures ys[k + 1] - ys[k] == f.fluidHeight / |ys| as real
    {
      GridStep(f, lines, k);
    }
    forall k | 0 <= k < |ys| && f.fluidHeight > 0.0
      ensures f.fluidTop <= GridY(f, lines, k) < f.fluidTop + f.fluidHeight
    {
      GridInsideFluid(f, lines, k);
    }
  }

  /** Consecutive grid lines are one n-th of the fluid height apart. */
  lemma GridStep(f: Frame, n: int, i: int)
    requires n > 0
    ensures GridY(f, n, i + 1) - GridY(f, n, i) == f.fluidHeight / n as real
  {
    assert (i + 1) as real / n as real == i as real / n as real + 1.0 / n as real;
  }

  /** Every one of n grid lines lies on the fluid: at or below its top, above its bottom. */
  lemma GridInsideFluid(f: Frame, n: int, k: int)
    requires n > 0 && 0 <= k < n && f.fluidHeight > 0.0
    ensures f.fluidTop <= GridY(f, n, k) < f.fluidTop + f.fluidHeight
  {
    var q := k as real / n as real;
    assert 0.0 <= q < 1.0;
    assert q * f.fluidHeight < 1.0 * f.fluidHeight;
  }

  // ---------------------------------------------------------------- bars

  /** `Math.ceil(steps / 6)`: every this-many-th row carries labels. */
  function LabelEvery(steps: int): (k: int)
    requires steps > 0
    ensures k >= 1
    ensures 6 * (k - 1) < steps <= 6 * k
  {
    Ceil(steps as real / 6.0)
  }

  /** One sample row of the pressure profile. */
  datatype Row = Row(
    y: real,               // canvas row of the sample
    depth: real,           // depth below the surface, m
    pressure: real,        // absolute pressure there, Pa
    rel: real,             // gauge pressure relative to the gauge base pressure
    barX: real,            // left end of the bar
    barWidth: real,
    labelled: bool,        // whether depth and pressure are written next to the bar
    depthLabelX: real,     // where the depth text starts
    pressureLabelX: real,  // where the pressure text starts
    pressureText: int)     // the whole pascals that text shows

  /**
   * `(P − P0) / (ρ·g·h || 1)` for the pressure P at fraction `frac` of the
   * plate's height: gauge pressure relative to the gauge base pressure.
   */
  function Relative(p: Params, frac: real): real {
    var gaugeBase := p.rho * p.g * p.h;
    (PressureAt(p.rho, p.g, frac * p.h) - P0) / (if gaugeBase != 0.0 then gaugeBase else 1.0)
  }

  /** `Math.max(4·dpr, rel · maxBarWidth)`. */
  function BarWidth(f: Frame, rel: real): real {
    MaxReal(4.0 * f.dpr, rel * f.maxBarWidth)
  }

  /** Row `i` of the loop at script.js:111-129. */
  function RowAt(f: Frame, p: Params, i: int): Row
    requires p.steps > 0
  {
    var frac := i as real / p.steps as real;
    var depth := frac * p.h;
    var pressure := PressureAt(p.rho, p.g, depth);
    var barWidth := BarWidth(f, Relative(p, frac));
    var right := f.fluidLeft + f.fluidWidth;
    Row(
      f.fluidTop + frac * f.fluidHeight, depth, pressure, Relative(p, frac),
      right + 10.0 * f.dpr, barWidth,
      i % LabelEvery(p.steps) == 0,
      right + barWidth + 16.0 * f.dpr, right + barWidth + 80.0 * f.dpr,
      Round(pressure))
  }

  /**
   * The bar loop of script.js:111-129: one row for each i in 0..steps
   * (none when steps is negative). Every bar ends short of the wall.
   */
  method BarRows(f: Frame, p: Params) returns (rows: seq<Row>)
    requires p.steps != 0
    requires FrameInvariant(f)
    ensures |rows| == if p.steps > 0 then p.steps + 1 else 0
    ensures forall i :: 0 <= i < |rows| ==> rows[i] == RowAt(f, p, i)
    ensures forall i :: 0 <= i < |rows| ==>
              0.0 <= rows[i].rel <= 1.0 && rows[i].barX + rows[i].barWidth < f.wallX
  {
    rows := [];
    var i := 0;
    while i <= p.steps
      invariant 0 <= i && (p.steps > 0 ==> i <= p.steps + 1)
      invariant i > 0 ==> p.steps > 0
      invariant |rows| == i
      invariant forall k :: 0 <= k < i ==> rows[k] == RowAt(f, p, k)
      invariant forall k :: 0 <= k < i ==>
                  0.0 <= rows[k].rel <= 1.0 && rows[k].barX + rows[k].barWidth < f.wallX
    {
      var frac := i as real / p.steps as real;
      var y := f.fluidTop + frac * f.fluidHeight;
      var depth := frac * p.h;
      var pressure := PressureAt(p.rho, p.g, depth);
      var rel := Relative(p, frac);
      var barWidth := BarWidth(f, rel);
      var right := f.fluidLeft + f.fluidWidth;
      var labelled := i % LabelEvery(p.steps) == 0;
      var row := Row(y, depth, pressure, rel, right + 10.0 * f.dpr, barWidth, labelled,
                     right + barWidth + 16.0 * f.dpr, right + barWidth + 80.0 * f.dpr,
                     Round(pressure));
      assert row == RowAt(f, p, i);
      RelativePressure(f, p, i);
      BarClearsWall(f, p, i);
      rows := rows + [row];
      i := i + 1;
    }
  }

  /** Relative pressure is the depth fraction itself when ρ·g·h ≠ 0, and 0 when it is 0. */
  lemma RelativeValue(p: Params, frac: real)
    ensures Relative(p, frac) == if p.rho * p.g * p.h != 0.0 then frac else 0.0
  {
    var gaugeBase := p.rho * p.g * p.h;
    var gauge := PressureAt(p.rho, p.g, frac * p.h) - P0;
    assert gauge == frac * gaugeBase by { GaugeLinear(p.rho, p.g, p.h, frac); }
    if gaugeBase != 0.0 {
      assert gauge / gaugeBase == frac;
    }
  }

  /**
   * The normalised pressure of a row is i/steps when ρ·g·h ≠ 0 and 0
   * otherwise; either way it lies in [0, 1].
   */
  lemma RelativePressure(f: Frame, p: Params, i: int)
    requires p.steps > 0 && 0 <= i <= p.steps
    ensures p.rho * p.g * p.h != 0.0 ==> RowAt(f, p, i).rel == i as real / p.steps as real
    ensures p.rho * p.g * p.h == 0.0 ==> RowAt(f, p, i).rel == 0.0
    ensures 0.0 <= RowAt(f, p, i).rel <= 1.0
  {
    RelativeValue(p, i as real / p.steps as real);
    FractionInUnitInterval(i, p.steps);
  }

  /** A bar for a relative pressure in [0, 1] is at least 4·dpr and at most the larger of 4·dpr and maxBarWidth. */
  lemma BarWidthRange(f: Frame, rel: real)
    requires FrameInvariant(f) && 0.0 <= rel <= 1.0
    ensures 4.0 * f.dpr <= BarWidth(f, rel) <= MaxReal(4.0 * f.dpr, f.maxBarWidth)
  {
    ScaleMonotone(rel, 1.0, f.maxBarWidth);
  }

  /** Each bar is at least 4·dpr long, and no longer than maxBarWidth once that is itself at least 4·dpr. */
  lemma BarWidthBounds(f: Frame, p: Params, i: int)
    requires FrameInvariant(f) && p.steps > 0 && 0 <= i <= p.steps
    ensures RowAt(f, p, i).barWidth >= 4.0 * f.dpr
    ensures f.maxBarWidth >= 4.0 * f.dpr ==> RowAt(f, p, i).barWidth <= f.maxBarWidth
  {
    RelativePressure(f, p, i);
    BarWidthRange(f, RowAt(f, p, i).rel);
  }

  /** No bar reaches the wall. */
  lemma BarClearsWall(f: Frame, p: Params, i: int)
    requires FrameInvariant(f) && p.steps > 0 && 0 <= i <= p.steps
    ensures RowAt(f, p, i).barX + RowAt(f, p, i).barWidth < f.wallX
  {
    RelativePressure(f, p, i);
    BarWidthRange(f, RowAt(f, p, i).rel);
  }

  /** i/n lies in [0, 1] for 0 <= i <= n. */
  lemma FractionInUnitInterval(i: int, n: int)
    requires 0 <= i <= n && n > 0
    ensures 0.0 <= i as real / n as real <= 1.0
  {
  }

  /**
   * The pressure text of a row starts at least 20·dpr before the wall
   * exactly when its bar is no longer than maxBarWidth, which is always so
   * once maxBarWidth ≥ 4·dpr.
   */
  lemma PressureLabelBeforeWall(f: Frame, p: Params, i: int)
    requires FrameInvariant(f) && p.steps > 0 && 0 <= i <= p.steps
    ensures RowAt(f, p, i).pressureLabelX <= f.wallX - 20.0 * f.dpr
            <==> RowAt(f, p, i).barWidth <= f.maxBarWidth
    ensures f.maxBarWidth >= 4.0 * f.dpr ==> RowAt(f, p, i).pressureLabelX <= f.wallX - 20.0 * f.dpr
    ensures RowAt(f, p, i).depthLabelX < RowAt(f, p, i).pressureLabelX
  {
    BarWidthBounds(f, p, i);
  }

  /**
   * The last row is at the plate's bottom edge and shows the base
   * pressure; when there is gauge pressure and room for it, its bar is the
   * longest possible one and its pressure text starts exactly 20·dpr before
   * the wall, so that text has no more room than that.
   */
  lemma LastRow(f: Frame, p: Params)
    requires FrameInvariant(f) && p.steps > 0
    ensures RowAt(f, p, p.steps).y == f.fluidTop + f.fluidHeight
    ensures RowAt(f, p, p.steps).depth == p.h
    ensures RowAt(f, p, p.steps).pressure == PressureAt(p.rho, p.g, p.h)
    ensures p.rho * p.g * p.h != 0.0 && f.maxBarWidth >= 4.0 * f.dpr ==>
              RowAt(f, p, p.steps).barWidth == f.maxBarWidth
              && RowAt(f, p, p.steps).pressureLabelX == f.wallX - 20.0 * f.dpr
  {
    RelativePressure(f, p, p.steps);
    DivSelf(p.steps as real);
  }

  lemma DivSelf(x: real)
    requires x != 0.0
    ensures x / x == 1.0
  {
  }

  /** The first row is at the surface, always labelled, and shows atmospheric pressure. */
  lemma FirstRow(f: Frame, p: Params)
    requires p.steps > 0
    ensures RowAt(f, p, 0).y == f.fluidTop && RowAt(f, p, 0).depth == 0.0
    ensures RowAt(f, p, 0).pressure == P0 && RowAt(f, p, 0).labelled
  {
  }

  /** Rows are evenly spaced, one steps-th of the fluid height apart. */
  lemma RowsEvenlySpaced(f: Frame, p: Params, i: int)
    requires p.steps > 0
    ensures RowAt(f, p, i + 1).y - RowAt(f, p, i).y == f.fluidHeight / p.steps as real
  {
    assert (i + 1) as real / p.steps as real == i as real / p.steps as real + 1.0 / p.steps as real;
  }

  /** Bars never get shorter further down: the profile is a monotone wedge. */
  lemma BarsMonotone(f: Frame, p: Params, i: int, j: int)
    requires FrameInvariant(f) && p.steps > 0 && 0 <= i <= j <= p.steps
    ensures RowAt(f, p, i).barWidth <= RowAt(f, p, j).barWidth
  {
    RelativePressure(f, p, i);
    RelativePressure(f, p, j);
    var ri, rj := RowAt(f, p, i).rel, RowAt(f, p, j).rel;
    assert ri <= rj by {
      if p.rho * p.g * p.h != 0.0 {
        FractionMonotone(i, j, p.steps);
      }
    }
    BarWidthMonotone(f, ri, rj);
  }

  /** A larger relative pressure never gives a shorter bar. */
  lemma BarWidthMonotone(f: Frame, x: real, y: real)
    requires FrameInvariant(f) && x <= y
    ensures BarWidth(f, x) <= BarWidth(f, y)
  {
    ScaleMonotone(x, y, f.maxBarWidth);
  }

  lemma FractionMonotone(i: int, j: int, n: int)
    requires i <= j && n > 0
    ensures i as real / n as real <= j as real / n as real
  {
  }

  lemma ScaleMonotone(x: real, y: real, c: real)
    requires x <= y && c >= 0.0
    ensures x * c <= y * c
  {
  }

  /**
   * Labels go on rows 0, k, 2k, … with k = ⌈steps/6⌉: of the steps + 1
   * rows, ⌊steps/k⌋ + 1 carry labels, and since steps ≤ 6k that is at most seven.
   */
  lemma LabelsSparse(f: Frame, p: Params)
    requires p.steps > 0
    ensures LabelledCount(f, p, p.steps + 1) == p.steps / LabelEvery(p.steps) + 1 <= 7
  {
    var k := LabelEvery(p.steps);
    var d := p.steps / k;
    assert p.steps == d * k + p.steps % k;
    assert (d + 1) * k == d * k + k;
    LabelledCountValue(f, p, p.steps + 1);
    DivUnique(p.steps + k, k, d + 1);
    MulGap(6, d, k);
  }

  /** How many of rows 0 .. n-1 carry labels. */
  function LabelledCount(f: Frame, p: Params, n: nat): nat
    requires p.steps > 0
  {
    if n == 0 then 0
    else LabelledCount(f, p, n - 1) + (if RowAt(f, p, n - 1).labelled then 1 else 0)
  }

  /** Among rows 0 .. n-1 the labelled ones are the multiples of k: ⌈n/k⌉ of them. */
  lemma {:induction false} LabelledCountValue(f: Frame, p: Params, n: nat)
    requires p.steps > 0
    ensures LabelledCount(f, p, n) == (n + LabelEvery(p.steps) - 1) / LabelEvery(p.steps)
  {
    var k := LabelEvery(p.steps);
    if n == 0 {
      DivUnique(k - 1, k, 0);
    } else {
      LabelledCountValue(f, p, n - 1);
      CeilStep(n - 1, k);
    }
  }

  /** ⌈(m + 1)/k⌉ exceeds ⌈m/k⌉ by one exactly when k divides m. */
  lemma CeilStep(m: nat, k: int)
    requires k >= 1
    ensures (m + k) / k == (m + k - 1) / k + (if m % k == 0 then 1 else 0)
  {
    var q, r := m / k, m % k;
    assert m == q * k + r;
    DivUnique(m + k, k, q + 1);
    if r == 0 {
      DivUnique(m + k - 1, k, q);
    } else {
      DivUnique(m + k - 1, k, q + 1);
    }
  }

  /** The quotient is pinned by the interval the dividend lies in. */
  lemma DivUnique(a: int, k: int, q: int)
    requires k >= 1 && q * k <= a < q * k + k
    ensures a / k == q
  {
    MulGap(q, a / k, k);
    MulGap(a / k, q, k);
  }

  /** Distinct multiples of k are at least k apart. */
  lemma MulGap(x: int, y: int, k: int)
    requires k >= 1
    ensures x < y ==> x * k + k <= y * k
  {
    if x < y {
      assert y * k - x * k == (y - x - 1) * k + k;
    }
  }

  // ---------------------------------------------------------------- arrow

  /** The force arrow: it starts 8·dpr right of the wall and points away from it. */
  datatype Arrow = Arrow(y: real, startX: real, length: real, labelX: real, labelY: real, forceText: int)

  /** The row of the centre of pressure: `fluidTop + (yp / (h || 1)) · fluidHeight` (script.js:145). */
  function ArrowRow(f: Frame, p: Params): (y: real)
    ensures p.h > 0.0 && p.area > 0.0 ==> y == f.fluidTop + 2.0 / 3.0 * f.fluidHeight
    ensures p.h == 0.0 ==> y == f.fluidTop
    ensures p.h != 0.0 && !(p.h > 0.0 && p.area > 0.0) ==> y == f.fluidTop + f.fluidHeight / 2.0
  {
    var yp := Solve(p).yp;
    var y := f.fluidTop + (yp / (if p.h != 0.0 then p.h else 1.0)) * f.fluidHeight;
    assert p.h != 0.0 ==> yp / p.h == if p.h > 0.0 && p.area > 0.0 then 2.0 / 3.0 else 0.5;
    y
  }

  /**
   * The arrow's length: `min(maxVis, F / max(1, ρ·g·h·A) · maxVis)`
   * (script.js:147-148). Since F = ρ·g·h·A/2, it is maxVis/2 for every
   * ρ·g·h·A ≥ 1 and ρ·g·h·A·maxVis/2 below that.
   */
  function ArrowLength(f: Frame, p: Params): (len: real)
    requires FrameInvariant(f)
    ensures len <= f.maxVis / 2.0 < f.maxVis
    ensures var q := p.rho * p.g * p.h * p.area;
            len == if q >= 1.0 then f.maxVis / 2.0 else q * f.maxVis / 2.0
  {
    var force := Solve(p).force;
    var q := p.rho * p.g * p.h * p.area;
    assert force == q / 2.0;
    if q >= 1.0 then
      assert force / MaxReal(1.0, q) == 0.5;
      MinReal(f.maxVis, force / MaxReal(1.0, q) * f.maxVis)
    else
      assert force / MaxReal(1.0, q) == q / 2.0;
      assert q / 2.0 * f.maxVis < 0.5 * f.maxVis;
      MinReal(f.maxVis, force / MaxReal(1.0, q) * f.maxVis)
  }

  /** The arrow and its "F = … N" label (script.js:145-170, coordinates only). */
  function ArrowOf(f: Frame, p: Params): (a: Arrow)
    requires FrameInvariant(f)
    ensures a.y == ArrowRow(f, p) && a.length == ArrowLength(f, p)
    ensures a.startX == f.wallX + f.wallWidth + 8.0 * f.dpr > f.wallX + f.wallWidth
    ensures a.length <= f.maxVis / 2.0
    ensures a.labelX == a.startX + a.length + 6.0 * f.dpr && a.labelY == a.y - 10.0 * f.dpr
    ensures a.forceText == Round(Solve(p).force)
  {
    var y := ArrowRow(f, p);
    var startX := f.wallX + f.wallWidth + 8.0 * f.dpr;
    var len := ArrowLength(f, p);
    Arrow(y, startX, len, startX + len + 6.0 * f.dpr, y - 10.0 * f.dpr, Round(Solve(p).force))
  }

  /**
   * The arrow length does not tell forces apart: any two inputs whose
   * ρ·g·h·A is at least 1 get arrows of the same length, whatever their forces.
   */
  lemma ArrowLengthSaturates(f: Frame, p: Params, p': Params)
    requires FrameInvariant(f)
    requires p.rho * p.g * p.h * p.area >= 1.0 && p'.rho * p'.g * p'.h * p'.area >= 1.0
    ensures ArrowLength(f, p) == ArrowLength(f, p')
  {
  }
}
