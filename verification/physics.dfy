/**
 * Hydrostatics of a vertical rectangular plate whose top edge lies at the
 * free surface (script.js:50-69): pressure at depth, centroid depth,
 * resultant force, base pressure and centre of pressure.
 */
module Physics {
  import opened Inputs

  /** Atmospheric pressure at the free surface, Pa. */
  const P0: real := 101325.0

  /** Absolute pressure at `depth` below the surface: P0 + ρ·g·depth. */
  function PressureAt(rho: real, g: real, depth: real): real {
    P0 + rho * g * depth
  }

  /** Second moment of area of the plate about its horizontal centroidal axis: A·h²/12. */
  function SecondMoment(h: real, area: real): real {
    area * (h * h) / 12.0
  }

  /**
   * Depth of the centre of pressure: hc + I/(hc·A) when the plate has a
   * positive height and area, otherwise the centroid depth hc itself.
   */
  function CentreOfPressure(h: real, area: real): (yp: real)
    ensures h > 0.0 && area > 0.0 ==> yp == 2.0 * h / 3.0 && yp > h / 2.0
    ensures !(h > 0.0 && area > 0.0) ==> yp == h / 2.0
  {
    var hc := h / 2.0;
    if h > 0.0 && area > 0.0 then
      assert hc * area > 0.0 by { PositiveProduct(hc, area); }
      var yp := hc + SecondMoment(h, area) / (hc * area);
      assert yp == 2.0 * h / 3.0 by { CorrectionTerm(h, area); }
      yp
    else
      hc
  }

  lemma PositiveProduct(x: real, y: real)
    requires x > 0.0 && y > 0.0
    ensures x * y > 0.0
  {
  }

  /** The correction I/(hc·A) of a rectangle is h/6, whatever its area. */
  lemma CorrectionTerm(h: real, area: real)
    requires h > 0.0 && area > 0.0
    ensures (h / 2.0) * area > 0.0
    ensures SecondMoment(h, area) / ((h / 2.0) * area) == h / 6.0
  {
    var d := (h / 2.0) * area;
    PositiveProduct(h / 2.0, area);
    assert SecondMoment(h, area) == (h / 6.0) * d;
  }

  /** The quantities `draw()` derives from the inputs. */
  datatype Hydrostatics = Hydrostatics(hc: real, force: real, baseP: real, yp: real)

  /** script.js:50-69. */
  function Solve(p: Params): (s: Hydrostatics)
    ensures s.hc * 2.0 == p.h
    ensures s.baseP == PressureAt(p.rho, p.g, p.h)
    ensures s.force == (s.baseP - P0) * p.area / 2.0
    ensures p.h > 0.0 && p.area > 0.0 ==> s.yp == 2.0 * p.h / 3.0 && s.yp > s.hc
    ensures !(p.h > 0.0 && p.area > 0.0) ==> s.yp == s.hc
  {
    var hc := p.h / 2.0;
    var force := p.rho * p.g * hc * p.area;
    var baseP := PressureAt(p.rho, p.g, p.h);
    assert force == (baseP - P0) * p.area / 2.0;
    Hydrostatics(hc, force, baseP, CentreOfPressure(p.h, p.area))
  }

  /** At the free surface the pressure is atmospheric. */
  lemma SurfacePressure(rho: real, g: real)
    ensures PressureAt(rho, g, 0.0) == P0
  {
  }

  /** Pressure does not decrease with depth when ρ·g ≥ 0. */
  lemma PressureMonotone(rho: real, g: real, d1: real, d2: real)
    requires rho * g >= 0.0 && d1 <= d2
    ensures PressureAt(rho, g, d1) <= PressureAt(rho, g, d2)
  {
    assert PressureAt(rho, g, d2) - PressureAt(rho, g, d1) == (rho * g) * (d2 - d1);
  }

  /** Gauge pressure is linear in depth: the gauge pressure at a fraction of h is that fraction of the gauge base pressure. */
  lemma GaugeLinear(rho: real, g: real, h: real, frac: real)
    ensures PressureAt(rho, g, frac * h) - P0 == frac * (rho * g * h)
  {
  }

  /**
   * The resultant force equals the mean of the gauge pressures at top and
   * bottom edge, times the area, which is the pressure at the centroid
   * times the area.
   */
  lemma ForceIsMeanGaugePressureTimesArea(p: Params)
    ensures Solve(p).force
         == ((PressureAt(p.rho, p.g, 0.0) - P0) + (PressureAt(p.rho, p.g, p.h) - P0)) / 2.0 * p.area
    ensures Solve(p).force == (PressureAt(p.rho, p.g, Solve(p).hc) - P0) * p.area
  {
    var s := Solve(p);
    assert PressureAt(p.rho, p.g, s.hc) - P0 == p.rho * p.g * (p.h / 2.0);
  }

  /** A plate of zero height: centre of pressure at the surface and no force. */
  lemma DegeneratePlate(p: Params)
    requires p.h == 0.0
    ensures Solve(p).yp == 0.0 && Solve(p).force == 0.0 && Solve(p).baseP == P0
  {
  }

  /** A plate of zero area feels no force and its centre of pressure is its centroid. */
  lemma ZeroAreaPlate(p: Params)
    requires p.area == 0.0
    ensures Solve(p).force == 0.0 && Solve(p).yp == Solve(p).hc
  {
  }

  /**
   * Without fluid (ρ = 0) there is no gauge pressure and no force, yet the
   * centre of pressure is still placed at 2h/3, below the centroid: the
   * guard looks at h and A only.
   */
  lemma NoFluid(p: Params)
    requires p.rho == 0.0 && p.h > 0.0 && p.area > 0.0
    ensures Solve(p).baseP == P0 && Solve(p).force == 0.0
    ensures Solve(p).yp == 2.0 * p.h / 3.0 != Solve(p).hc
  {
  }
}
