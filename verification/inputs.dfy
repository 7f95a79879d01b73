/**
 * The five text fields of the form, after parsing, and the `x || d`
 * fallback that `draw()` applies to each of them (script.js:44-48).
 * Parsing itself (`parseFloat`, `parseInt`) is outside the model: a field
 * arrives already parsed, `None` standing for a parse that gave NaN.
 */
module Inputs {

  datatype Option<T> = None | Some(value: T)

  /** Default acceleration of gravity, m/s². */
  const DefaultGravity: real := 9.81
  /** Default number of pressure samples. */
  const DefaultSteps: int := 30

  /** The fields as parsed: density, gravity, plate height, plate area, sample count. */
  datatype RawInputs = RawInputs(
    rho: Option<real>, g: Option<real>, h: Option<real>, area: Option<real>, steps: Option<int>)

  /** The values the rest of `draw()` computes with. */
  datatype Params = Params(rho: real, g: real, h: real, area: real, steps: int)

  /**
   * `parseFloat(v) || d`: NaN and 0 are the falsy numbers, so both give way
   * to the default; any other parsed value is kept.
   */
  function OrDefault(parsed: Option<real>, d: real): (r: real)
    ensures r == 0.0 <==> d == 0.0 && (parsed.None? || parsed.value == 0.0)
    ensures r != d ==> parsed == Some(r)
    ensures parsed.Some? && parsed.value != 0.0 ==> r == parsed.value
  {
    match parsed
    case Some(v) => if v != 0.0 then v else d
    case None => d
  }

  /** `parseInt(v) || d`, the same rule over integers. */
  function OrDefaultInt(parsed: Option<int>, d: int): (r: int)
    ensures r == 0 <==> d == 0 && (parsed.None? || parsed.value == 0)
    ensures r != d ==> parsed == Some(r)
    ensures parsed.Some? && parsed.value != 0 ==> r == parsed.value
  {
    match parsed
    case Some(v) => if v != 0 then v else d
    case None => d
  }

  /** What the fallback guarantees: no zero gravity and no zero sample count. */
  predicate Normalised(p: Params) {
    p.g != 0.0 && p.steps != 0
  }

  /** The input block of `draw()` (script.js:44-48). */
  function Normalise(raw: RawInputs): (p: Params)
    ensures Normalised(p)
    ensures p.rho == 0.0 <==> raw.rho.None? || raw.rho.value == 0.0
    ensures p.h == 0.0 <==> raw.h.None? || raw.h.value == 0.0
    ensures p.area == 0.0 <==> raw.area.None? || raw.area.value == 0.0
    ensures p.g != DefaultGravity ==> raw.g == Some(p.g)
    ensures p.steps != DefaultSteps ==> raw.steps == Some(p.steps)
    ensures p.rho == OrDefault(raw.rho, 0.0) && p.g == OrDefault(raw.g, DefaultGravity)
    ensures p.h == OrDefault(raw.h, 0.0) && p.area == OrDefault(raw.area, 0.0)
    ensures p.steps == OrDefaultInt(raw.steps, DefaultSteps)
  {
    Params(
      OrDefault(raw.rho, 0.0),
      OrDefault(raw.g, DefaultGravity),
      OrDefault(raw.h, 0.0),
      OrDefault(raw.area, 0.0),
      OrDefaultInt(raw.steps, DefaultSteps))
  }

  /** Every field that parsed to a non-zero number keeps that number. */
  lemma NormaliseKeepsParses(raw: RawInputs)
    ensures raw.rho.Some? && raw.rho.value != 0.0 ==> Normalise(raw).rho == raw.rho.value
    ensures raw.g.Some? && raw.g.value != 0.0 ==> Normalise(raw).g == raw.g.value
    ensures raw.h.Some? && raw.h.value != 0.0 ==> Normalise(raw).h == raw.h.value
    ensures raw.area.Some? && raw.area.value != 0.0 ==> Normalise(raw).area == raw.area.value
    ensures raw.steps.Some? && raw.steps.value != 0 ==> Normalise(raw).steps == raw.steps.value
  {
  }

  /** The fields as they would read if the form showed `p` back. */
  function Echo(p: Params): RawInputs {
    RawInputs(Some(p.rho), Some(p.g), Some(p.h), Some(p.area), Some(p.steps))
  }

  /** Normalising values that are already normalised changes nothing. */
  lemma NormaliseIdempotent(raw: RawInputs)
    ensures Normalise(Echo(Normalise(raw))) == Normalise(raw)
  {
  }

  /** A value the fallback let through is left alone by `Normalise` exactly when it is normalised. */
  lemma NormaliseFixesNormalised(p: Params)
    ensures Normalise(Echo(p)) == p <==> Normalised(p)
  {
  }
}
