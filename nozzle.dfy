/**
  The nozzle page: air, treated as an ideal gas with constant specific heat,
  accelerates adiabatically from (P1, T1, V1) through an inlet of area A1 to
  (P2, V2). The page reports the mass flow, the outlet temperature, the
  outlet area and the area ratio A2/A1.
 */
module Nozzle {
  import opened Thermo

  /** Gas constant of air [kJ/(kg·K)]. */
  const R_AIR: real := 0.287
  /** Specific heat of air at constant pressure [kJ/(kg·K)]. */
  const CP_AIR: real := 1.005
  /** Square centimetres in a square metre. */
  const CM2_PER_M2: real := 10000.0
  /** Square inches in a square foot. */
  const IN2_PER_FT2: real := 144.0
  /** Offset between the Fahrenheit and Rankine scales. */
  const RANKINE_OFFSET: real := 459.67

  /** The sidebar inputs: inlet pressure, temperature, velocity and area,
      outlet pressure and velocity.
      SI: kPa, °C, m/s, cm², kPa, m/s. Imperial: psi, °F, ft/s, in², psi, ft/s. */
  datatype NozzleInputs = NozzleInputs(p1: real, t1: real, v1: real, a1: real, p2: real, v2: real)

  /** The computed quantities in SI: mass flow [kg/s], outlet temperature [K],
      outlet area [m²], and the area ratio. */
  datatype NozzleResults = NozzleResults(mDot: real, t2: real, a2: real, ratio: real)

  /** The displayed bundle: mass flow, outlet temperature on the relative and
      on the absolute scale, outlet area, area ratio.
      SI: kg/s, °C, K, cm², -. Imperial: lbm/s, °F, °R, in², -. */
  datatype NozzleReport = NozzleReport(
    mDot: real, t2Relative: real, t2Absolute: real, a2: real, ratio: real)

  /** The inputs in SI. */
  function Normalize(u: Units, raw: NozzleInputs): (si: NozzleInputs)
    ensures u == SI ==> si == raw
    ensures si.p1 == 0.0 <==> raw.p1 == 0.0
    ensures si.v1 == 0.0 <==> raw.v1 == 0.0
  {
    match u
    case SI => raw
    case Imperial =>
      NozzleInputs(raw.p1 / KPA_TO_PSI, FahrenheitToCelsius(raw.t1), raw.v1 / MS_TO_FTS,
                   raw.a1 / CM2_TO_IN2, raw.p2 / KPA_TO_PSI, raw.v2 / MS_TO_FTS)
  }

  /** The Imperial sidebar values that stand for the SI inputs `si`. */
  function ImperialInputs(si: NozzleInputs): (raw: NozzleInputs)
    ensures Normalize(Imperial, raw) == si
  {
    NozzleInputs(si.p1 * KPA_TO_PSI, si.t1 * C_TO_F_FACTOR + C_TO_F_OFFSET, si.v1 * MS_TO_FTS,
                 si.a1 * CM2_TO_IN2, si.p2 * KPA_TO_PSI, si.v2 * MS_TO_FTS)
  }

  /** Specific volume [m³/kg] of air at absolute temperature `t` [K] and
      pressure `p` [Pa], from the ideal-gas law P·v = R·T. It is zero
      exactly at absolute zero, and at a positive pressure it is positive
      exactly when the temperature is above absolute zero. */
  function SpecificVolume(t: real, p: real): (v: real)
    requires p != 0.0
    ensures v * p == R_AIR * 1000.0 * t
    ensures v == 0.0 <==> t == 0.0
    ensures p > 0.0 ==> (v > 0.0 <==> t > 0.0)
    ensures p < 0.0 ==> (v > 0.0 <==> t < 0.0)
  {
    R_AIR * 1000.0 * t / p
  }

  /** The balance in SI. The only failure is the unguarded division by the
      inlet pressure; every other division falls back to zero. */
  function NozzleCore(si: NozzleInputs): (r: Result<NozzleResults>)
    ensures r.Ok? <==> si.p1 != 0.0
    ensures r.Err? ==> r.error == DivisionByZero
    ensures r.Ok? ==>
              var t1 := si.t1 + KELVIN_OFFSET;
              var a1 := si.a1 / CM2_PER_M2;
              var v1 := SpecificVolume(t1, si.p1 * 1000.0);
              // continuity at the inlet: ṁ·v1 = A1·V1
              && (v1 > 0.0 ==> r.value.mDot * v1 == a1 * si.v1)
              && (v1 <= 0.0 ==> r.value.mDot == 0.0)
              // adiabatic energy balance: cp·(T2 − T1) + (V2² − V1²)/2 = 0, in J/kg
              && 2.0 * CP_AIR * 1000.0 * (r.value.t2 - t1) == si.v1 * si.v1 - si.v2 * si.v2
              // continuity at the outlet, with the ideal-gas law there
              && (si.p2 > 0.0 && si.v2 > 0.0 ==>
                    r.value.a2 * si.v2 * (si.p2 * 1000.0) == r.value.mDot * R_AIR * 1000.0 * r.value.t2)
              && (si.p2 <= 0.0 || si.v2 <= 0.0 ==> r.value.a2 == 0.0)
              && (a1 > 0.0 ==> r.value.ratio * a1 == r.value.a2)
              && (a1 <= 0.0 ==> r.value.ratio == 0.0)
  {
    if si.p1 == 0.0 then Err(DivisionByZero)
    else
      var p1, p2 := si.p1 * 1000.0, si.p2 * 1000.0;
      var t1 := si.t1 + KELVIN_OFFSET;
      var a1 := si.a1 / CM2_PER_M2;
      var v1 := SpecificVolume(t1, p1);
      var mDot := if v1 > 0.0 then a1 * si.v1 / v1 else 0.0;
      var deltaT := (si.v1 * si.v1 - si.v2 * si.v2) / (2.0 * (CP_AIR * 1000.0));
      var t2 := t1 + deltaT;
      var v2 := if p2 > 0.0 then SpecificVolume(t2, p2) else 0.0;
      var a2 := if si.v2 > 0.0 then mDot * v2 / si.v2 else 0.0;
      assert si.p2 > 0.0 && si.v2 > 0.0 ==> a2 * si.v2 * p2 == mDot * R_AIR * 1000.0 * t2 by {
        if si.p2 > 0.0 && si.v2 > 0.0 {
          assert a2 * si.v2 == mDot * v2;
          assert v2 * p2 == R_AIR * 1000.0 * t2;
          assert a2 * si.v2 * p2 == mDot * (v2 * p2);
        }
      }
      var ratio := if a1 > 0.0 then a2 / a1 else 0.0;
      Ok(NozzleResults(mDot, t2, a2, ratio))
  }

  /** Square metres as displayed in `u`: cm² in SI, in² (via ft²) otherwise. */
  function AreaFactor(u: Units): (k: real)
    ensures k > 0.0
  {
    if u == SI then CM2_PER_M2 else M2_TO_FT2 * IN2_PER_FT2
  }

  /** The SI results as displayed in `u`: the outlet temperature on the
      relative and the absolute scale of `u`, which differ by the scale's
      offset. The area ratio is a pure number and is shown as computed. */
  function Present(u: Units, r: NozzleResults): (shown: NozzleReport)
    ensures ReportInSI(u, shown) == r
    ensures shown.ratio == r.ratio
    ensures shown.t2Relative == shown.t2Absolute - (if u == SI then KELVIN_OFFSET else RANKINE_OFFSET)
    ensures u == SI ==> shown.t2Absolute == r.t2 && shown.a2 == r.a2 * CM2_PER_M2
  {
    var relative := if u == SI then r.t2 - KELVIN_OFFSET
                    else (r.t2 - KELVIN_OFFSET) * C_TO_F_FACTOR + C_TO_F_OFFSET;
    NozzleReport(r.mDot * Scale(u, KGS_TO_LBMS), relative, r.t2 * Scale(u, K_TO_R),
                 r.a2 * AreaFactor(u), r.ratio)
  }

  /** A displayed bundle read back as SI results (from the absolute temperature). */
  function ReportInSI(u: Units, r: NozzleReport): NozzleResults
  {
    NozzleResults(r.mDot / Scale(u, KGS_TO_LBMS), r.t2Absolute / Scale(u, K_TO_R),
                  r.a2 / AreaFactor(u), r.ratio)
  }

  /** The page's calculation: normalise, compute in SI, display in `u`. The
      two displayed temperatures are readings of one temperature on the
      relative and the absolute scale of the chosen system. */
  function AnalizarTobera(u: Units, raw: NozzleInputs): (r: Result<NozzleReport>)
    ensures r.Ok? <==> raw.p1 != 0.0
    ensures r.Err? ==> r.error == DivisionByZero
    ensures r.Ok? ==> ReportInSI(u, r.value) == NozzleCore(Normalize(u, raw)).value
    ensures r.Ok? ==>
              r.value.t2Relative == r.value.t2Absolute - (if u == SI then KELVIN_OFFSET else RANKINE_OFFSET)
  {
    match NozzleCore(Normalize(u, raw))
    case Err(e) => Err(e)
    case Ok(res) => Ok(Present(u, res))
  }

  /** Energy is conserved, cp·T + V²/2 being the same at both ends, so the
      air cools exactly when it speeds up: the outlet temperature is below
      the inlet temperature if and only if V2 exceeds V1 in magnitude. */
  lemma CoolsIffAccelerates(u: Units, raw: NozzleInputs)
    requires AnalizarTobera(u, raw).Ok?
    ensures var si := Normalize(u, raw);
            var t2 := ReportInSI(u, AnalizarTobera(u, raw).value).t2;
            && CP_AIR * 1000.0 * (si.t1 + KELVIN_OFFSET) + si.v1 * si.v1 / 2.0
                 == CP_AIR * 1000.0 * t2 + si.v2 * si.v2 / 2.0
            && (t2 < si.t1 + KELVIN_OFFSET <==> si.v2 * si.v2 > si.v1 * si.v1)
            && (t2 == si.t1 + KELVIN_OFFSET <==> si.v2 * si.v2 == si.v1 * si.v1)
  {
  }

  /** What enters leaves: with a positive outlet pressure and velocity, the
      outlet carries the inlet mass flow, ṁ = A2·V2 / v2 with v2 from the
      ideal-gas law at the outlet. */
  lemma {:induction false} MassConserved(si: NozzleInputs)
    requires NozzleCore(si).Ok?
    requires si.p2 > 0.0 && si.v2 > 0.0
    requires NozzleCore(si).value.t2 != 0.0
    ensures var r := NozzleCore(si).value;
            r.a2 * si.v2 / SpecificVolume(r.t2, si.p2 * 1000.0) == r.mDot
  {
    var r := NozzleCore(si).value;
    var v2 := SpecificVolume(r.t2, si.p2 * 1000.0);
    assert v2 != 0.0;
    assert r.a2 * si.v2 * (si.p2 * 1000.0) == r.mDot * (v2 * (si.p2 * 1000.0));
    assert r.a2 * si.v2 == r.mDot * v2 by {
      if r.a2 * si.v2 != r.mDot * v2 {
        ZeroProduct(r.a2 * si.v2 - r.mDot * v2, si.p2 * 1000.0);
      }
    }
  }

  /** Nothing bounds the outlet temperature from below: inputs within the
      page's slider ranges (-50 °C, V1 = 1 m/s, V2 = 1000 m/s) give an outlet
      temperature below absolute zero and a negative outlet area. */
  lemma OutletBelowAbsoluteZero()
    ensures var r := AnalizarTobera(SI, NozzleInputs(350.0, -50.0, 1.0, 100.0, 120.0, 1000.0));
            && r.Ok? && r.value.t2Absolute < 0.0 && r.value.a2 < 0.0
  {
    var si := NozzleInputs(350.0, -50.0, 1.0, 100.0, 120.0, 1000.0);
    var r := NozzleCore(si).value;
    assert r.mDot > 0.0;
    assert r.t2 < 0.0;
    assert r.a2 * 1000.0 * 120000.0 == r.mDot * R_AIR * 1000.0 * r.t2;
    ProductNonNegative(r.mDot, -r.t2);
  }

  /** Entering the Imperial equivalent of SI inputs gives the SI results,
      once read back in SI. */
  lemma UnitConsistency(si: NozzleInputs)
    ensures var imperial := AnalizarTobera(Imperial, ImperialInputs(si));
            var reference := AnalizarTobera(SI, si);
            && imperial.Ok? == reference.Ok?
            && (reference.Ok? ==> ReportInSI(Imperial, imperial.value) == ReportInSI(SI, reference.value))
  {
  }
}
