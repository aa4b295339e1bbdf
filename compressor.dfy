/**
  The air-compressor page: air, treated as an ideal gas with constant
  specific heat, is compressed from (P1, T1, V1) to (P2, T2, V2) while
  rejecting heat. The page reports the shaft power, the inlet volumetric
  flow, the work per unit mass, the heat rate, and the enthalpy and
  kinetic-energy changes.
 */
module Compressor {
  import opened Thermo

  /** Gas constant of air [kJ/(kg·K)]. */
  const R_AIR: real := 0.287
  /** Specific heat of air at constant pressure [kJ/(kg·K)]. */
  const CP_AIR: real := 1.005

  /** The sidebar inputs: mass flow, heat rejected per unit mass, and the
      inlet and outlet pressure, absolute temperature and velocity.
      SI: kg/s, kJ/kg, kPa, K, m/s. Imperial: lbm/s, Btu/lbm, psi, °R, ft/s. */
  datatype CompressorInputs = CompressorInputs(
    mDot: real, qOut: real,
    p1: real, t1: real, v1: real,
    p2: real, t2: real, v2: real)

  /** The result bundle: power, inlet volumetric flow, work per unit mass,
      heat rate, enthalpy change, kinetic-energy change.
      SI: kW, m³/s, kJ/kg, kW, kJ/kg, kJ/kg.
      Imperial: hp, ft³/s, Btu/lbm, Btu/s, Btu/lbm, Btu/lbm. */
  datatype CompressorReport = CompressorReport(
    power: real, volumeFlow: real, workPerMass: real,
    heatRate: real, deltaH: real, deltaKe: real)

  /** The inputs in SI. Both absolute temperature scales start at absolute
      zero, so the conversion keeps signs and order. */
  function Normalize(u: Units, raw: CompressorInputs): (si: CompressorInputs)
    ensures u == SI ==> si == raw
    ensures si.mDot > 0.0 <==> raw.mDot > 0.0
    ensures si.mDot >= 0.0 <==> raw.mDot >= 0.0
    ensures si.qOut >= 0.0 <==> raw.qOut >= 0.0
    ensures si.p1 > 0.0 <==> raw.p1 > 0.0
    ensures si.t2 >= si.t1 <==> raw.t2 >= raw.t1
  {
    match u
    case SI => raw
    case Imperial =>
      CompressorInputs(raw.mDot / KGS_TO_LBMS, raw.qOut / KJ_KG_TO_BTU_LBM,
                       raw.p1 / KPA_TO_PSI, raw.t1 / K_TO_R, raw.v1 / MS_TO_FTS,
                       raw.p2 / KPA_TO_PSI, raw.t2 / K_TO_R, raw.v2 / MS_TO_FTS)
  }

  /** The Imperial sidebar values that stand for the SI inputs `si`. */
  function ImperialInputs(si: CompressorInputs): (raw: CompressorInputs)
    ensures Normalize(Imperial, raw) == si
  {
    CompressorInputs(si.mDot * KGS_TO_LBMS, si.qOut * KJ_KG_TO_BTU_LBM,
                     si.p1 * KPA_TO_PSI, si.t1 * K_TO_R, si.v1 * MS_TO_FTS,
                     si.p2 * KPA_TO_PSI, si.t2 * K_TO_R, si.v2 * MS_TO_FTS)
  }

  /** The balance in SI. It always yields a bundle: the two divisions are
      guarded and fall back to zero. */
  function CompressorCore(si: CompressorInputs): (r: CompressorReport)
    // ideal gas at the inlet: P·V̇ = ṁ·R·T
    ensures si.p1 > 0.0 ==> r.volumeFlow * si.p1 == si.mDot * R_AIR * si.t1
    ensures si.p1 <= 0.0 ==> r.volumeFlow == 0.0
    ensures r.deltaH == CP_AIR * (si.t2 - si.t1)
    ensures 2000.0 * r.deltaKe == si.v2 * si.v2 - si.v1 * si.v1
    ensures r.heatRate == -si.mDot * si.qOut
    // first law for the open system: Q̇ − Ẇ = ṁ·(Δh + Δke)
    ensures r.heatRate - r.power == si.mDot * (r.deltaH + r.deltaKe)
    ensures si.mDot > 0.0 ==> r.workPerMass * si.mDot == r.power
    ensures si.mDot > 0.0 ==> r.workPerMass == -si.qOut - r.deltaH - r.deltaKe
    ensures si.mDot <= 0.0 ==> r.workPerMass == 0.0
  {
    var volumeFlow := if si.p1 > 0.0 then si.mDot * R_AIR * si.t1 / si.p1 else 0.0;
    var heatRate := -si.mDot * si.qOut;
    var deltaH := CP_AIR * (si.t2 - si.t1);
    var deltaKe := (si.v2 * si.v2 - si.v1 * si.v1) / 2000.0;
    var power := heatRate - si.mDot * (deltaH + deltaKe);
    var workPerMass := if si.mDot > 0.0 then power / si.mDot else 0.0;
    assert si.mDot > 0.0 ==> workPerMass == -si.qOut - deltaH - deltaKe by {
      if si.mDot > 0.0 {
        assert power == si.mDot * (-si.qOut - deltaH - deltaKe);
      }
    }
    CompressorReport(power, volumeFlow, workPerMass, heatRate, deltaH, deltaKe)
  }

  /** Every output scaled to `u`; the heat rate in Btu/s and the power in hp. */
  function Present(u: Units, r: CompressorReport): (shown: CompressorReport)
    ensures ReportInSI(u, shown) == r
    ensures u == SI ==> shown == r
    ensures shown.power <= 0.0 <==> r.power <= 0.0
  {
    var e := Scale(u, KJ_KG_TO_BTU_LBM);
    CompressorReport(r.power * Scale(u, KW_TO_HP), r.volumeFlow * Scale(u, M3S_TO_FT3S),
                     r.workPerMass * e, r.heatRate * Scale(u, KW_TO_BTUS),
                     r.deltaH * e, r.deltaKe * e)
  }

  /** A bundle in the units `u` read back in SI. */
  function ReportInSI(u: Units, r: CompressorReport): CompressorReport
  {
    var e := Scale(u, KJ_KG_TO_BTU_LBM);
    CompressorReport(r.power / Scale(u, KW_TO_HP), r.volumeFlow / Scale(u, M3S_TO_FT3S),
                     r.workPerMass / e, r.heatRate / Scale(u, KW_TO_BTUS),
                     r.deltaH / e, r.deltaKe / e)
  }

  /** The page's calculation: normalise, compute in SI, scale back. */
  function AnalizarCompresor(u: Units, raw: CompressorInputs): (r: CompressorReport)
    ensures ReportInSI(u, r) == CompressorCore(Normalize(u, raw))
  {
    Present(u, CompressorCore(Normalize(u, raw)))
  }

  /** With the same temperature and speed at both ends, the shaft power is
      exactly the heat rate. */
  lemma EqualStatesPowerIsHeat(si: CompressorInputs)
    requires si.t1 == si.t2 && si.v1 == si.v2
    ensures CompressorCore(si).power == CompressorCore(si).heatRate
  {
  }

  /** Adiabatic, with the same temperature and speed at both ends, the
      compressor needs no power. */
  lemma NoChangeNoPower(u: Units, raw: CompressorInputs)
    requires raw.qOut == 0.0 && raw.t1 == raw.t2 && raw.v1 == raw.v2
    ensures AnalizarCompresor(u, raw).power == 0.0
    ensures AnalizarCompresor(u, raw).workPerMass == 0.0
  {
  }

  /** A compressor that rejects heat, does not cool the air and does not slow
      it down takes in power: the reported power is never positive, in
      either unit system (a negative value is power supplied to the gas). */
  lemma {:induction false} PowerIsConsumed(u: Units, raw: CompressorInputs)
    requires raw.mDot >= 0.0 && raw.qOut >= 0.0 && raw.t2 >= raw.t1
    requires var si := Normalize(u, raw); si.v2 * si.v2 >= si.v1 * si.v1
    ensures AnalizarCompresor(u, raw).power <= 0.0
    ensures AnalizarCompresor(u, raw).workPerMass <= 0.0
  {
    var si := Normalize(u, raw);
    var core := CompressorCore(si);
    ProductNonNegative(si.mDot, si.qOut + core.deltaH + core.deltaKe);
    assert core.power <= 0.0;
  }

  /** Scaling the mass flow by k scales every extensive output by k and
      leaves the per-unit-mass outputs unchanged. */
  lemma {:induction false} ExtensiveOutputsScaleWithFlow(si: CompressorInputs, k: real)
    requires k > 0.0
    ensures var a, b := CompressorCore(si), CompressorCore(si.(mDot := k * si.mDot));
            && b.power == k * a.power
            && b.heatRate == k * a.heatRate
            && b.volumeFlow == k * a.volumeFlow
            && b.deltaH == a.deltaH && b.deltaKe == a.deltaKe
            && (si.mDot > 0.0 ==> b.workPerMass == a.workPerMass)
  {
    var a, b := CompressorCore(si), CompressorCore(si.(mDot := k * si.mDot));
    if si.p1 > 0.0 {
      assert b.volumeFlow * si.p1 == k * (a.volumeFlow * si.p1);
    }
    assert b.power == -(k * si.mDot) * si.qOut - (k * si.mDot) * (a.deltaH + a.deltaKe);
  }

  /** Entering the Imperial equivalent of SI inputs gives the SI results,
      once read back in SI. */
  lemma UnitConsistency(si: CompressorInputs)
    ensures ReportInSI(Imperial, AnalizarCompresor(Imperial, ImperialInputs(si)))
              == AnalizarCompresor(SI, si)
  {
  }
}
