/**
  The turbine page: superheated steam enters at (P1, T1, V1) and leaves as a
  wet mixture at (P2, x2, V2). The page reports the enthalpy and
  kinetic-energy changes, the inlet and outlet areas, and the shaft power in
  four cases: with or without a heat loss, and with or without the change of
  kinetic energy.
 */
module Turbine {
  import opened Thermo

  /** The sidebar inputs: mass flow, inlet pressure, temperature and
      velocity, outlet pressure, quality and velocity, and the heat lost per
      unit mass in cases I and II.
      SI: kg/s, MPa, °C, m/s, kPa, -, m/s, kJ/kg, kJ/kg.
      Imperial: lbm/s, psi, °F, ft/s, psi, -, ft/s, Btu/lbm, Btu/lbm. */
  datatype TurbineInputs = TurbineInputs(
    mDot: real, p1: real, t1: real, v1: real,
    p2: real, x2: real, v2: real,
    qLossI: real, qLossII: real)

  /** The result bundle. SI: kJ/kg for the energies, m³/kg for the specific
      volumes, m² for the areas, kW for the powers. Imperial: Btu/lbm,
      ft³/lbm, ft², hp. */
  datatype TurbineReport = TurbineReport(
    deltaKe: real, h1: real, specVol1: real, a1: real,
    h2: real, specVol2: real, a2: real, deltaH: real,
    wI: real, wII: real, wIII: real, wIV: real)

  /** The inputs in SI. The quality is a pure number and passes unchanged;
      the heat losses keep their sign. */
  function Normalize(u: Units, raw: TurbineInputs): (si: TurbineInputs)
    ensures si.x2 == raw.x2
    ensures si.mDot >= 0.0 <==> raw.mDot >= 0.0
    ensures si.qLossI >= 0.0 <==> raw.qLossI >= 0.0
    ensures si.qLossII >= 0.0 <==> raw.qLossII >= 0.0
    ensures si.v1 == 0.0 <==> raw.v1 == 0.0
    ensures si.v2 == 0.0 <==> raw.v2 == 0.0
    ensures u == SI ==> si == raw
  {
    match u
    case SI => raw
    case Imperial =>
      TurbineInputs(raw.mDot / KGS_TO_LBMS, raw.p1 / MPA_TO_PSI, FahrenheitToCelsius(raw.t1),
                    raw.v1 / MS_TO_FTS, raw.p2 / KPA_TO_PSI, raw.x2, raw.v2 / MS_TO_FTS,
                    raw.qLossI / KJ_KG_TO_BTU_LBM, raw.qLossII / KJ_KG_TO_BTU_LBM)
  }

  /** The Imperial sidebar values that stand for the SI inputs `si`. */
  function ImperialInputs(si: TurbineInputs): (raw: TurbineInputs)
    ensures Normalize(Imperial, raw) == si
  {
    TurbineInputs(si.mDot * KGS_TO_LBMS, si.p1 * MPA_TO_PSI, si.t1 * C_TO_F_FACTOR + C_TO_F_OFFSET,
                  si.v1 * MS_TO_FTS, si.p2 * KPA_TO_PSI, si.x2, si.v2 * MS_TO_FTS,
                  si.qLossI * KJ_KG_TO_BTU_LBM, si.qLossII * KJ_KG_TO_BTU_LBM)
  }

  /** Change of specific kinetic energy [kJ/kg] between velocities [m/s]:
      it vanishes exactly when the speeds are equal in magnitude and is
      positive exactly when the steam speeds up. */
  function KineticEnergyChange(v1: real, v2: real): (dke: real)
    ensures 2000.0 * dke == v2 * v2 - v1 * v1
    ensures dke == 0.0 <==> v1 * v1 == v2 * v2
    ensures dke > 0.0 <==> v2 * v2 > v1 * v1
    ensures dke < 0.0 <==> v2 * v2 < v1 * v1
  {
    (v2 * v2 - v1 * v1) / 2000.0
  }

  /** No change of velocity, no change of kinetic energy; exchanging the
      velocities changes its sign. */
  lemma KineticEnergyChangeAntisymmetric(v1: real, v2: real)
    ensures KineticEnergyChange(v1, v1) == 0.0
    ensures KineticEnergyChange(v2, v1) == -KineticEnergyChange(v1, v2)
  {
  }

  /** The inlet state, looked up at (P1 [MPa], T1 [K]). */
  function InletState(t: SteamTables, si: TurbineInputs): Option<ThermoState>
  {
    t.byPT(si.p1, si.t1 + KELVIN_OFFSET)
  }

  /** The outlet state, looked up at (P2 [MPa], x2). */
  function OutletState(t: SteamTables, si: TurbineInputs): Option<ThermoState>
  {
    t.byPx(si.p2 / 1000.0, si.x2)
  }

  /** The balance in SI. The steps fail in the order the page runs them:
      inlet lookup, inlet area (division by V1), outlet lookup, outlet area
      (division by V2). */
  function TurbineCore(t: SteamTables, si: TurbineInputs): (r: Result<TurbineReport>)
    ensures var s1, s2 := InletState(t, si), OutletState(t, si);
            && (r.Ok? <==> s1.Some? && si.v1 != 0.0 && s2.Some? && si.v2 != 0.0)
            && (r == Err(PropertyLookup) <==> s1.None? || (si.v1 != 0.0 && s2.None?))
            && (r.Ok? ==>
                  var w := r.value;
                  && w.h1 == s1.value.h && w.specVol1 == s1.value.v
                  && w.h2 == s2.value.h && w.specVol2 == s2.value.v
                  && w.deltaH == w.h1 - w.h2
                  && 2000.0 * w.deltaKe == si.v2 * si.v2 - si.v1 * si.v1
                  // continuity at both ends: ṁ = A·V / v
                  && w.a1 * si.v1 == si.mDot * w.specVol1
                  && w.a2 * si.v2 == si.mDot * w.specVol2
                  // the four cases: adiabatic without Δke is ṁ·Δh
                  && w.wIV == si.mDot * w.deltaH
                  && w.wIII == w.wIV - si.mDot * w.deltaKe
                  && w.wI == w.wIII - si.mDot * si.qLossI
                  && w.wII == w.wIV - si.mDot * si.qLossII)
  {
    var deltaKe := KineticEnergyChange(si.v1, si.v2);
    match InletState(t, si)
    case None => Err(PropertyLookup)
    case Some(s1) =>
      if si.v1 == 0.0 then Err(DivisionByZero)
      else
        var a1 := si.mDot * s1.v / si.v1;
        match OutletState(t, si)
        case None => Err(PropertyLookup)
        case Some(s2) =>
          if si.v2 == 0.0 then Err(DivisionByZero)
          else
            var a2 := si.mDot * s2.v / si.v2;
            var deltaH := s1.h - s2.h;
            var qI := -si.qLossI * si.mDot;
            var wI := si.mDot * (deltaH - deltaKe) + qI;
            var qII := -si.qLossII * si.mDot;
            var wII := si.mDot * deltaH + qII;
            var wIII := si.mDot * (deltaH - deltaKe);
            var wIV := si.mDot * deltaH;
            Ok(TurbineReport(deltaKe, s1.h, s1.v, a1, s2.h, s2.v, a2, deltaH, wI, wII, wIII, wIV))
  }

  /** Every output scaled to `u`; the four powers share one positive factor,
      so their order is the same in both systems. */
  function Present(u: Units, r: TurbineReport): (shown: TurbineReport)
    ensures ReportInSI(u, shown) == r
    ensures u == SI ==> shown == r
    ensures shown.wI <= shown.wIII <==> r.wI <= r.wIII
    ensures shown.wII <= shown.wIV <==> r.wII <= r.wIV
  {
    var e, vol, area, pow := Scale(u, KJ_KG_TO_BTU_LBM), Scale(u, M3KG_TO_FT3LBM),
                             Scale(u, M2_TO_FT2), Scale(u, KW_TO_HP);
    TurbineReport(r.deltaKe * e, r.h1 * e, r.specVol1 * vol, r.a1 * area,
                  r.h2 * e, r.specVol2 * vol, r.a2 * area, r.deltaH * e,
                  r.wI * pow, r.wII * pow, r.wIII * pow, r.wIV * pow)
  }

  /** A bundle in the units `u` read back in SI. */
  function ReportInSI(u: Units, r: TurbineReport): TurbineReport
  {
    var e, vol, area, pow := Scale(u, KJ_KG_TO_BTU_LBM), Scale(u, M3KG_TO_FT3LBM),
                             Scale(u, M2_TO_FT2), Scale(u, KW_TO_HP);
    TurbineReport(r.deltaKe / e, r.h1 / e, r.specVol1 / vol, r.a1 / area,
                  r.h2 / e, r.specVol2 / vol, r.a2 / area, r.deltaH / e,
                  r.wI / pow, r.wII / pow, r.wIII / pow, r.wIV / pow)
  }

  /** The page's calculation: normalise, compute in SI, scale back. */
  function AnalizarTurbina(t: SteamTables, u: Units, raw: TurbineInputs): (r: Result<TurbineReport>)
    ensures r.Ok? <==> TurbineCore(t, Normalize(u, raw)).Ok?
    ensures r.Err? ==> r == TurbineCore(t, Normalize(u, raw))
    ensures r.Ok? ==> ReportInSI(u, r.value) == TurbineCore(t, Normalize(u, raw)).value
  {
    match TurbineCore(t, Normalize(u, raw))
    case Err(e) => Err(e)
    case Ok(res) => Ok(Present(u, res))
  }

  /** A zero velocity at either end leaves no result. */
  lemma ZeroVelocityFails(t: SteamTables, u: Units, raw: TurbineInputs)
    requires raw.v1 == 0.0 || raw.v2 == 0.0
    ensures AnalizarTurbina(t, u, raw).Err?
  {
  }

  /** With tables that refuse a quality outside [0, 1], such a quality never
      yields a result. */
  lemma QualityOutOfRangeFails(t: SteamTables, u: Units, raw: TurbineInputs)
    requires RejectsBadQuality(t)
    requires raw.x2 < 0.0 || raw.x2 > 1.0
    ensures AnalizarTurbina(t, u, raw).Err?
  {
    var si := Normalize(u, raw);
    assert OutletState(t, si).None?;
  }

  /** A heat loss only lowers the output: with a non-negative mass flow and
      non-negative losses, case I never exceeds case III and case II never
      exceeds case IV, in either unit system. */
  lemma HeatLossLowersPower(t: SteamTables, u: Units, raw: TurbineInputs)
    requires raw.mDot >= 0.0 && raw.qLossI >= 0.0 && raw.qLossII >= 0.0
    requires AnalizarTurbina(t, u, raw).Ok?
    ensures var w := AnalizarTurbina(t, u, raw).value;
            w.wI <= w.wIII && w.wII <= w.wIV
  {
    var si := Normalize(u, raw);
    var core := TurbineCore(t, si).value;
    ProductNonNegative(si.mDot, si.qLossI);
    ProductNonNegative(si.mDot, si.qLossII);
    assert core.wI <= core.wIII && core.wII <= core.wIV;
    var k := Scale(u, KW_TO_HP);
    assert core.wI * k <= core.wIII * k && core.wII * k <= core.wIV * k;
  }

  /** Cases III and IV differ by ṁ·Δke in either unit system: neglecting the
      kinetic energy changes the power by exactly that term. */
  lemma KineticEnergyTerm(t: SteamTables, u: Units, raw: TurbineInputs)
    requires AnalizarTurbina(t, u, raw).Ok?
    ensures var w := AnalizarTurbina(t, u, raw).value;
            var si := Normalize(u, raw);
            w.wIV - w.wIII == Scale(u, KW_TO_HP) * si.mDot * TurbineCore(t, si).value.deltaKe
  {
  }

  /** Entering the Imperial equivalent of SI inputs gives the SI results,
      once read back in SI. */
  lemma UnitConsistency(t: SteamTables, si: TurbineInputs)
    ensures var imperial := AnalizarTurbina(t, Imperial, ImperialInputs(si));
            var reference := AnalizarTurbina(t, SI, si);
            && imperial.Ok? == reference.Ok?
            && (reference.Ok? ==> ReportInSI(Imperial, imperial.value) == reference.value)
  {
  }
}
