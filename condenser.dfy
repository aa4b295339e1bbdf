/**
  The condenser page: wet steam of quality x condenses at constant pressure
  to saturated liquid, and cooling water carries the heat away with a given
  temperature rise. The page reports the saturation enthalpies, the heat rate
  and the cooling-water flow.
 */
module Condenser {
  import opened Thermo

  /** Specific heat of liquid water [kJ/(kg·°C)]. */
  const CP_WATER: real := 4.186

  /** The sidebar inputs: steam flow, condenser pressure, steam quality, and
      the temperature rise of the cooling water.
      SI: kg/min, kPa, -, °C. Imperial: lbm/min, psi, -, °F. */
  datatype CondenserInputs = CondenserInputs(mDotSteam: real, p: real, x: real, deltaT: real)

  /** The inputs in SI: steam flow in kg/s, pressure in kPa, quality, and the
      temperature rise in °C. */
  datatype CondenserSI = CondenserSI(mDotSteam: real, p: real, x: real, deltaT: real)

  /** The result bundle: cooling-water flow, heat rate, the saturated-liquid,
      saturated-vapour and vaporisation enthalpies, the inlet and outlet
      enthalpies of the steam, and the steam flow in kg/s.
      SI: kg/s, kW, kJ/kg. Imperial: lbm/s, Btu/s, Btu/lbm; the steam flow is
      in kg/s in both systems. */
  datatype CondenserReport = CondenserReport(
    mDotWater: real, heatRate: real,
    hf: real, hg: real, hfg: real, hIn: real, hOut: real,
    mDotSteamKgs: real)

  /** The inputs in SI. A temperature rise is a difference, so it is scaled
      without the 32° offset; the quality passes unchanged. */
  function Normalize(u: Units, raw: CondenserInputs): (si: CondenserSI)
    ensures si.x == raw.x
    ensures si.mDotSteam * 60.0 * Scale(u, KGS_TO_LBMS) == raw.mDotSteam
    ensures si.deltaT * Scale(u, C_TO_F_FACTOR) == raw.deltaT
    ensures si.deltaT == 0.0 <==> raw.deltaT == 0.0
  {
    match u
    case SI => CondenserSI(raw.mDotSteam * KG_MIN_TO_KGS, raw.p, raw.x, raw.deltaT)
    case Imperial =>
      CondenserSI((raw.mDotSteam / KGS_TO_LBMS) * KG_MIN_TO_KGS, raw.p / KPA_TO_PSI, raw.x,
                  raw.deltaT / C_TO_F_FACTOR)
  }

  /** The Imperial sidebar values that stand for the SI sidebar values `raw`. */
  function ImperialInputs(raw: CondenserInputs): (imperial: CondenserInputs)
    ensures Normalize(Imperial, imperial) == Normalize(SI, raw)
  {
    CondenserInputs(raw.mDotSteam * KGS_TO_LBMS, raw.p * KPA_TO_PSI, raw.x,
                    raw.deltaT * C_TO_F_FACTOR)
  }

  /** Saturated liquid at the condenser pressure (in MPa). */
  function Liquid(t: SteamTables, si: CondenserSI): Option<ThermoState>
  {
    t.byPx(si.p / 1000.0, 0.0)
  }

  /** Saturated vapour at the condenser pressure (in MPa). */
  function Vapour(t: SteamTables, si: CondenserSI): Option<ThermoState>
  {
    t.byPx(si.p / 1000.0, 1.0)
  }

  /** The balance in SI. Both saturation states are looked up before the
      temperature rise is checked, so a failed lookup takes precedence over
      a zero rise. */
  function CondenserCore(t: SteamTables, si: CondenserSI): (r: Result<CondenserReport>)
    ensures var liq, vap := Liquid(t, si), Vapour(t, si);
            && (r == Err(PropertyLookup) <==> liq.None? || vap.None?)
            && (r == Err(ZeroTemperatureRise) <==> liq.Some? && vap.Some? && si.deltaT == 0.0)
            && (r.Err? ==> r.error != DivisionByZero)
            && (r.Ok? ==>
                  var w := r.value;
                  && w.hf == liq.value.h && w.hg == vap.value.h
                  && w.hfg == w.hg - w.hf
                  // wet steam in, saturated liquid out
                  && w.hIn == w.hf + si.x * w.hfg
                  && w.hOut == w.hf
                  && w.heatRate == si.mDotSteam * (w.hIn - w.hOut)
                  // the heat given up by the steam warms the cooling water
                  && w.mDotWater * CP_WATER * si.deltaT == w.heatRate
                  && w.mDotSteamKgs == si.mDotSteam)
  {
    match Liquid(t, si)
    case None => Err(PropertyLookup)
    case Some(liq) =>
      match Vapour(t, si)
      case None => Err(PropertyLookup)
      case Some(vap) =>
        var hfg := vap.h - liq.h;
        var hIn := liq.h + si.x * hfg;
        var heatRate := si.mDotSteam * (hIn - liq.h);
        if si.deltaT == 0.0 then Err(ZeroTemperatureRise)
        else
          var mDotWater := heatRate / (CP_WATER * si.deltaT);
          Ok(CondenserReport(mDotWater, heatRate, liq.h, vap.h, hfg, hIn, liq.h, si.mDotSteam))
  }

  /** Every output but the steam flow scaled to `u`. */
  function Present(u: Units, r: CondenserReport): (shown: CondenserReport)
    ensures ReportInSI(u, shown) == r
    ensures shown.mDotSteamKgs == r.mDotSteamKgs
    ensures u == SI ==> shown == r
  {
    var e := Scale(u, KJ_KG_TO_BTU_LBM);
    CondenserReport(r.mDotWater * Scale(u, KGS_TO_LBMS), r.heatRate * Scale(u, KW_TO_BTUS),
                    r.hf * e, r.hg * e, r.hfg * e, r.hIn * e, r.hOut * e, r.mDotSteamKgs)
  }

  /** A bundle in the units `u` read back in SI. */
  function ReportInSI(u: Units, r: CondenserReport): CondenserReport
  {
    var e := Scale(u, KJ_KG_TO_BTU_LBM);
    CondenserReport(r.mDotWater / Scale(u, KGS_TO_LBMS), r.heatRate / Scale(u, KW_TO_BTUS),
                    r.hf / e, r.hg / e, r.hfg / e, r.hIn / e, r.hOut / e, r.mDotSteamKgs)
  }

  /** The page's calculation: normalise, compute in SI, scale back. */
  function AnalizarCondensador(t: SteamTables, u: Units, raw: CondenserInputs): (r: Result<CondenserReport>)
    ensures r.Ok? <==> CondenserCore(t, Normalize(u, raw)).Ok?
    ensures r.Err? ==> r == CondenserCore(t, Normalize(u, raw))
    ensures r.Ok? ==> ReportInSI(u, r.value) == CondenserCore(t, Normalize(u, raw)).value
  {
    match CondenserCore(t, Normalize(u, raw))
    case Err(e) => Err(e)
    case Ok(res) => Ok(Present(u, res))
  }

  /** A zero temperature rise is refused, in either unit system, whenever the
      saturation states exist. */
  lemma ZeroRiseRefused(t: SteamTables, u: Units, raw: CondenserInputs)
    requires raw.deltaT == 0.0
    ensures AnalizarCondensador(t, u, raw).Err?
  {
  }

  /** For a quality in [0, 1] and tables in which saturated vapour holds more
      enthalpy than saturated liquid, the inlet enthalpy lies between the two,
      in either unit system. */
  lemma {:induction false} InletEnthalpyBetweenSaturation(t: SteamTables, u: Units, raw: CondenserInputs)
    requires 0.0 <= raw.x <= 1.0
    requires AnalizarCondensador(t, u, raw).Ok?
    requires var r := AnalizarCondensador(t, u, raw).value; r.hf <= r.hg
    ensures var r := AnalizarCondensador(t, u, raw).value;
            r.hf <= r.hIn <= r.hg
  {
    var si := Normalize(u, raw);
    var w := CondenserCore(t, si).value;
    var e := Scale(u, KJ_KG_TO_BTU_LBM);
    assert w.hf <= w.hg by {
      assert w.hf * e <= w.hg * e;
    }
    ProductNonNegative(si.x, w.hfg);
    ProductNonNegative(1.0 - si.x, w.hfg);
    assert w.hf <= w.hIn <= w.hg;
    assert w.hf * e <= w.hIn * e <= w.hg * e;
  }

  /** Saturated liquid at the inlet gives up no heat; saturated vapour at
      the inlet gives up the full enthalpy of vaporisation. */
  lemma QualityEndpoints(t: SteamTables, u: Units, raw: CondenserInputs)
    requires AnalizarCondensador(t, u, raw).Ok?
    ensures raw.x == 0.0 ==>
              AnalizarCondensador(t, u, raw).value.heatRate == 0.0 &&
              AnalizarCondensador(t, u, raw).value.mDotWater == 0.0
    ensures raw.x == 1.0 ==>
              AnalizarCondensador(t, u, raw).value.hIn == AnalizarCondensador(t, u, raw).value.hg
  {
  }

  /** Steam that condenses warms the water it meets: with a positive steam
      flow, quality, vaporisation enthalpy and temperature rise, the cooling
      water flow is positive. */
  lemma {:induction false} CoolingWaterFlowPositive(t: SteamTables, si: CondenserSI)
    requires si.mDotSteam > 0.0 && si.x > 0.0 && si.deltaT > 0.0
    requires CondenserCore(t, si).Ok? && CondenserCore(t, si).value.hfg > 0.0
    ensures CondenserCore(t, si).value.mDotWater > 0.0
  {
    var w := CondenserCore(t, si).value;
    assert si.x * w.hfg > 0.0;
    assert w.heatRate > 0.0 by {
      assert w.heatRate == si.mDotSteam * (si.x * w.hfg);
    }
  }

  /** Entering the Imperial equivalent of SI inputs gives the SI results,
      once read back in SI. */
  lemma UnitConsistency(t: SteamTables, raw: CondenserInputs)
    ensures var imperial := AnalizarCondensador(t, Imperial, ImperialInputs(raw));
            var reference := AnalizarCondensador(t, SI, raw);
            && imperial.Ok? == reference.Ok?
            && (reference.Ok? ==> ReportInSI(Imperial, imperial.value) == reference.value)
  {
  }
}
