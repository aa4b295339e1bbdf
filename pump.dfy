/**
  The pump page: saturated liquid enters at the inlet pressure and leaves at
  the outlet pressure. Specific work is v·ΔP, power is ṁ·w and the outlet
  enthalpy is h1 + w.
 */
module Pump {
  import opened Thermo

  /** The sidebar inputs: volumetric flow, inlet pressure, outlet pressure.
      SI: m³/s, kPa, MPa. Imperial: ft³/s, psi, psi. */
  datatype PumpInputs = PumpInputs(flow: real, pIn: real, pOut: real)

  /** The computed quantities. Specific volume [m³/kg] and mass flow [kg/s]
      are reported in SI in both unit systems; the rest in the chosen units. */
  datatype PumpResults = PumpResults(
    specificVolume: real, h1: real, massFlow: real,
    specificWork: real, power: real, h2: real)

  /** The bundle the page displays: the raw inputs echoed back, and the results. */
  datatype PumpReport = PumpReport(inputs: PumpInputs, results: PumpResults)

  /** The inputs in SI (m³/s, kPa, MPa). The pump does work exactly when the
      outlet pressure exceeds the inlet pressure, in either unit system. */
  function Normalize(u: Units, raw: PumpInputs): (si: PumpInputs)
    ensures u == SI ==> si == raw
    ensures si.pOut * 1000.0 > si.pIn <==>
              if u == SI then raw.pOut * 1000.0 > raw.pIn else raw.pOut > raw.pIn
  {
    match u
    case SI => raw
    case Imperial => PumpInputs(raw.flow / M3S_TO_FT3S, raw.pIn * PSI_TO_KPA, (raw.pOut * PSI_TO_KPA) / 1000.0)
  }

  /** The Imperial sidebar values that stand for the SI inputs `si`. */
  function ImperialInputs(si: PumpInputs): (raw: PumpInputs)
    ensures Normalize(Imperial, raw) == si
  {
    PumpInputs(si.flow * M3S_TO_FT3S, si.pIn / PSI_TO_KPA, si.pOut * 1000.0 / PSI_TO_KPA)
  }

  /** Every Imperial input is the image of exactly one SI input. */
  lemma ImperialInputsInverse(raw: PumpInputs)
    ensures ImperialInputs(Normalize(Imperial, raw)) == raw
  {
  }

  /** The steady-flow balance in SI, from the saturated-liquid state at the
      inlet. The library is queried at the inlet pressure in MPa, quality 0. */
  function PumpCore(t: SteamTables, si: PumpInputs): (r: Result<PumpResults>)
    ensures r.Ok? <==> t.byPx(si.pIn / 1000.0, 0.0).Some?
    ensures r.Err? ==> r.error == PropertyLookup
    ensures r.Ok? ==>
              var st := t.byPx(si.pIn / 1000.0, 0.0).value;
              && r.value.specificVolume == st.v
              && r.value.h1 == st.h
              // continuity: the volumetric flow is ṁ·v
              && r.value.massFlow * st.v == si.flow
              // v cancels: the power depends only on the flow and the pressure rise
              && r.value.power == si.flow * (si.pOut * 1000.0 - si.pIn)
              // work of compressing an incompressible liquid: w = v·ΔP
              && r.value.specificWork == st.v * (si.pOut * 1000.0 - si.pIn)
              && r.value.power == r.value.massFlow * r.value.specificWork
              && (r.value.specificWork > 0.0 <==> si.pOut * 1000.0 > si.pIn)
              && r.value.h2 - r.value.h1 == r.value.specificWork
  {
    var pInMPa := si.pIn / 1000.0;
    var pOutKPa := si.pOut * 1000.0;
    match t.byPx(pInMPa, 0.0)
    case None => Err(PropertyLookup)
    case Some(st) =>
      var massFlow := si.flow / st.v;
      var work := st.v * (pOutKPa - si.pIn);
      var power := massFlow * work;
      assert power == si.flow * (pOutKPa - si.pIn) by {
        assert massFlow * st.v == si.flow;
      }
      Ok(PumpResults(st.v, st.h, massFlow, work, power, st.h + work))
  }

  /** Work, power and enthalpies scaled to `u`; the specific volume and the
      mass flow are shown in SI in both systems. */
  function Present(u: Units, r: PumpResults): (shown: PumpResults)
    ensures ResultsInSI(u, shown) == r
    ensures shown.specificVolume == r.specificVolume && shown.massFlow == r.massFlow
    ensures u == SI ==> shown == r
  {
    var e := Scale(u, KJ_KG_TO_BTU_LBM);
    r.(h1 := r.h1 * e, specificWork := r.specificWork * e,
       power := r.power * Scale(u, KW_TO_HP), h2 := r.h2 * e)
  }

  /** Results shown in the units `u` read back in SI. */
  function ResultsInSI(u: Units, r: PumpResults): PumpResults
  {
    var e := Scale(u, KJ_KG_TO_BTU_LBM);
    r.(h1 := r.h1 / e, specificWork := r.specificWork / e,
       power := r.power / Scale(u, KW_TO_HP), h2 := r.h2 / e)
  }

  /** A report in the units `u` read back in SI. */
  function ReportInSI(u: Units, rep: PumpReport): PumpReport
  {
    PumpReport(Normalize(u, rep.inputs), ResultsInSI(u, rep.results))
  }

  /** The page's calculation: normalise to SI, query the tables, apply the
      balance, scale the outputs back; the inputs are echoed as given. */
  function CalcularBomba(t: SteamTables, u: Units, raw: PumpInputs): (r: Result<PumpReport>)
    ensures r.Ok? <==> PumpCore(t, Normalize(u, raw)).Ok?
    ensures r.Err? ==> r.error == PropertyLookup
    ensures r.Ok? ==>
              && r.value.inputs == raw
              && r.value.results.specificVolume == PumpCore(t, Normalize(u, raw)).value.specificVolume
              && r.value.results.massFlow == PumpCore(t, Normalize(u, raw)).value.massFlow
              && ReportInSI(u, r.value).results == PumpCore(t, Normalize(u, raw)).value
  {
    match PumpCore(t, Normalize(u, raw))
    case Err(e) => Err(e)
    case Ok(res) => Ok(PumpReport(raw, Present(u, res)))
  }

  /** Power in the chosen units is the volumetric flow times the pressure
      rise, scaled once; the specific volume from the tables plays no part. */
  lemma PowerIndependentOfSpecificVolume(t: SteamTables, u: Units, raw: PumpInputs)
    requires CalcularBomba(t, u, raw).Ok?
    ensures var si := Normalize(u, raw);
            CalcularBomba(t, u, raw).value.results.power
              == Scale(u, KW_TO_HP) * si.flow * (si.pOut * 1000.0 - si.pIn)
  {
  }

  /** The pump does work on the water exactly when the outlet pressure exceeds
      the inlet pressure as the user typed them, and the outlet enthalpy then
      exceeds the inlet enthalpy. */
  lemma WorkPositiveIffPressureRises(t: SteamTables, u: Units, raw: PumpInputs)
    requires CalcularBomba(t, u, raw).Ok?
    ensures var r := CalcularBomba(t, u, raw).value.results;
            && (r.specificWork > 0.0 <==>
                 if u == SI then raw.pOut * 1000.0 > raw.pIn else raw.pOut > raw.pIn)
            && (r.specificWork > 0.0 <==> r.h2 > r.h1)
  {
  }

  /** Entering the Imperial equivalent of SI inputs gives the SI results,
      once read back in SI. */
  lemma UnitConsistency(t: SteamTables, si: PumpInputs)
    ensures var imperial := CalcularBomba(t, Imperial, ImperialInputs(si));
            var reference := CalcularBomba(t, SI, si);
            && imperial.Ok? == reference.Ok?
            && (reference.Ok? ==> ReportInSI(Imperial, imperial.value) == reference.value)
  {
  }
}
