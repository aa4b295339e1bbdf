/**
  The boiler page: water is heated at constant pressure in a tube of given
  diameter. The outlet velocity fixes the mass flow through the tube, and
  continuity then fixes the inlet volumetric flow and velocity.
 */
module Boiler {
  import opened Thermo

  /** The sidebar inputs: process pressure, inlet and outlet temperature,
      outlet velocity, tube diameter.
      SI: MPa, °C, °C, m/s, mm. Imperial: psi, °F, °F, ft/s, in. */
  datatype BoilerInputs = BoilerInputs(p: real, tIn: real, tOut: real, vOut: real, d: real)

  /** The inputs in SI: pressures [MPa] at inlet and outlet, temperatures
      [°C], outlet velocity [m/s], diameter [m]. */
  datatype BoilerSI = BoilerSI(pIn: real, pOut: real, tIn: real, tOut: real, vOut: real, d: real)

  /** The result bundle: tube area, inlet and outlet specific volume, mass
      flow, inlet volumetric flow, inlet velocity. SI: m², m³/kg, m³/kg, kg/s,
      m³/s, m/s. Imperial: ft², ft³/lbm, ft³/lbm, lbm/s, ft³/s, ft/s. */
  datatype BoilerReport = BoilerReport(
    area: real, specVolIn: real, specVolOut: real,
    massFlow: real, flowIn: real, velocityIn: real)

  /** The inputs in SI. There is no pressure drop: the inlet and the outlet
      are at the process pressure in both unit systems. */
  function Normalize(u: Units, raw: BoilerInputs): (si: BoilerSI)
    ensures si.pIn == si.pOut
    ensures si.d == 0.0 <==> raw.d == 0.0
    ensures u == SI ==> si == BoilerSI(raw.p, raw.p, raw.tIn, raw.tOut, raw.vOut, raw.d * MM_TO_M)
  {
    match u
    case SI => BoilerSI(raw.p, raw.p, raw.tIn, raw.tOut, raw.vOut, raw.d * MM_TO_M)
    case Imperial =>
      var p := raw.p * PSI_TO_MPA;
      BoilerSI(p, p, FahrenheitToCelsius(raw.tIn), FahrenheitToCelsius(raw.tOut),
               raw.vOut / MS_TO_FTS, raw.d * IN_TO_M)
  }

  /** The Imperial sidebar values that stand for the SI sidebar values `raw`. */
  function ImperialInputs(raw: BoilerInputs): (imperial: BoilerInputs)
    ensures Normalize(Imperial, imperial) == Normalize(SI, raw)
  {
    BoilerInputs(raw.p / PSI_TO_MPA, raw.tIn * C_TO_F_FACTOR + C_TO_F_OFFSET,
                 raw.tOut * C_TO_F_FACTOR + C_TO_F_OFFSET, raw.vOut * MS_TO_FTS,
                 raw.d * MM_TO_M / IN_TO_M)
  }

  /** Cross-section [m²] of a round tube of diameter `d` [m]; never negative. */
  function TubeArea(d: real): (a: real)
    ensures a >= 0.0
  {
    var square := d * d;
    assert square >= 0.0 by {
      if d >= 0.0 {
        ProductNonNegative(d, d);
      } else {
        ProductNonNegative(-d, -d);
        assert (-d) * (-d) == square;
      }
    }
    ProductNonNegative(PI, square);
    PI * square / 4.0
  }

  /** A tube has no cross-section exactly when its diameter is zero. */
  lemma TubeAreaZero(d: real)
    ensures TubeArea(d) == 0.0 <==> d == 0.0
  {
    if TubeArea(d) == 0.0 && d != 0.0 {
      ZeroProduct(PI, d * d);
      ZeroProduct(d, d);
    }
  }

  /** The area of a tube grows with the square of its diameter. */
  lemma TubeAreaScaling(d: real, k: real)
    ensures TubeArea(d * k) == k * k * TubeArea(d)
  {
    assert PI * ((d * k) * (d * k)) == k * k * (PI * (d * d));
  }

  /** The balance in SI. The outlet state fixes the mass flow; the inlet state
      fixes the inlet flow; a failed lookup, or a zero diameter (division by
      the area), leaves no result. */
  function BoilerCore(t: SteamTables, si: BoilerSI): (r: Result<BoilerReport>)
    ensures var outlet := t.byPT(si.pOut, si.tOut + KELVIN_OFFSET);
            var inlet := t.byPT(si.pIn, si.tIn + KELVIN_OFFSET);
            && (r.Ok? <==> outlet.Some? && inlet.Some? && si.d != 0.0)
            && (r == Err(PropertyLookup) <==> outlet.None? || inlet.None?)
            && (r.Ok? ==>
                  && r.value.specVolOut == outlet.value.v
                  && r.value.specVolIn == inlet.value.v
                  && r.value.area == TubeArea(si.d)
                  // continuity at the outlet and at the inlet
                  && r.value.massFlow * outlet.value.v == r.value.area * si.vOut
                  && r.value.massFlow * inlet.value.v == r.value.area * r.value.velocityIn
                  && r.value.flowIn == r.value.area * r.value.velocityIn
                  // the inlet velocity does not depend on the tube
                  && r.value.velocityIn * outlet.value.v == si.vOut * inlet.value.v)
  {
    var area := TubeArea(si.d);
    TubeAreaZero(si.d);
    match t.byPT(si.pOut, si.tOut + KELVIN_OFFSET)
    case None => Err(PropertyLookup)
    case Some(outlet) =>
      var massFlow := area * si.vOut / outlet.v;
      match t.byPT(si.pIn, si.tIn + KELVIN_OFFSET)
      case None => Err(PropertyLookup)
      case Some(inlet) =>
        var flowIn := massFlow * inlet.v;
        if area == 0.0 then Err(DivisionByZero)
        else
          var velocityIn := flowIn / area;
          assert velocityIn * outlet.v == si.vOut * inlet.v by {
            assert massFlow * outlet.v == area * si.vOut;
            assert velocityIn * area == massFlow * inlet.v;
          }
          Ok(BoilerReport(area, inlet.v, outlet.v, massFlow, flowIn, velocityIn))
  }

  /** Every output scaled to `u`. */
  function Present(u: Units, r: BoilerReport): (shown: BoilerReport)
    ensures ReportInSI(u, shown) == r
    ensures u == SI ==> shown == r
  {
    BoilerReport(r.area * Scale(u, M2_TO_FT2),
                 r.specVolIn * Scale(u, M3KG_TO_FT3LBM),
                 r.specVolOut * Scale(u, M3KG_TO_FT3LBM),
                 r.massFlow * Scale(u, KGS_TO_LBMS),
                 r.flowIn * Scale(u, M3S_TO_FT3S),
                 r.velocityIn * Scale(u, MS_TO_FTS))
  }

  /** A bundle in the units `u` read back in SI. */
  function ReportInSI(u: Units, r: BoilerReport): BoilerReport
  {
    BoilerReport(r.area / Scale(u, M2_TO_FT2),
                 r.specVolIn / Scale(u, M3KG_TO_FT3LBM),
                 r.specVolOut / Scale(u, M3KG_TO_FT3LBM),
                 r.massFlow / Scale(u, KGS_TO_LBMS),
                 r.flowIn / Scale(u, M3S_TO_FT3S),
                 r.velocityIn / Scale(u, MS_TO_FTS))
  }

  /** The page's calculation: normalise, compute in SI, scale back; any
      failure is reported as an error and nothing else. */
  function CalcularPropiedadesCaldera(t: SteamTables, u: Units, raw: BoilerInputs): (r: Result<BoilerReport>)
    ensures r.Ok? <==> BoilerCore(t, Normalize(u, raw)).Ok?
    ensures r.Err? ==> r == BoilerCore(t, Normalize(u, raw))
    ensures r.Ok? ==> ReportInSI(u, r.value) == BoilerCore(t, Normalize(u, raw)).value
  {
    match BoilerCore(t, Normalize(u, raw))
    case Err(e) => Err(e)
    case Ok(res) => Ok(Present(u, res))
  }

  /** A zero diameter is the only failure left once both states are found. */
  lemma ZeroDiameterFails(t: SteamTables, u: Units, raw: BoilerInputs)
    requires raw.d == 0.0
    ensures CalcularPropiedadesCaldera(t, u, raw).Err?
  {
  }

  /** For the same states, a tube k times as wide carries k² times the mass
      flow at the same inlet velocity. */
  lemma {:induction false} DiameterScaling(t: SteamTables, si: BoilerSI, k: real)
    requires BoilerCore(t, si).Ok? && k != 0.0
    ensures var wide := BoilerCore(t, si.(d := si.d * k));
            && wide.Ok?
            && wide.value.massFlow == k * k * BoilerCore(t, si).value.massFlow
            && wide.value.velocityIn == BoilerCore(t, si).value.velocityIn
  {
    var narrow := BoilerCore(t, si).value;
    var wide := BoilerCore(t, si.(d := si.d * k)).value;
    var vOut := t.byPT(si.pOut, si.tOut + KELVIN_OFFSET).value.v;
    TubeAreaScaling(si.d, k);
    assert wide.massFlow * vOut == k * k * (narrow.massFlow * vOut);
  }

  /** Entering the Imperial equivalent of SI inputs gives the SI results,
      once read back in SI. */
  lemma UnitConsistency(t: SteamTables, raw: BoilerInputs)
    ensures var imperial := CalcularPropiedadesCaldera(t, Imperial, ImperialInputs(raw));
            var reference := CalcularPropiedadesCaldera(t, SI, raw);
            && imperial.Ok? == reference.Ok?
            && (reference.Ok? ==> ReportInSI(Imperial, imperial.value) == reference.value)
  {
  }
}
