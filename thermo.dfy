/**
  Shared vocabulary of the six device calculators: the unit system the user
  picks, the conversion factors between SI and Imperial units, the error
  channel of a calculation, and the steam-property tables (IAPWS-IF97) that
  the steam devices query.
 */
module Thermo {

  /** The unit system chosen in the sidebar. Every calculator normalises its
      inputs to SI, computes in SI, and scales its outputs back. */
  datatype Units = SI | Imperial

  datatype Option<T> = None | Some(value: T)

  /** Why a calculation produced no result bundle. */
  datatype CalcError =
    | PropertyLookup       // the steam-property library rejected the requested state
    | DivisionByZero       // a division by zero inside the calculation
    | ZeroTemperatureRise  // the condenser's explicit guard on a zero cooling-water rise

  datatype Result<T> = Ok(value: T) | Err(error: CalcError)

  // ---------------------------------------------------------------------------
  // Conversion factors (one SI unit expressed in Imperial units, unless the
  // name says otherwise). Each page declares the ones it uses with these
  // names and values.
  // ---------------------------------------------------------------------------

  const PSI_TO_KPA: real := 6.89476
  const PSI_TO_MPA: real := 0.00689476
  const MPA_TO_PSI: real := 145.038
  const KPA_TO_PSI: real := 0.145038
  const M3S_TO_FT3S: real := 35.3147
  const KW_TO_HP: real := 1.34102
  const KW_TO_BTUS: real := 0.947817
  const KJ_KG_TO_BTU_LBM: real := 0.429923
  const MM_TO_M: real := 0.001
  const IN_TO_M: real := 0.0254
  const MS_TO_FTS: real := 3.28084
  const M2_TO_FT2: real := 10.7639
  const KGS_TO_LBMS: real := 2.20462
  const M3KG_TO_FT3LBM: real := 16.0185
  const K_TO_R: real := 1.8
  const CM2_TO_IN2: real := 0.155
  const C_TO_F_FACTOR: real := 9.0 / 5.0
  const C_TO_F_OFFSET: real := 32.0
  const KG_MIN_TO_KGS: real := 1.0 / 60.0

  /** Offset between the Celsius and Kelvin scales. */
  const KELVIN_OFFSET: real := 273.15

  /** The value `math.pi` stands for; the proofs only use that it is positive. */
  const PI: real := 3.141592653589793

  /** The factor by which an SI output is multiplied to be shown in `u`:
      1 for SI, `imperial` otherwise. */
  function Scale(u: Units, imperial: real): (k: real)
    requires imperial > 0.0
    ensures k > 0.0
  {
    if u == SI then 1.0 else imperial
  }

  /** A degree-Fahrenheit reading as degrees Celsius. */
  function FahrenheitToCelsius(f: real): (c: real)
    ensures c * C_TO_F_FACTOR + C_TO_F_OFFSET == f
  {
    (f - 32.0) * 5.0 / 9.0
  }

  /** The product of two non-negative quantities is non-negative. */
  lemma ProductNonNegative(a: real, b: real)
    requires a >= 0.0 && b >= 0.0
    ensures a * b >= 0.0
  {
  }

  /** A product is zero only when one of its factors is. */
  lemma ZeroProduct(a: real, b: real)
    requires a * b == 0.0
    ensures a == 0.0 || b == 0.0
  {
  }

  // ---------------------------------------------------------------------------
  // Steam-property tables
  // ---------------------------------------------------------------------------

  /** A specific volume [m³/kg]; the tables only ever report positive ones. */
  type Volume = v: real | v > 0.0 witness 1.0

  /** Specific enthalpy [kJ/kg] and specific volume [m³/kg] of water at a state. */
  datatype ThermoState = ThermoState(h: real, v: Volume)

  /** The steam-property library, queried either by pressure [MPa] and
      temperature [K] or by pressure [MPa] and vapour quality. `None` is the
      library raising because the pair lies outside its region of validity. */
  datatype SteamTables = SteamTables(
    byPT: (real, real) -> Option<ThermoState>,
    byPx: (real, real) -> Option<ThermoState>)

  /** The library refuses a quality outside [0, 1] instead of clamping it. */
  ghost predicate RejectsBadQuality(t: SteamTables)
  {
    forall p: real, x: real :: !(0.0 <= x <= 1.0) ==> t.byPx(p, x).None?
  }
}
