# Thermodynamic device calculators, modelled in Dafny

The application offers one page per steady-flow device: a pump, a boiler tube, a
steam turbine, an air compressor, an air nozzle and a steam condenser. Each page
has one calculation function. It takes the sidebar values plus the unit system
the user picked (SI or Imperial). It does three things in sequence:

1. It normalises the inputs to SI with fixed conversion factors.
2. It applies the first-law and continuity relations for an open system.
3. It scales every output back to the chosen system.

The steam devices look up water properties in the IAPWS-IF97 steam tables. The
air devices treat air as an ideal gas with constant specific heat.

This project models those six functions as pure Dafny functions over `real`,
one module per page:

- `Pump`
- `Boiler`
- `Turbine`
- `Compressor`
- `Nozzle`
- `Condenser`

A shared `Thermo` module holds the unit system, the conversion factors, the
error channel and the steam-table interface.

Every module has the same layers:

- `Normalize(u, raw)`: the sidebar values converted to SI.
- `ImperialInputs`: its partner. It gives the Imperial sidebar values that stand for given SI values.
- `<Device>Core`: the balance in SI. Its contract states the physical relations the page computes and exactly when each error occurs.
- `Present(u, r)`: scales to the chosen units.
- `ReportInSI(u, r)`: reads a displayed bundle back in SI.
- The page function (`CalcularBomba`, `AnalizarTurbina`, …): composes the above. Its contract says the displayed bundle, read back in SI, is the SI balance.
- `UnitConsistency`: the central property. Entering the Imperial equivalent of SI inputs yields the SI results, once read back in SI.

The steam tables are a parameter `SteamTables` with two lookups:

- `byPT`: pressure in MPa and temperature in K.
- `byPx`: pressure in MPa and quality.

A lookup returns `None` when the library would raise. The subset type `Volume`
makes every specific volume it returns positive. A failed lookup or a Python
`ZeroDivisionError` becomes an `Err` result. So does the condenser's explicit
guard on a zero temperature rise. Each has its own `CalcError` constructor.

## Model

| member | source | states |
|---|---|---|
| `Thermo.FahrenheitToCelsius` | pages/B-Caldera.py:110-111 | the Celsius reading c of a Fahrenheit reading f satisfies c·9/5 + 32 = f |
| `Pump.Normalize` | pages/A-Bomba.py:98-115 | SI inputs pass unchanged; the outlet pressure exceeds the inlet pressure after normalisation exactly when it does as typed (in kPa vs MPa for SI, psi vs psi for Imperial) |
| `Pump.ImperialInputs` | pages/A-Bomba.py:111-115 | the Imperial values it returns normalise back to the given SI values |
| `Pump.ImperialInputsInverse` | pages/A-Bomba.py:111-115 | the Imperial normalisation is one-to-one: converting to SI and back returns the typed values |
| `Pump.PumpCore` | pages/A-Bomba.py:118-142 | the tables are queried at saturated liquid at the inlet pressure in MPa, and a failed lookup is the only error; continuity ṁ·v = V̇; w = v·(P_out − P_in) in kPa, for every flow including zero; power = V̇·(P_out − P_in) in kPa, independent of v; power = ṁ·w; w > 0 iff P_out > P_in; h2 − h1 = w |
| `Pump.Present` | pages/A-Bomba.py:145-154 | the displayed results read back in SI are the SI results; specific volume and mass flow are shown unchanged; SI shows everything unchanged |
| `Pump.CalcularBomba` | pages/A-Bomba.py:70-176 | fails exactly when the SI balance fails; echoes the raw inputs; specific volume and mass flow are shown in SI in both systems; the other outputs read back in SI are the SI balance |
| `Pump.PowerIndependentOfSpecificVolume` | pages/A-Bomba.py:132-146 | the displayed power is the unit factor times V̇·(P_out − P_in); the tables' v plays no part |
| `Pump.WorkPositiveIffPressureRises` | pages/A-Bomba.py:135-154 | the displayed work is positive iff the outlet pressure as typed exceeds the inlet pressure, and iff h2 > h1 |
| `Pump.UnitConsistency` | pages/A-Bomba.py:111-154 | Imperial inputs equivalent to SI inputs give the SI outcome, once read back |
| `Boiler.Normalize` | pages/B-Caldera.py:96-113 | inlet and outlet are at the same pressure; the diameter is zero iff the typed one is; SI values pass with mm turned to m |
| `Boiler.ImperialInputs` | pages/B-Caldera.py:108-113 | the Imperial values it returns normalise to the same SI inputs as the given SI values |
| `Boiler.TubeAreaZero` | pages/B-Caldera.py:117 | the tube area π·D²/4 is zero iff D is zero |
| `Boiler.TubeAreaScaling` | pages/B-Caldera.py:117 | the area of a tube k times as wide is k² times larger |
| `Boiler.TubeArea` | pages/B-Caldera.py:117 | the cross-section π·D²/4 of a round tube is never negative |
| `Boiler.BoilerCore` | pages/B-Caldera.py:115-134 | Ok iff both lookups succeed and D ≠ 0; a lookup error iff a lookup fails; continuity ṁ·v_out = A·V_out and ṁ·v_in = A·V_in; V̇_in = A·V_in; V_in·v_out = V_out·v_in |
| `Boiler.Present` | pages/B-Caldera.py:137-150 | the displayed outputs read back in SI are the SI outputs; SI shows them unchanged |
| `Boiler.CalcularPropiedadesCaldera` | pages/B-Caldera.py:67-163 | fails with the SI balance's error and with nothing else; otherwise every output read back in SI is the SI balance |
| `Boiler.ZeroDiameterFails` | pages/B-Caldera.py:117-134 | a zero diameter always yields an error |
| `Boiler.DiameterScaling` | pages/B-Caldera.py:117-134 | for fixed states, widening the tube by k multiplies the mass flow by k² and leaves the inlet velocity unchanged |
| `Boiler.UnitConsistency` | pages/B-Caldera.py:96-150 | Imperial inputs equivalent to SI inputs give the SI outcome, once read back |
| `Turbine.Normalize` | pages/C-Turbinas.py:94-118 | quality is never converted; the signs of ṁ and of the heat losses and zero velocities are kept; SI values pass unchanged |
| `Turbine.ImperialInputs` | pages/C-Turbinas.py:110-118 | the Imperial values it returns normalise back to the given SI values |
| `Turbine.KineticEnergyChange` | pages/C-Turbinas.py:125 | Δke = 0 iff V1² = V2²; Δke > 0 iff the steam speeds up (V2² > V1²); Δke < 0 iff it slows down |
| `Turbine.KineticEnergyChangeAntisymmetric` | pages/C-Turbinas.py:125 | Δke is zero for equal velocities and changes sign when they are swapped |
| `Turbine.TurbineCore` | pages/C-Turbinas.py:120-146 | Ok iff both lookups succeed and V1, V2 ≠ 0; lookup error iff the inlet lookup fails or (V1 ≠ 0 and) the outlet lookup fails; A·V = ṁ·v at both ends; Δh = h1 − h2; Wt_IV = ṁΔh, Wt_III = Wt_IV − ṁΔke, Wt_I = Wt_III − ṁq_I, Wt_II = Wt_IV − ṁq_II |
| `Turbine.Present` | pages/C-Turbinas.py:149-163 | the displayed outputs read back in SI are the SI outputs; SI shows them unchanged; the one power factor keeps Wt_I ≤ Wt_III and Wt_II ≤ Wt_IV exactly when they hold in SI |
| `Turbine.AnalizarTurbina` | pages/C-Turbinas.py:66-172 | fails with the SI balance's error and with nothing else; otherwise every output read back in SI is the SI balance |
| `Turbine.ZeroVelocityFails` | pages/C-Turbinas.py:130-135 | a zero inlet or outlet velocity always yields an error |
| `Turbine.QualityOutOfRangeFails` | pages/C-Turbinas.py:132 | with tables that refuse a quality outside [0, 1], such a quality always yields an error |
| `Turbine.HeatLossLowersPower` | pages/C-Turbinas.py:139-156 | with ṁ ≥ 0 and non-negative losses, displayed Wt_I ≤ Wt_III and Wt_II ≤ Wt_IV in either system |
| `Turbine.KineticEnergyTerm` | pages/C-Turbinas.py:145-156 | displayed Wt_IV − Wt_III is the power factor times ṁ·Δke |
| `Turbine.UnitConsistency` | pages/C-Turbinas.py:94-163 | Imperial inputs equivalent to SI inputs give the SI outcome, once read back |
| `Compressor.Normalize` | pages/D-compresor.py:91-112 | SI values pass unchanged; the signs of ṁ, q_out and P1 and the order of T1, T2 are kept |
| `Compressor.ImperialInputs` | pages/D-compresor.py:100-112 | the Imperial values it returns normalise back to the given SI values |
| `Compressor.CompressorCore` | pages/D-compresor.py:114-125 | P1·V̇1 = ṁ·R·T1 when P1 > 0, else V̇1 = 0; Δh = cp(T2 − T1); 2000·Δke = V2² − V1²; Q̇ = −ṁq_out; Q̇ − Ẇ = ṁ(Δh + Δke); for ṁ > 0, w·ṁ = Ẇ and w = −q_out − Δh − Δke, else w = 0 |
| `Compressor.Present` | pages/D-compresor.py:128-141 | the displayed outputs read back in SI are the SI outputs; SI shows them unchanged; the displayed power is non-positive exactly when the SI power is |
| `Compressor.AnalizarCompresor` | pages/D-compresor.py:66-151 | never fails; every output read back in SI is the SI balance |
| `Compressor.EqualStatesPowerIsHeat` | pages/D-compresor.py:122 | equal inlet and outlet temperature and speed give Ẇ = Q̇ |
| `Compressor.NoChangeNoPower` | pages/D-compresor.py:119-125 | adiabatic with equal end states: zero power and zero work per mass in either system |
| `Compressor.PowerIsConsumed` | pages/D-compresor.py:119-137 | with ṁ ≥ 0, q_out ≥ 0, T2 ≥ T1 and V2² ≥ V1², the displayed power and work per mass are never positive |
| `Compressor.ExtensiveOutputsScaleWithFlow` | pages/D-compresor.py:116-125 | scaling ṁ by k > 0 scales Ẇ, Q̇ and V̇1 by k and leaves Δh, Δke and (for ṁ > 0) w unchanged |
| `Compressor.UnitConsistency` | pages/D-compresor.py:91-141 | Imperial inputs equivalent to SI inputs give the SI results, once read back |
| `Nozzle.Normalize` | pages/E-Tobera.py:93-110 | SI values pass unchanged; a zero inlet pressure or velocity stays zero |
| `Nozzle.ImperialInputs` | pages/E-Tobera.py:100-110 | the Imperial values it returns normalise back to the given SI values |
| `Nozzle.SpecificVolume` | pages/E-Tobera.py:119 | v = 0 iff T = 0 K; at a positive pressure v > 0 iff T > 0 K (so the page's v1 > 0 guard means T1 above absolute zero); at a negative pressure v > 0 iff T < 0 K |
| `Nozzle.NozzleCore` | pages/E-Tobera.py:112-131 | fails iff P1 = 0, with a division error; ṁ·v1 = A1·V1 when v1 > 0, else ṁ = 0; 2·cp·(T2 − T1) = V1² − V2²; A2·V2·P2 = ṁ·R·T2 when P2, V2 > 0, else A2 = 0; ratio·A1 = A2 when A1 > 0, else 0 |
| `Nozzle.AreaFactor` | pages/E-Tobera.py:138-143 | the factor from m² to the displayed area unit (cm² or in²) is positive |
| `Nozzle.Present` | pages/E-Tobera.py:134-143 | the displayed values read back in SI are the SI results; the ratio is shown as computed; the relative and absolute outlet temperatures differ by 273.15 (°C/K) or 459.67 (°F/°R); SI shows T2 in K and A2 in cm² |
| `Nozzle.AnalizarTobera` | pages/E-Tobera.py:69-152 | fails iff P1 = 0; the displayed values read back in SI are the SI balance; the relative and absolute outlet temperatures differ by 273.15 (°C/K) or 459.67 (°F/°R) |
| `Nozzle.CoolsIffAccelerates` | pages/E-Tobera.py:123-125 | cp·T1 + V1²/2 = cp·T2 + V2²/2; T2 < T1 iff V2² > V1², and T2 = T1 iff V2² = V1² |
| `Nozzle.MassConserved` | pages/E-Tobera.py:119-129 | with P2, V2 > 0 and T2 ≠ 0, A2·V2/v2 equals the inlet mass flow |
| `Nozzle.OutletBelowAbsoluteZero` | pages/E-Tobera.py:123-129 | the slider values 350 kPa, −50 °C, 1 m/s, 100 cm², 120 kPa and 1000 m/s give an outlet temperature below 0 K and a negative outlet area |
| `Nozzle.UnitConsistency` | pages/E-Tobera.py:93-143 | Imperial inputs equivalent to SI inputs give the SI outcome, once read back |
| `Condenser.Normalize` | pages/F-Condensador.py:91-105 | the quality passes unchanged; the steam flow is per minute and scaled by 60 (and by the lbm factor); the temperature rise is scaled by 9/5 with no offset |
| `Condenser.ImperialInputs` | pages/F-Condensador.py:98-105 | the Imperial values it returns normalise to the same SI inputs as the given SI values |
| `Condenser.CondenserCore` | pages/F-Condensador.py:107-125 | lookup error iff either saturation lookup fails; zero-rise error iff both succeed and ΔT = 0; otherwise h_fg = h_g − h_f, h_in = h_f + x·h_fg, h_out = h_f, Q̇ = ṁ_v(h_in − h_out), ṁ_w·4.186·ΔT = Q̇ |
| `Condenser.Present` | pages/F-Condensador.py:127-143 | the displayed outputs read back in SI are the SI outputs; the steam flow stays in kg/s; SI shows everything unchanged |
| `Condenser.AnalizarCondensador` | pages/F-Condensador.py:73-158 | fails with the SI balance's error and with nothing else; otherwise every output read back in SI is the SI balance, and the steam flow is shown in kg/s |
| `Condenser.ZeroRiseRefused` | pages/F-Condensador.py:123-124 | a zero temperature rise always yields an error |
| `Condenser.InletEnthalpyBetweenSaturation` | pages/F-Condensador.py:115-117 | for 0 ≤ x ≤ 1 and h_f ≤ h_g, h_f ≤ h_in ≤ h_g in either system |
| `Condenser.QualityEndpoints` | pages/F-Condensador.py:117-125 | x = 0 gives zero heat rate and zero water flow; x = 1 gives h_in = h_g |
| `Condenser.CoolingWaterFlowPositive` | pages/F-Condensador.py:117-125 | positive steam flow, quality, h_fg and ΔT give a positive cooling-water flow |
| `Condenser.UnitConsistency` | pages/F-Condensador.py:91-141 | Imperial inputs equivalent to SI inputs give the SI outcome, once read back |

## Left out

- The Streamlit pages are not modelled. This covers the CSS, page configuration, sidebars, sliders, images, videos and the formatting of the displayed numbers. The slider ranges appear only in `Nozzle.OutletBelowAbsoluteZero`.
- The per-page dictionaries of unit labels are constant strings with no behaviour.
- `@st.cache_data` memoisation does not change the result of a pure function.
- The IAPWS-IF97 correlations are not modelled; the library is the parameter `SteamTables`. Its only assumed properties are a positive specific volume and, where a lemma says so, that it refuses a quality outside [0, 1].
- Floating-point rounding is not modelled; all quantities are `real`. The exact-cancellation identities, such as the pump's v cancelling or unit conversions undoing each other, hold over the reals and only up to rounding in the running program.
- `PI` is `math.pi` written out as a decimal; no proof uses more than its being positive.
- The unit system is chosen by comparing strings. Inputs are converted as SI when the string is the SI label. Outputs are converted as Imperial when it is the Imperial label. Another string would mix the two. The radio offers only the two labels, so `Units` has two values.
- Error messages are not modelled, only their kind (`CalcError`). The pump's failed lookup shows a message and stops the page; this is modelled as `Err(PropertyLookup)`.
- The nozzle divides by P1 without a guard or `try`, so P1 = 0 raises. This is modelled as `Err(DivisionByZero)`. The sliders do not reach it.
- Nozzle.MassConserved also requires T2 ≠ 0. At exactly 0 K the outlet specific volume is zero, and A2·V2/v2 is undefined.
- Compressor.PowerIsConsumed states its speed condition on the SI speeds (V2² ≥ V1²), not on the typed ones; the two conditions are equivalent because the Imperial factor is positive.
- The nozzle converts an Imperial inlet area with 0.155 in² per cm². It displays the outlet area with 10.7639·144 in² per m², which is 1550.0016 rather than 1550. The model keeps both factors as written. `Nozzle.UnitConsistency` compares results read back through the same factors, so this 1-in-10⁶ mismatch does not show there.
- Nozzle.OutletBelowAbsoluteZero shows that nothing bounds the outlet temperature: at high exit speeds the formula goes below 0 K. The page does not guard this. The model reproduces it rather than correcting it, because the page computes exactly the textbook formula.
