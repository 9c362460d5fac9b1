# PFR simulator: request lifecycle, result projection and solver structure

This project models the core of a plug-flow reactor (PFR) simulator in Dafny,
and proves properties of the model. An operator sets three parameters on a
panel: inlet temperature `T_in`, flow velocity `Flow_Velocity` and jacket
temperature `T_jacket`. The client posts them to a `/simulate` service. The
service integrates the reactor with an explicit Euler loop and returns
temperature and concentration profiles. The client shows them as charts and
summary figures.

Modules, one per source file:

- `Backend` (backend/main.py): the `ReactorParams` constants, the pydantic
  field shapes, the Euler loop of `solve_pfr_model` as an imperative method
  over two arrays, and the validation and KPIs of `simulate`.
  Floating-point values are modelled as reals. The Arrhenius rate `k_rate`
  is a parameter `k`. Where a property needs it, `k(T) > 0` is assumed
  (`PositiveRate`). The mass and heat balances are written out over the
  reals.
- `Sidebar` (Sidebar.jsx): the three range sliders and their domains and
  steps, the field each one reports, the residence-time annotation and the
  button guard `disabled={loading}`.
- `Dashboard` (Dashboard.jsx): the choice of view, the `chartData` series
  with `Math.round(x*k)/k` modelled as `Floor(x*k + 1/2)/k`, and the summary
  figures.
- `App` (App.jsx): a class with the four pieces of state and their
  operations. `runSimulation`'s `await` is split into `RunSimulation` (the
  part before the await) and two completion events, `OnSuccess` and
  `OnFailure`. Ghost fields record the in-flight request body and count
  runs triggered and runs settled. The module also holds the lemmas that
  link the panel, the state, the backend and the view.
- `Wrappers`: `Option` and `Result`.

Points where the code behaves in ways worth knowing:

- `handleParamChange` does no range check. The parameter record is a
  JavaScript object updated with `{...prev, [param]: value}`, so it is
  modelled as a `map<string, real>`. The panel's sliders keep values in
  range; `Sidebar.SliderChangeKeepsDomain` proves this. The store itself
  does not.
- After a failure, the code keeps the previous `simulationData`. The error
  view hides it because the error check comes first.
- The code has no stale-response guard. With the button disabled while
  loading, at most one run is in flight; `Valid()` proves this.
- `if (error)` treats the empty string as no error. The model says so. It
  also proves that the App's messages always carry the non-empty prefix.

## Model

| member | source | states |
|---|---|---|
| `Backend.NumStepsValue` | backend/main.py:87 | the grid size 501 is `int(L_reactor / dz) + 1` with L_reactor = 5.0 and dz = 0.01 |
| `Backend.Linspace` | backend/main.py:88 | `np.linspace(start, stop, num)` has num points, starts at start, ends at stop, and is non-decreasing when start <= stop |
| `Backend.LinspaceSpacing` | backend/main.py:88 | consecutive linspace points differ by exactly (stop - start) / (num - 1) |
| `Backend.ZAxisSpacing` | backend/main.py:87-88 | consecutive points of the z axis differ by dz = 0.01, the step the Euler loop integrates with |
| `Backend.Clamp0` | backend/main.py:122 | Python's `max(x, 0.0)` is non-negative and at least x; it is x when x >= 0 and 0.0 when x < 0 |
| `Backend.MassDerivative` | backend/main.py:107 | dC_A/dz = -k/u * C_A; its sign is stated by MassDerivativeSign |
| `Backend.MassDerivativeSign` | backend/main.py:107 | for k >= 0 and C_A >= 0 the derivative is <= 0; strictly negative when k > 0 and C_A > 0; zero when C_A = 0 |
| `Backend.HeatDerivative` | backend/main.py:113-115 | dT/dz = (-Delta_H * k * C_A * C_molar - U * A_surface * (T - T_jacket)) / (rho * c_p * u); its sign is stated by HeatDerivativeSign |
| `Backend.HeatDerivativeSign` | backend/main.py:113-115 | with k*C_A >= 0 and T <= T_jacket the fluid never cools; with no reaction heat it cools exactly when T > T_jacket and is steady exactly when T = T_jacket |
| `Backend.Step` | backend/main.py:99-122 | one Euler step with the clamp: the new C_A is >= 0, and with k(T) > 0 and C_A >= 0 it is at most the old C_A |
| `Backend.CellAt` | backend/main.py:94-122 | cell i of the solution, the inlet cell followed by i Euler steps; every cell's C_A is >= 0 whatever k is |
| `Backend.EulerStep` | backend/main.py:99-122 | one loop iteration writes cell i+1 as Step of the old cell i, in the source's order (C_A, then T, then the clamp in place), and changes no other cell; from cell i of the solution it thus yields cell i+1 of it |
| `Backend.SolvePfrModel` | backend/main.py:73-124 | returns the linspace grid and two fresh, distinct arrays whose contents are the inlet cell followed by num_steps - 1 Euler steps |
| `Backend.SeqMax` | backend/main.py:148 | `np.max` of a non-empty profile is >= every entry and equal to one of them |
| `Backend.FinalConversion` | backend/main.py:147 | the conversion lies in [0, 100] when 0 <= C_A_outlet <= C_A_inlet; it is 0 with no reaction and 100 at full consumption |
| `Backend.ParseInput` | backend/main.py:20-23 | a body parses exactly when T_in, Flow_Velocity and T_jacket are present, and keeps their values |
| `Backend.Solution` | backend/main.py:139-157 | the response for a validated input: three arrays of num_steps samples, inlet T_in and C_A_inlet first; SolutionShape states the rest |
| `Backend.Simulate` | backend/main.py:127-157 | rejects Flow_Velocity <= 0 first, then T_in <= 0, before the solver runs, with the endpoint's two messages; otherwise returns the profiles with the conversion and maximum temperature KPIs |
| `Backend.ConcentrationNonIncreasing` | backend/main.py:107-122 | with k > 0 and u > 0, the concentration at any later cell is at most that at an earlier one |
| `Backend.ProfilesShape` | backend/main.py:87-98 | both profiles have num_steps cells; cell 0 holds T_in and C_A_inlet; all C_A >= 0; with k > 0, C_A is non-increasing and bounded by C_A_inlet |
| `Backend.SolutionShape` | backend/main.py:139-148 | the response has three arrays of 501 samples; z runs from 0 to L_reactor; the inlet cells come first; max_temperature is the largest temperature; the conversion is the relative drop of C_A and, for k > 0, lies in [0, 100] |
| `Sidebar.OnChange` | frontend/src/components/Sidebar.jsx:33 | a slider reports its own field, with a value in [min, max] on the step grid |
| `Sidebar.GridPointReachable` | frontend/src/components/Sidebar.jsx:27-35 | conversely, every grid point min + j*step up to max is a slider position |
| `Sidebar.PanelSliders` | frontend/src/components/Sidebar.jsx:27-87 | T_in spans [273, 350] in steps of 1; Flow_Velocity spans [0.5, 5] in steps of 0.1; T_jacket spans [250, 300] in steps of 1; fields T_in, Flow_Velocity, T_jacket, all distinct |
| `Sidebar.SliderChangeKeepsDomain` | frontend/src/components/Sidebar.jsx:59 | applying any panel slider's change to in-domain parameters keeps all three in their domains |
| `Sidebar.ResidenceTime` | frontend/src/components/Sidebar.jsx:69 | `5.0 / Flow_Velocity` times the velocity is the reactor length; in the slider domain it lies in [1, 10] s |
| `Sidebar.ResidenceTimeAtMinimum` | frontend/src/components/Sidebar.jsx:69 | at the minimum velocity 0.5 the residence time is exactly 10.0 |
| `Sidebar.SimulateEnabled` | frontend/src/components/Sidebar.jsx:106 | `disabled={loading}`: the button is enabled exactly when no run is in flight; App.AppState.ClickSimulate states what a click then does |
| `Dashboard.RoundTo` | frontend/src/components/Dashboard.jsx:44-45 | `Math.round(x*k)/k` is within half a unit 1/k of x, in (x - 1/(2k), x + 1/(2k)], and is a whole number of units |
| `Dashboard.RoundToIsNearest` | frontend/src/components/Dashboard.jsx:44-45 | any multiple of 1/k in that half-open interval is the rounded value, so rounding is to the nearest unit, ties up |
| `Dashboard.RoundToIdempotent` | frontend/src/components/Dashboard.jsx:44-45 | rounding a rounded value changes nothing |
| `Dashboard.ToFixed` | frontend/src/components/Dashboard.jsx:43 | the number shown by `z.toFixed(2)` is within half a unit of z; it is the half-up rounding for z >= 0 and, for z < 0, minus the rounding of -z, so ties go away from zero |
| `Dashboard.ChartData` | frontend/src/components/Dashboard.jsx:42-46 | one point per z sample, point i taken from index i of each profile; temperature within 0.05 and concentration within 0.005 of the sample |
| `Dashboard.ErrorShown` | frontend/src/components/Dashboard.jsx:14 | `if (error)`: an error is shown when one is stored and it is not the empty string; Render states the views it selects |
| `Dashboard.Summarize` | frontend/src/components/Dashboard.jsx:70-203 | the KPI cards and the numeric-data panel read off the response; SummaryOfResponse states which elements they are |
| `Dashboard.Render` | frontend/src/components/Dashboard.jsx:13-57 | an error wins whatever the data and loading flag; then the placeholder when there is no data; then the results, whose overlay exactly follows loading |
| `Dashboard.SummaryOfResponse` | frontend/src/components/Dashboard.jsx:70-203 | inlet and outlet figures are the first and last elements of their profiles; the sample count is the length of z_axis; the Celsius figure is max_temperature - 273.15 |
| `Dashboard.SummaryOfSolution` | frontend/src/components/Dashboard.jsx:172-203 | for a backend response the view's preconditions hold (aligned, non-empty arrays): 501 samples, inlet T = T_in, inlet C = C_A_inlet, max >= inlet and outlet; for k > 0, an outlet C in [0, inlet C] and a conversion in [0, 100] |
| `Dashboard.MockedResponse` | frontend/src/components/Dashboard.jsx:42-202 | for the three-sample response (z 0, 2.5, 5; T 300, 310, 305; C 1, 0.6, 0.4) the summary is inlet 300, outlet 305, max 310 K = 36.85 °C, conversion 60, 3 samples, and each chart point equals its already-rounded sample |
| `App.AppState.constructor` | frontend/src/App.jsx:8-16 | params are T_in 300, Flow_Velocity 2.0, T_jacket 280; there is no data, no loading and no error |
| `App.AppState.HandleParamChange` | frontend/src/App.jsx:33-38 | the named field takes the value unchecked; every other field keeps its value; the in-flight request is untouched |
| `App.AppState.RunSimulation` | frontend/src/App.jsx:18-23 | loading becomes true and the error null; the posted body is the parameter record at that moment; data is untouched |
| `App.AppState.OnSuccess` | frontend/src/App.jsx:24-30 | data becomes the response, the error stays null, loading becomes false and the run is settled once |
| `App.AppState.OnFailure` | frontend/src/App.jsx:25-30 | the error becomes "Eroare la simulare: " + message, data is unchanged, loading becomes false and the run is settled once |
| `App.AppState.ClickSimulate` | frontend/src/components/Sidebar.jsx:104-106 | a click while loading changes nothing and posts nothing; otherwise it starts exactly one run |
| `App.AppState.View` | frontend/src/App.jsx:48-52 | a stored error always selects the error view; while loading the view is the placeholder or the results under the overlay; with data, no error and no run in flight the results show without overlay |
| `App.InitialParamsInDomain` | frontend/src/App.jsx:8-12 | the initial parameters lie in the slider domains |
| `App.PanelRequestAccepted` | backend/main.py:133-136 | a body from in-domain parameters parses, and passes both validation checks |
| `App.ResidenceTimeMatchesReactor` | frontend/src/components/Sidebar.jsx:69 | the panel's 5.0 is the solver's L_reactor |

## Left out

- Floating point: every value is a real. IEEE rounding in the Euler loop is not modelled. Neither are NaN, infinities, or the fact that `5.0 / 0.01` is exactly 500.0 in doubles. The model computes 500 over the reals, so num_steps agrees.
- `k_rate` (backend/main.py:61-70): `np.exp` is a foreign library call, so the Arrhenius expression and its exponent floor of -700 are not modelled. `k` is a parameter, and `k > 0` is assumed where a property needs it.
- Backend.SolvePfrModel: the initial zeros of `np.zeros` are not stated, because every cell is written before it is read.
- Backend.SolvePfrModel: requires u > 0, which the only caller, `simulate`, establishes. Division by zero, which numpy would turn into infinities, is not modelled.
- The FastAPI app, CORS, uvicorn, the `/` endpoint, and pydantic models beyond their field shapes are framework plumbing. So is the HTTP status a raised `ValueError` becomes.
- The axios call and `console.error` (frontend/src/App.jsx:23,27) are I/O. They become the request body returned by `RunSimulation` and the events `OnSuccess`/`OnFailure`. Real asynchrony and React's batching of state updates are not modelled.
- App.AppState.OnSuccess and App.AppState.OnFailure: require a run in flight. A completion arrives only for a request that was sent.
- App.AppState.RunSimulation: requires !loading. Its only caller is the button, which is disabled while loading; `ClickSimulate` models the click itself.
- Dashboard.Render: requires, when results are shown, that both profiles are non-empty and no shorter than z_axis. An empty profile makes the source throw on `[0].toFixed`. A profile shorter than z_axis makes its chart values NaN, because Dashboard.jsx:44-45 reads `undefined`. Both cases are excluded rather than modelled. Longer profiles and an empty z_axis are admitted and modelled as the source renders them.
- `toFixed` string rendering: only the chart's z label is modelled as the number its string denotes (`Dashboard.ToFixed`). The summary figures and the residence time (`Sidebar.ResidenceTime`, Sidebar.jsx:69) are the raw values behind their 1-, 2- and 3-decimal strings.
- Sidebar: slider positions are indices 0 .. Positions. The browser's snapping of arbitrary input to the step grid, and `parseFloat`, are not modelled.
- Recharts configuration, styling, icons and static text; frontend/src/components/KPICard.jsx, which no other component imports; the test scripts run_tests.py and backend/test_api.py are not modelled.
