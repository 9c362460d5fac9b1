/** The result view of frontend/src/components/Dashboard.jsx: which of the
    three views is rendered, the chart series built from the response, and
    the summary figures read off it. */
module Dashboard {
  import opened Wrappers
  import opened Backend

  /** `Math.round(x * k)`: Math.round rounds half up, to floor(y + 1/2). */
  function RoundedUnits(x: real, k: real): int
  {
    (x * k + 0.5).Floor
  }

  /** `Math.round(x * k) / k`: the multiple of 1/k nearest x, ties going up. */
  function RoundTo(x: real, k: real): (r: real)
    requires k > 0.0
    ensures x - 1.0 / (2.0 * k) < r <= x + 1.0 / (2.0 * k)
    ensures r * k == RoundedUnits(x, k) as real
  {
    RoundBounds(x, k);
    (RoundedUnits(x, k) as real) / k
  }

  lemma RoundBounds(x: real, k: real)
    requires k > 0.0
    ensures x - 1.0 / (2.0 * k) < (RoundedUnits(x, k) as real) / k <= x + 1.0 / (2.0 * k)
  {
    var n := RoundedUnits(x, k);
    var h := 1.0 / (2.0 * k);
    assert h * k == 0.5;
    assert (x - h) * k < n as real <= (x + h) * k;
    DivideStrict(x - h, n as real, k);
    DivideWeak(n as real, x + h, k);
  }

  /** Dividing by k > 0: `a * k < b` gives `a < b / k`. */
  lemma DivideStrict(a: real, b: real, k: real)
    requires k > 0.0 && a * k < b
    ensures a < b / k
  {
    assert b / k * k == b;
  }

  /** Dividing by k > 0: `a <= b * k` gives `a / k <= b`. */
  lemma DivideWeak(a: real, b: real, k: real)
    requires k > 0.0 && a <= b * k
    ensures a / k <= b
  {
    assert a / k * k == a;
  }

  /** RoundTo agrees with its definition as the nearest grid point: a
      multiple n / k of 1 / k lying in (x - 1/(2k), x + 1/(2k)] is the
      rounded value, and there is only one. */
  lemma RoundToIsNearest(x: real, k: real, n: int)
    requires k > 0.0
    requires x - 1.0 / (2.0 * k) < (n as real) / k <= x + 1.0 / (2.0 * k)
    ensures RoundTo(x, k) == (n as real) / k
  {
    var m := RoundedUnits(x, k);
    var h := 1.0 / (2.0 * k);
    assert h * k == 0.5;
    assert (n as real) / k * k == n as real;
    MultiplyStrict(x - h, (n as real) / k, k);
    MultiplyWeak((n as real) / k, x + h, k);
    assert x * k - 0.5 < n as real <= x * k + 0.5;
    assert m == n;
  }

  /** Multiplying a strict comparison by k > 0. */
  lemma MultiplyStrict(a: real, b: real, k: real)
    requires k > 0.0 && a < b
    ensures a * k < b * k
  {
  }

  /** Multiplying a weak comparison by k > 0. */
  lemma MultiplyWeak(a: real, b: real, k: real)
    requires k > 0.0 && a <= b
    ensures a * k <= b * k
  {
  }

  /** Rounding an already rounded value changes nothing. */
  lemma RoundToIdempotent(x: real, k: real)
    requires k > 0.0
    ensures RoundTo(RoundTo(x, k), k) == RoundTo(x, k)
  {
    var r := RoundTo(x, k);
    var n := RoundedUnits(x, k);
    assert r == (n as real) / k;
    assert 1.0 / (2.0 * k) > 0.0;
    RoundToIsNearest(r, k, n);
  }

  /** The number a `toFixed` string denotes: for x < 0 toFixed formats -x
      and prepends a minus sign, so ties round away from zero. */
  function ToFixed(x: real, k: real): (r: real)
    requires k > 0.0
    ensures x >= 0.0 ==> r == RoundTo(x, k)
    ensures x < 0.0 ==> r == -RoundTo(-x, k)
    ensures x - 1.0 / (2.0 * k) <= r <= x + 1.0 / (2.0 * k)
  {
    if x < 0.0 then -RoundTo(-x, k) else RoundTo(x, k)
  }

  /** One element of chartData: the z label, the rounded temperature and
      the rounded concentration. */
  datatype ChartPoint = ChartPoint(z: real, temperatura: real, concentratie: real)

  /** `data.z_axis.map((z, index) => ...)`: one point per element of z_axis,
      point i built from index i of each profile; the temperature rounded to
      0.1 and the concentration to 0.01. */
  function ChartData(data: SimulationOutput): (chart: seq<ChartPoint>)
    requires |data.z_axis| <= |data.temperature_profile| && |data.z_axis| <= |data.concentration_profile|
    ensures |chart| == |data.z_axis|
    ensures forall i :: 0 <= i < |chart| ==>
      && chart[i].z == ToFixed(data.z_axis[i], 100.0)
      && chart[i].temperatura == RoundTo(data.temperature_profile[i], 10.0)
      && chart[i].concentratie == RoundTo(data.concentration_profile[i], 100.0)
    ensures forall i :: 0 <= i < |chart| ==>
      data.temperature_profile[i] - 0.05 < chart[i].temperatura <= data.temperature_profile[i] + 0.05
    ensures forall i :: 0 <= i < |chart| ==>
      data.concentration_profile[i] - 0.005 < chart[i].concentratie <= data.concentration_profile[i] + 0.005
  {
    seq(|data.z_axis|, i requires 0 <= i < |data.z_axis| =>
      ChartPoint(ToFixed(data.z_axis[i], 100.0),
                 RoundTo(data.temperature_profile[i], 10.0),
                 RoundTo(data.concentration_profile[i], 100.0)))
  }

  /** The KPI cards and the numeric-data panel. */
  datatype Summary = Summary(
    finalConversion: real,
    maxTemperature: real,
    maxTemperatureCelsius: real,
    inletTemperature: real,
    outletTemperature: real,
    inletConcentration: real,
    outletConcentration: real,
    sampleCount: nat)

  /** The figures the results view reads off the response; the first and the
      last element of both profiles must exist. */
  function Summarize(data: SimulationOutput): (s: Summary)
    requires |data.temperature_profile| >= 1 && |data.concentration_profile| >= 1
  {
    var T, C := data.temperature_profile, data.concentration_profile;
    Summary(data.final_conversion, data.max_temperature, data.max_temperature - 273.15,
            T[0], T[|T| - 1], C[0], C[|C| - 1], |data.z_axis|)
  }

  /** The three profiles are index-aligned and non-empty. */
  ghost predicate WellShaped(data: SimulationOutput)
  {
    && |data.z_axis| >= 1
    && |data.temperature_profile| == |data.z_axis|
    && |data.concentration_profile| == |data.z_axis|
  }

  /** What the results view needs of a response so that it renders without
      throwing or showing NaN: both profiles have a first and a last element
      for the summary, and a sample for every z point of the chart. Longer
      profiles and an empty z axis render. */
  ghost predicate Renderable(data: SimulationOutput)
  {
    && |data.temperature_profile| >= 1 && |data.concentration_profile| >= 1
    && |data.z_axis| <= |data.temperature_profile|
    && |data.z_axis| <= |data.concentration_profile|
  }

  /** What Dashboard renders. Only the results view has a loading overlay. */
  datatype View =
    | ErrorView(message: string)
    | Placeholder
    | Results(overlay: bool, chart: seq<ChartPoint>, summary: Summary)

  /** `if (error)`: JavaScript treats null and the empty string as false. */
  predicate ErrorShown(error: Option<string>)
  {
    error.Some? && error.value != ""
  }

  /** The early returns of Dashboard: an error first, whatever the data and
      the loading flag; then the placeholder when there is no data; then the
      results, overlaid while loading. */
  function Render(data: Option<SimulationOutput>, loading: bool, error: Option<string>): (v: View)
    requires !ErrorShown(error) && data.Some? ==> Renderable(data.value)
    ensures v.ErrorView? <==> ErrorShown(error)
    ensures v.ErrorView? ==> v.message == error.value
    ensures v.Placeholder? <==> !ErrorShown(error) && data.None?
    ensures v.Results? <==> !ErrorShown(error) && data.Some?
    ensures v.Results? ==>
      && v.overlay == loading
      && v.chart == ChartData(data.value)
      && v.summary == Summarize(data.value)
  {
    if ErrorShown(error) then ErrorView(error.value)
    else if data.None? then Placeholder
    else Results(loading, ChartData(data.value), Summarize(data.value))
  }

  /** The summary of a renderable response: inlet and outlet are the first
      and the last sample of each profile, the sample count is the length of
      z_axis, and the Celsius annotation is max_temperature - 273.15. */
  lemma SummaryOfResponse(data: SimulationOutput)
    requires Renderable(data)
    ensures var s := Summarize(data); var T, C := data.temperature_profile, data.concentration_profile;
      && s.sampleCount == |data.z_axis|
      && s.inletTemperature == T[0]
      && s.outletTemperature == T[|T| - 1]
      && s.inletConcentration == C[0]
      && s.outletConcentration == C[|C| - 1]
      && s.maxTemperature == data.max_temperature
      && s.maxTemperatureCelsius + 273.15 == data.max_temperature
      && s.finalConversion == data.final_conversion
  {
  }

  /** What the view shows for a response of the backend: the response is
      well-shaped, with 501 samples; the inlet figures are the requested
      T_in and C_A_inlet; the maximum temperature is at least the inlet and
      the outlet temperature; and, for k > 0, the outlet concentration lies
      between 0 and the inlet one and the conversion is the relative drop
      between them, in [0, 100]. */
  lemma SummaryOfSolution(input: SimulationInput, k: real -> real)
    requires input.Flow_Velocity > 0.0
    ensures WellShaped(Solution(input, k)) && Renderable(Solution(input, k))
    ensures var s := Summarize(Solution(input, k));
      && s.sampleCount == 501
      && s.inletTemperature == input.T_in
      && s.inletConcentration == CAInlet
      && s.inletTemperature <= s.maxTemperature && s.outletTemperature <= s.maxTemperature
      && s.finalConversion == (s.inletConcentration - s.outletConcentration) / s.inletConcentration * 100.0
      && (PositiveRate(k) ==>
            && 0.0 <= s.outletConcentration <= s.inletConcentration
            && 0.0 <= s.finalConversion <= 100.0)
  {
    SolutionShape(input, k);
    ProfilesShape(input.T_in, input.Flow_Velocity, input.T_jacket, k);
  }

  /** The mocked round trip: three samples along the reactor. */
  lemma MockedResponse()
    ensures var data := SimulationOutput([0.0, 2.5, 5.0], [300.0, 310.0, 305.0], [1.0, 0.6, 0.4], 60.0, 310.0);
      && WellShaped(data)
      && Summarize(data) == Summary(60.0, 310.0, 36.85, 300.0, 305.0, 1.0, 0.4, 3)
      && ChartData(data) == [ChartPoint(0.0, 300.0, 1.0), ChartPoint(2.5, 310.0, 0.6), ChartPoint(5.0, 305.0, 0.4)]
  {
    var data := SimulationOutput([0.0, 2.5, 5.0], [300.0, 310.0, 305.0], [1.0, 0.6, 0.4], 60.0, 310.0);
    RoundToIsNearest(0.0, 100.0, 0);
    RoundToIsNearest(2.5, 100.0, 250);
    RoundToIsNearest(5.0, 100.0, 500);
    RoundToIsNearest(300.0, 10.0, 3000);
    RoundToIsNearest(310.0, 10.0, 3100);
    RoundToIsNearest(305.0, 10.0, 3050);
    RoundToIsNearest(1.0, 100.0, 100);
    RoundToIsNearest(0.6, 100.0, 60);
    RoundToIsNearest(0.4, 100.0, 40);
  }
}
