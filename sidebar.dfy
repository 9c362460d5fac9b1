/** The parameter panel of frontend/src/components/Sidebar.jsx: three range
    sliders that report parameter edits, the residence-time annotation and
    the simulate button, which is disabled while a run is in flight. */
module Sidebar {
  /** simulationParams as the JavaScript object it is: field name to number. */
  type Params = map<string, real>

  const T_IN: string := "T_in"
  const FLOW_VELOCITY: string := "Flow_Velocity"
  const T_JACKET: string := "T_jacket"

  /** The reactor length the residence-time annotation divides by. */
  const ReactorLength: real := 5.0

  /** An `<input type="range">`: the field it reports, its min, max and step. */
  datatype Slider = Slider(field: string, min: real, max: real, step: real)
  {
    ghost predicate Valid()
    {
      step > 0.0 && min <= max
    }

    /** The last slider position: the number of whole steps from min to max. */
    function Positions(): int
      requires Valid()
    {
      ((max - min) / step).Floor
    }

    /** The value the slider shows at position pos. */
    function ValueAt(pos: nat): real
    {
      min + (pos as real) * step
    }
  }

  const TInSlider: Slider := Slider(T_IN, 273.0, 350.0, 1.0)
  const FlowVelocitySlider: Slider := Slider(FLOW_VELOCITY, 0.5, 5.0, 0.1)
  const TJacketSlider: Slider := Slider(T_JACKET, 250.0, 300.0, 1.0)

  ghost predicate IsPanelSlider(s: Slider)
  {
    s == TInSlider || s == FlowVelocitySlider || s == TJacketSlider
  }

  /** The arguments of one onParamChange call. */
  datatype ParamChange = ParamChange(param: string, value: real)

  /** The onChange handler of a slider moved to position pos:
      `onParamChange(field, parseFloat(e.target.value))`. The value reported
      is the slider's own field, inside [min, max] and on the step grid. */
  function OnChange(s: Slider, pos: nat): (e: ParamChange)
    requires s.Valid() && pos <= s.Positions()
    ensures e.param == s.field
    ensures s.min <= e.value <= s.max
    ensures e.value == s.ValueAt(pos)
  {
    PositionInRange(s, pos);
    ParamChange(s.field, s.ValueAt(pos))
  }

  lemma PositionInRange(s: Slider, pos: nat)
    requires s.Valid() && pos <= s.Positions()
    ensures s.min <= s.ValueAt(pos) <= s.max
  {
    var q := (s.max - s.min) / s.step;
    assert (pos as real) <= q;
    assert (pos as real) * s.step <= q * s.step;
    assert q * s.step == s.max - s.min;
  }

  /** Conversely, every value on the step grid inside [min, max] is the value
      of some slider position, so the slider reaches exactly the grid points. */
  lemma GridPointReachable(s: Slider, j: nat)
    requires s.Valid() && s.ValueAt(j) <= s.max
    ensures j <= s.Positions()
    ensures OnChange(s, j).value == s.ValueAt(j)
  {
    var q := (s.max - s.min) / s.step;
    assert (j as real) * s.step <= s.max - s.min;
    assert q * s.step == s.max - s.min;
    DivideBothSides((j as real) * s.step, s.max - s.min, s.step);
    assert (j as real) * s.step / s.step == j as real;
    assert (j as real) <= q;
  }

  lemma DivideBothSides(a: real, b: real, c: real)
    requires c > 0.0 && a <= b
    ensures a / c <= b / c
  {
  }

  /** The three panel sliders: T_in in [273, 350] step 1 (78 positions),
      Flow_Velocity in [0.5, 5] step 0.1 (46 positions), T_jacket in
      [250, 300] step 1 (51 positions), each reporting its own field. */
  lemma PanelSliders()
    ensures TInSlider.Valid() && TInSlider.Positions() == 77
    ensures TInSlider.ValueAt(0) == 273.0 && TInSlider.ValueAt(77) == 350.0
    ensures FlowVelocitySlider.Valid() && FlowVelocitySlider.Positions() == 45
    ensures FlowVelocitySlider.ValueAt(0) == 0.5 && FlowVelocitySlider.ValueAt(45) == 5.0
    ensures TJacketSlider.Valid() && TJacketSlider.Positions() == 50
    ensures TJacketSlider.ValueAt(0) == 250.0 && TJacketSlider.ValueAt(50) == 300.0
    ensures TInSlider.field == "T_in" && FlowVelocitySlider.field == "Flow_Velocity"
            && TJacketSlider.field == "T_jacket"
    ensures T_IN != FLOW_VELOCITY && T_IN != T_JACKET && FLOW_VELOCITY != T_JACKET
  {
  }

  /** The value of a field lies in the slider's domain. */
  ghost predicate InSliderRange(s: Slider, p: Params)
  {
    s.field in p && s.min <= p[s.field] <= s.max
  }

  /** Every parameter is present and inside the domain of its slider. */
  ghost predicate InDomain(p: Params)
  {
    InSliderRange(TInSlider, p) && InSliderRange(FlowVelocitySlider, p) && InSliderRange(TJacketSlider, p)
  }

  /** Applying any panel slider's change to parameters inside their domains
      keeps them inside their domains: the sliders are the range check the
      parameter store itself does not do. */
  lemma SliderChangeKeepsDomain(p: Params, s: Slider, pos: nat)
    requires InDomain(p) && IsPanelSlider(s)
    requires s.Valid() && pos <= s.Positions()
    ensures var e := OnChange(s, pos); InDomain(p[e.param := e.value])
  {
    PanelSliders();
  }

  /** The residence-time annotation `5.0 / params.Flow_Velocity`. */
  function ResidenceTime(flowVelocity: real): (t: real)
    requires flowVelocity != 0.0
    ensures t * flowVelocity == ReactorLength
    ensures 0.5 <= flowVelocity <= 5.0 ==> 1.0 <= t <= 10.0
  {
    ResidenceTimeBounds(flowVelocity);
    ReactorLength / flowVelocity
  }

  lemma ResidenceTimeBounds(u: real)
    requires u != 0.0
    ensures 0.5 <= u <= 5.0 ==> 1.0 <= ReactorLength / u <= 10.0
  {
    if 0.5 <= u <= 5.0 {
      DivideBothSides(5.0, 10.0 * u, u);
      DivideBothSides(1.0 * u, 5.0, u);
    }
  }

  /** At the minimum flow velocity the residence time is exactly 10 s. */
  lemma ResidenceTimeAtMinimum()
    ensures ResidenceTime(FlowVelocitySlider.min) == 10.0
  {
  }

  /** `disabled={loading}` on the simulate button. */
  predicate SimulateEnabled(loading: bool)
  {
    !loading
  }
}
