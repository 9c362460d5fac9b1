/** The top-level component of frontend/src/App.jsx: the four pieces of
    state it holds, the parameter edit, and the request lifecycle of
    runSimulation, whose await is split into a trigger and two completion
    events. The module ends with the properties that tie the panel, this
    state, the backend and the result view together. */
module App {
  import opened Wrappers
  import opened Backend
  import Sidebar
  import Dashboard

  /** The prefix of every error message shown after a failed run. */
  const ErrorPrefix: string := "Eroare la simulare: "

  /** The initial simulationParams. */
  const InitialParams: Sidebar.Params :=
    map[Sidebar.T_IN := 300.0, Sidebar.FLOW_VELOCITY := 2.0, Sidebar.T_JACKET := 280.0]

  /** The three fields the panel edits and the backend reads are present. */
  ghost predicate HasFields(p: Sidebar.Params)
  {
    Sidebar.T_IN in p && Sidebar.FLOW_VELOCITY in p && Sidebar.T_JACKET in p
  }

  class AppState {
    var simulationParams: Sidebar.Params
    var simulationData: Option<SimulationOutput>
    var loading: bool
    var error: Option<string>

    /** The body of the request in flight, if any. */
    ghost var inFlight: Option<RequestBody>
    /** Runs triggered, and runs that have completed either way. */
    ghost var triggered: nat
    ghost var settled: nat

    /** loading holds exactly while one run is in flight, no run completes
        twice, the error is cleared while loading and always carries the
        prefix, and the parameter record keeps its three fields. */
    ghost predicate Valid()
      reads this
    {
      && HasFields(simulationParams)
      && (loading <==> inFlight.Some?)
      && settled + (if loading then 1 else 0) == triggered
      && (loading ==> error.None?)
      && (error.Some? ==> ErrorPrefix <= error.value)
      && (inFlight.Some? ==> HasFields(inFlight.value))
    }

    /** The useState initial values. */
    constructor ()
      ensures Valid()
      ensures simulationParams == InitialParams
      ensures simulationData == None && !loading && error == None
      ensures inFlight == None && triggered == 0 && settled == 0
    {
      simulationParams := InitialParams;
      simulationData := None;
      loading := false;
      error := None;
      inFlight := None;
      triggered, settled := 0, 0;
    }

    /** handleParamChange: the named field is replaced and every other key
        keeps its value; no range check. Allowed while a run is in flight,
        and the in-flight request is not affected. */
    method HandleParamChange(param: string, value: real)
      requires Valid()
      modifies this`simulationParams
      ensures Valid()
      ensures simulationParams == old(simulationParams)[param := value]
      ensures simulationParams[param] == value
      ensures forall key :: key in old(simulationParams) && key != param ==>
        key in simulationParams && simulationParams[key] == old(simulationParams)[key]
      ensures inFlight == old(inFlight)
    {
      simulationParams := simulationParams[param := value];
    }

    /** The first half of runSimulation, up to the await: loading is set and
        the error cleared, then the current parameter record is posted.
        The button that calls it is disabled while loading. */
    method RunSimulation() returns (request: RequestBody)
      requires Valid() && !loading
      modifies this`loading, this`error, this`inFlight, this`triggered
      ensures Valid()
      ensures loading && error == None
      ensures request == simulationParams == old(simulationParams)
      ensures inFlight == Some(request)
      ensures triggered == old(triggered) + 1
      ensures simulationData == old(simulationData)
    {
      loading := true;
      error := None;
      request := simulationParams;
      inFlight := Some(request);
      triggered := triggered + 1;
    }

    /** The await resolves: the response replaces the data wholesale, the
        error stays cleared, and the finally block clears loading. */
    method OnSuccess(response: SimulationOutput)
      requires Valid() && loading
      modifies this`simulationData, this`loading, this`inFlight, this`settled
      ensures Valid()
      ensures simulationData == Some(response)
      ensures !loading && error == None
      ensures inFlight == None && settled == old(settled) + 1
      ensures simulationParams == old(simulationParams)
    {
      simulationData := Some(response);
      loading := false;
      inFlight := None;
      settled := settled + 1;
    }

    /** The await rejects: the prefixed message is stored, the previous
        data is kept, and the finally block clears loading. */
    method OnFailure(message: string)
      requires Valid() && loading
      modifies this`error, this`loading, this`inFlight, this`settled
      ensures Valid()
      ensures error == Some(ErrorPrefix + message)
      ensures !loading && simulationData == old(simulationData)
      ensures inFlight == None && settled == old(settled) + 1
      ensures simulationParams == old(simulationParams)
    {
      error := Some(ErrorPrefix + message);
      loading := false;
      inFlight := None;
      settled := settled + 1;
    }

    /** A click on the simulate button: `disabled={loading}` makes it do
        nothing while a run is in flight; otherwise it starts a run. */
    method ClickSimulate() returns (request: Option<RequestBody>)
      requires Valid()
      modifies this`loading, this`error, this`inFlight, this`triggered
      ensures Valid()
      ensures old(loading) ==>
        && request == None && loading && error == old(error)
        && inFlight == old(inFlight) && triggered == old(triggered)
      ensures !old(loading) ==>
        && request == Some(old(simulationParams)) && loading && error == None
        && inFlight == request && triggered == old(triggered) + 1
      ensures simulationData == old(simulationData)
    {
      if Sidebar.SimulateEnabled(loading) {
        var body := RunSimulation();
        request := Some(body);
      } else {
        request := None;
      }
    }

    /** What Dashboard renders from this state. Every stored error carries
        the prefix, so it is never the empty string and always selects the
        error view; while a run is in flight the view is the placeholder or
        the results under the overlay. */
    function View(): (v: Dashboard.View)
      reads this
      requires Valid()
      requires error.None? && simulationData.Some? ==> Dashboard.Renderable(simulationData.value)
      ensures error.Some? ==> v == Dashboard.ErrorView(error.value)
      ensures loading ==> v == (if simulationData.None? then Dashboard.Placeholder else
        Dashboard.Results(true, Dashboard.ChartData(simulationData.value), Dashboard.Summarize(simulationData.value)))
      ensures !loading && error.None? && simulationData.Some? ==> v.Results? && !v.overlay
    {
      assert error.Some? ==> |error.value| >= |ErrorPrefix| > 0;
      Dashboard.Render(simulationData, loading, error)
    }
  }

  /** The initial parameters lie in the slider domains. */
  lemma InitialParamsInDomain()
    ensures Sidebar.InDomain(InitialParams)
    ensures HasFields(InitialParams)
  {
  }

  /** A request body built from parameters inside the slider domains is
      parsed by the backend and passes its validation, so /simulate answers
      with the solver's result for exactly those parameter values. */
  lemma PanelRequestAccepted(p: Sidebar.Params)
    requires Sidebar.InDomain(p)
    ensures ParseInput(p).Some?
    ensures var input := ParseInput(p).value;
      && input == SimulationInput(p[Sidebar.T_IN], p[Sidebar.FLOW_VELOCITY], p[Sidebar.T_JACKET])
      && input.Flow_Velocity > 0.0 && input.T_in > 0.0
  {
  }

  /** The panel's residence time uses the reactor length the solver
      integrates over. */
  lemma ResidenceTimeMatchesReactor(flowVelocity: real)
    requires flowVelocity > 0.0
    ensures Sidebar.ResidenceTime(flowVelocity) == LReactor / flowVelocity
  {
  }

  /** Scenario: a parameter edited while a run is in flight does not change
      the posted request, and the next run posts the edited value. */
  method EditWhileRunning(response: SimulationOutput)
  {
    var app := new AppState();
    var first := app.ClickSimulate();
    assert first == Some(InitialParams);
    app.HandleParamChange(Sidebar.T_IN, 330.0);
    assert app.inFlight == Some(InitialParams);
    var ignored := app.ClickSimulate();
    assert ignored == None && app.triggered == 1;
    app.OnSuccess(response);
    assert app.simulationData == Some(response) && !app.loading;
    var second := app.ClickSimulate();
    assert second.Some? && second.value[Sidebar.T_IN] == 330.0;
    assert second.value[Sidebar.FLOW_VELOCITY] == 2.0;
  }

  /** Scenario: a failed run shows a non-empty prefixed message and keeps
      the earlier data; the next trigger clears the error. */
  method FailureThenRetry(response: SimulationOutput, message: string)
  {
    var app := new AppState();
    var _ := app.ClickSimulate();
    app.OnSuccess(response);
    var _ := app.ClickSimulate();
    app.OnFailure(message);
    assert app.error == Some(ErrorPrefix + message) && app.error.value != "";
    assert app.simulationData == Some(response);
    var retry := app.ClickSimulate();
    assert retry.Some? && app.error == None && app.loading;
  }
}
