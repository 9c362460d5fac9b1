/** The simulation service of backend/main.py: the constants of
    ReactorParams, the explicit-Euler loop of solve_pfr_model and the
    validation and KPIs of the /simulate endpoint.

    Floating-point numbers are modelled as reals. The Arrhenius rate
    k_rate (which calls exp) is a parameter `k` of the model; the heat and
    mass balances are written out over the reals. */
module Backend {
  import opened Wrappers

  // ReactorParams (main.py:36-58)
  const LReactor: real := 5.0
  const DTube: real := 0.05
  const DeltaH: real := -250000.0
  const Rho: real := 1000.0
  const Cp: real := 4200.0
  const U: real := 500.0
  const ASurface: real := 0.785
  const CMolar: real := 1000.0
  const CAInlet: real := 1.0
  const Dz: real := 0.01

  /** num_steps, the number of grid cells; NumStepsValue shows that it is
      `int(L_reactor / dz) + 1` (`int` truncates; the quotient is 500). */
  const NumSteps: nat := 501

  /** The request body, as the pydantic model SimulationInput parses it. */
  datatype SimulationInput = SimulationInput(T_in: real, Flow_Velocity: real, T_jacket: real)

  /** The response body, as the pydantic model SimulationOutput shapes it. */
  datatype SimulationOutput = SimulationOutput(
    z_axis: seq<real>,
    temperature_profile: seq<real>,
    concentration_profile: seq<real>,
    final_conversion: real,
    max_temperature: real)

  /** The JSON body as the client sends it: field name to number. */
  type RequestBody = map<string, real>

  /** The pydantic parse of a request body into SimulationInput: the three
      fields must be present; other keys are ignored. */
  function ParseInput(body: RequestBody): (r: Option<SimulationInput>)
    ensures r.Some? <==> "T_in" in body && "Flow_Velocity" in body && "T_jacket" in body
    ensures r.Some? ==>
      r.value.T_in == body["T_in"] && r.value.Flow_Velocity == body["Flow_Velocity"]
      && r.value.T_jacket == body["T_jacket"]
  {
    if "T_in" in body && "Flow_Velocity" in body && "T_jacket" in body
    then Some(SimulationInput(body["T_in"], body["Flow_Velocity"], body["T_jacket"]))
    else None
  }

  /** The two ValueErrors raised by `simulate` before the solver runs. */
  datatype SimError = NonPositiveVelocity | NonPositiveInletTemperature
  {
    function Message(): string
    {
      match this
      case NonPositiveVelocity => "Viteza fluidului trebuie să fie pozitivă"
      case NonPositiveInletTemperature => "Temperatura de intrare trebuie să fie pozitivă"
    }
  }

  /** k(T) > 0 for every temperature, as k0 * exp(...) is for k0 > 0. */
  ghost predicate PositiveRate(k: real -> real)
  {
    forall t :: k(t) > 0.0
  }

  lemma NumStepsValue()
    ensures NumSteps == (LReactor / Dz).Floor + 1
  {
  }

  /** np.linspace(start, stop, num) with its default endpoint=True. */
  function Linspace(start: real, stop: real, num: nat): (r: seq<real>)
    ensures |r| == num
    ensures num >= 1 ==> r[0] == start
    ensures num >= 2 ==> r[num - 1] == stop
    ensures start <= stop ==> forall i, j :: 0 <= i <= j < num ==> r[i] <= r[j]
  {
    if num == 0 then []
    else if num == 1 then [start]
    else
      var r := seq(num, i requires 0 <= i < num => LinspacePoint(start, stop, num, i));
      assert start <= stop ==> forall i, j :: 0 <= i <= j < num ==> r[i] <= r[j] by {
        if start <= stop {
          forall i, j | 0 <= i <= j < num ensures r[i] <= r[j] {
            LinspacePointMonotone(start, stop, num, i, j);
          }
        }
      }
      assert r[num - 1] == stop by {
        LinspacePointLast(start, stop, num);
      }
      r
  }

  /** The grid is evenly spaced: consecutive points differ by
      (stop - start) / (num - 1). */
  lemma LinspaceSpacing(start: real, stop: real, num: nat, i: nat)
    requires num >= 2 && i + 1 < num
    ensures Linspace(start, stop, num)[i + 1] - Linspace(start, stop, num)[i] == (stop - start) / ((num - 1) as real)
  {
    var m := (num - 1) as real;
    var d := (stop - start) / m;
    assert (i as real) * (stop - start) / m == (i as real) * d;
    assert ((i + 1) as real) * (stop - start) / m == ((i + 1) as real) * d;
    assert ((i + 1) as real) * d == (i as real) * d + d;
  }

  /** The z axis of solve_pfr_model steps by dz, the step the Euler loop
      integrates with. */
  lemma ZAxisSpacing(i: nat)
    requires i + 1 < NumSteps
    ensures Linspace(0.0, LReactor, NumSteps)[i + 1] - Linspace(0.0, LReactor, NumSteps)[i] == Dz
  {
    LinspaceSpacing(0.0, LReactor, NumSteps, i);
  }

  /** Point i of an evenly spaced grid of num >= 2 points. */
  function LinspacePoint(start: real, stop: real, num: nat, i: nat): real
    requires num >= 2
  {
    start + (i as real) * (stop - start) / ((num - 1) as real)
  }

  lemma LinspacePointMonotone(start: real, stop: real, num: nat, i: nat, j: nat)
    requires num >= 2 && start <= stop && i <= j
    ensures LinspacePoint(start, stop, num, i) <= LinspacePoint(start, stop, num, j)
  {
    var d, m := stop - start, (num - 1) as real;
    assert (i as real) * d <= (j as real) * d;
    assert (i as real) * d / m <= (j as real) * d / m;
  }

  lemma LinspacePointLast(start: real, stop: real, num: nat)
    requires num >= 2
    ensures LinspacePoint(start, stop, num, num - 1) == stop
  {
    var d, m := stop - start, (num - 1) as real;
    assert m * d / m == d;
  }

  /** The state of one grid cell: temperature and concentration of A. */
  datatype Cell = Cell(T: real, C_A: real)

  /** Python's `max(x, 0.0)`: the first argument unless 0.0 is larger. */
  function Clamp0(x: real): (r: real)
    ensures r >= 0.0
    ensures r >= x
    ensures x >= 0.0 ==> r == x
    ensures x < 0.0 ==> r == 0.0
  {
    if 0.0 > x then 0.0 else x
  }

  /** dC_A/dz = -k / u * C_A (main.py:107). */
  function MassDerivative(C_A: real, kT: real, u: real): real
    requires u > 0.0
  {
    -kT / u * C_A
  }

  /** A non-negative rate consumes A: the concentration never rises, it
      falls wherever A is present and the rate is positive, and it stays put
      once A is gone. */
  lemma MassDerivativeSign(C_A: real, kT: real, u: real)
    requires u > 0.0
    ensures kT >= 0.0 && C_A >= 0.0 ==> MassDerivative(C_A, kT, u) <= 0.0
    ensures kT > 0.0 && C_A > 0.0 ==> MassDerivative(C_A, kT, u) < 0.0
    ensures C_A == 0.0 ==> MassDerivative(C_A, kT, u) == 0.0
  {
    var rate := kT / u;
    assert kT > 0.0 ==> rate > 0.0;
    assert kT >= 0.0 ==> rate >= 0.0;
    assert MassDerivative(C_A, kT, u) == -(rate * C_A);
  }

  /** dT/dz = (heat generated - heat exchanged) / (rho * c_p * u) (main.py:113-115). */
  function HeatDerivative(T: real, C_A: real, kT: real, u: real, T_jacket: real): real
    requires u > 0.0
  {
    var heat_generated := -DeltaH * kT * C_A * CMolar;
    var heat_exchanged := U * ASurface * (T - T_jacket);
    (heat_generated - heat_exchanged) / (Rho * Cp * u)
  }

  /** The exothermic reaction (Delta_H < 0) only heats, and the jacket pulls
      T towards T_jacket: with no reaction heat the fluid cools exactly when
      it is hotter than the jacket, and it never cools when the reaction
      runs and the jacket is at least as hot. */
  lemma HeatDerivativeSign(T: real, C_A: real, kT: real, u: real, T_jacket: real)
    requires u > 0.0
    ensures kT * C_A >= 0.0 && T <= T_jacket ==> HeatDerivative(T, C_A, kT, u, T_jacket) >= 0.0
    ensures kT * C_A == 0.0 ==>
      && (HeatDerivative(T, C_A, kT, u, T_jacket) < 0.0 <==> T > T_jacket)
      && (HeatDerivative(T, C_A, kT, u, T_jacket) == 0.0 <==> T == T_jacket)
  {
    var heat_generated := -DeltaH * kT * C_A * CMolar;
    var heat_exchanged := U * ASurface * (T - T_jacket);
    var capacity := Rho * Cp * u;
    assert heat_generated == 250000000.0 * (kT * C_A);
    DivisionSign(heat_generated - heat_exchanged, capacity);
  }

  /** A quotient by a positive number keeps the sign of the dividend. */
  lemma DivisionSign(a: real, b: real)
    requires b > 0.0
    ensures (a / b > 0.0 <==> a > 0.0) && (a / b == 0.0 <==> a == 0.0)
  {
    assert a / b * b == a;
  }

  /** One Euler step from cell i to cell i + 1, with the clamp of C_A at 0. */
  function Step(c: Cell, u: real, T_jacket: real, k: real -> real): (r: Cell)
    requires u > 0.0
    ensures r.C_A >= 0.0
    ensures k(c.T) > 0.0 && c.C_A >= 0.0 ==> r.C_A <= c.C_A
  {
    var kT := k(c.T);
    MassDerivativeSign(c.C_A, kT, u);
    Cell(c.T + HeatDerivative(c.T, c.C_A, kT, u, T_jacket) * Dz,
         Clamp0(c.C_A + MassDerivative(c.C_A, kT, u) * Dz))
  }

  /** Cell i of the solution: the inlet conditions, then i Euler steps. */
  function CellAt(i: nat, T_in: real, u: real, T_jacket: real, k: real -> real): (c: Cell)
    requires u > 0.0
    ensures c.C_A >= 0.0
  {
    if i == 0 then Cell(T_in, CAInlet)
    else Step(CellAt(i - 1, T_in, u, T_jacket, k), u, T_jacket, k)
  }

  /** The T_profile array solve_pfr_model returns. */
  function TProfile(T_in: real, u: real, T_jacket: real, k: real -> real): seq<real>
    requires u > 0.0
  {
    seq(NumSteps, i requires 0 <= i < NumSteps => CellAt(i, T_in, u, T_jacket, k).T)
  }

  /** The C_A_profile array solve_pfr_model returns. */
  function CProfile(T_in: real, u: real, T_jacket: real, k: real -> real): seq<real>
    requires u > 0.0
  {
    seq(NumSteps, i requires 0 <= i < NumSteps => CellAt(i, T_in, u, T_jacket, k).C_A)
  }

  /** One iteration of the loop of solve_pfr_model: cell i + 1 is the Euler
      Step of cell i, C_A clamped at 0 in place; so when cell i is cell i of
      the solution (CellAt), cell i + 1 is cell i + 1 of it. */
  method EulerStep(T_profile: array<real>, C_A_profile: array<real>, i: nat,
                   ghost T_in: real, u: real, T_jacket: real, k: real -> real)
    requires u > 0.0 && T_profile != C_A_profile
    requires i + 1 < T_profile.Length && i + 1 < C_A_profile.Length
    requires Cell(T_profile[i], C_A_profile[i]) == CellAt(i, T_in, u, T_jacket, k)
    modifies T_profile, C_A_profile
    ensures Cell(T_profile[i + 1], C_A_profile[i + 1]) == CellAt(i + 1, T_in, u, T_jacket, k)
    ensures Cell(T_profile[i + 1], C_A_profile[i + 1])
         == Step(Cell(old(T_profile[i]), old(C_A_profile[i])), u, T_jacket, k)
    ensures forall j :: 0 <= j < T_profile.Length && j != i + 1 ==> T_profile[j] == old(T_profile[j])
    ensures forall j :: 0 <= j < C_A_profile.Length && j != i + 1 ==> C_A_profile[j] == old(C_A_profile[j])
  {
    var T := T_profile[i];
    var C_A := C_A_profile[i];
    var kT := k(T);
    var dC_A_dz := MassDerivative(C_A, kT, u);
    var dT_dz := HeatDerivative(T, C_A, kT, u, T_jacket);
    C_A_profile[i + 1] := C_A + dC_A_dz * Dz;
    T_profile[i + 1] := T + dT_dz * Dz;
    C_A_profile[i + 1] := Clamp0(C_A_profile[i + 1]);
  }

  /** solve_pfr_model: allocates both profiles, sets the inlet cell and
      fills cells 1 .. num_steps - 1 in place, one Euler step per
      iteration. */
  method SolvePfrModel(T_in: real, u: real, T_jacket: real, k: real -> real)
    returns (z_axis: seq<real>, T_profile: array<real>, C_A_profile: array<real>)
    requires u > 0.0
    ensures fresh(T_profile) && fresh(C_A_profile) && T_profile != C_A_profile
    ensures z_axis == Linspace(0.0, LReactor, NumSteps)
    ensures T_profile[..] == TProfile(T_in, u, T_jacket, k)
    ensures C_A_profile[..] == CProfile(T_in, u, T_jacket, k)
  {
    var num_steps := NumSteps;
    z_axis := Linspace(0.0, LReactor, num_steps);
    // np.zeros: every cell is written before it is read, so the model
    // does not pin the initial contents.
    T_profile := new real[num_steps];
    C_A_profile := new real[num_steps];
    T_profile[0] := T_in;
    C_A_profile[0] := CAInlet;
    for i := 0 to num_steps - 1
      invariant forall j :: 0 <= j <= i ==> Cell(T_profile[j], C_A_profile[j]) == CellAt(j, T_in, u, T_jacket, k)
    {
      EulerStep(T_profile, C_A_profile, i, T_in, u, T_jacket, k);
    }
    ProfilesFromCells(T_profile[..], C_A_profile[..], T_in, u, T_jacket, k);
  }

  /** Two arrays that hold cells 0 .. num_steps - 1 are the two profiles. */
  lemma ProfilesFromCells(T: seq<real>, C: seq<real>, T_in: real, u: real, T_jacket: real, k: real -> real)
    requires u > 0.0 && |T| == |C| == NumSteps
    requires forall j :: 0 <= j < NumSteps ==> Cell(T[j], C[j]) == CellAt(j, T_in, u, T_jacket, k)
    ensures T == TProfile(T_in, u, T_jacket, k)
    ensures C == CProfile(T_in, u, T_jacket, k)
  {
  }

  /** np.max over a non-empty profile. */
  function SeqMax(s: seq<real>): (m: real)
    requires |s| > 0
    ensures forall i :: 0 <= i < |s| ==> s[i] <= m
    ensures exists i :: 0 <= i < |s| && s[i] == m
  {
    if |s| == 1 then s[0]
    else
      var prefix := s[..|s| - 1];
      var m := SeqMax(prefix);
      assert forall i :: 0 <= i < |prefix| ==> s[i] == prefix[i];
      if s[|s| - 1] > m then s[|s| - 1] else m
  }

  /** final_conversion = (C_A_inlet - C_A_outlet) / C_A_inlet * 100. */
  function FinalConversion(C_A_outlet: real): (r: real)
    ensures 0.0 <= C_A_outlet <= CAInlet ==> 0.0 <= r <= 100.0
    ensures C_A_outlet == CAInlet ==> r == 0.0
    ensures C_A_outlet == 0.0 ==> r == 100.0
  {
    ((CAInlet - C_A_outlet) / CAInlet) * 100.0
  }

  /** The response the endpoint builds for a validated input. */
  function Solution(input: SimulationInput, k: real -> real): (out: SimulationOutput)
    requires input.Flow_Velocity > 0.0
    ensures |out.z_axis| == |out.temperature_profile| == |out.concentration_profile| == NumSteps
    ensures out.temperature_profile[0] == input.T_in && out.concentration_profile[0] == CAInlet
  {
    var T := TProfile(input.T_in, input.Flow_Velocity, input.T_jacket, k);
    var C := CProfile(input.T_in, input.Flow_Velocity, input.T_jacket, k);
    SimulationOutput(Linspace(0.0, LReactor, NumSteps), T, C, FinalConversion(C[|C| - 1]), SeqMax(T))
  }

  /** The /simulate endpoint: validation, the solver, then the KPIs. */
  method Simulate(input: SimulationInput, k: real -> real) returns (r: Result<SimulationOutput, SimError>)
    ensures input.Flow_Velocity <= 0.0 ==> r == Failure(NonPositiveVelocity)
    ensures input.Flow_Velocity > 0.0 && input.T_in <= 0.0 ==> r == Failure(NonPositiveInletTemperature)
    ensures input.Flow_Velocity > 0.0 && input.T_in > 0.0 ==> r == Success(Solution(input, k))
    ensures r.Failure? ==>
      r.error.Message() == (if input.Flow_Velocity <= 0.0 then "Viteza fluidului trebuie să fie pozitivă"
       else "Temperatura de intrare trebuie să fie pozitivă")
  {
    if input.Flow_Velocity <= 0.0 {
      return Failure(NonPositiveVelocity);
    }
    if input.T_in <= 0.0 {
      return Failure(NonPositiveInletTemperature);
    }
    var z_axis, T_profile, C_A_profile := SolvePfrModel(input.T_in, input.Flow_Velocity, input.T_jacket, k);
    var final_conversion := FinalConversion(C_A_profile[C_A_profile.Length - 1]);
    var max_temperature := SeqMax(T_profile[..]);
    r := Success(SimulationOutput(z_axis, T_profile[..], C_A_profile[..], final_conversion, max_temperature));
  }

  // Properties of the solution

  /** With k > 0 and u > 0, C_A never increases from cell i to cell j >= i. */
  lemma {:induction false} ConcentrationNonIncreasing(i: nat, j: nat, T_in: real, u: real, T_jacket: real, k: real -> real)
    requires u > 0.0 && PositiveRate(k) && i <= j
    ensures CellAt(j, T_in, u, T_jacket, k).C_A <= CellAt(i, T_in, u, T_jacket, k).C_A
  {
    if i < j {
      ConcentrationNonIncreasing(i, j - 1, T_in, u, T_jacket, k);
      var prev := CellAt(j - 1, T_in, u, T_jacket, k);
      assert k(prev.T) > 0.0;
    }
  }

  /** The shape of the two profiles solve_pfr_model fills: num_steps cells,
      the inlet conditions in cell 0, C_A >= 0 everywhere, and, for k > 0,
      C_A non-increasing along the reactor and bounded by C_A_inlet. */
  lemma ProfilesShape(T_in: real, u: real, T_jacket: real, k: real -> real)
    requires u > 0.0
    ensures |TProfile(T_in, u, T_jacket, k)| == |CProfile(T_in, u, T_jacket, k)| == NumSteps
    ensures TProfile(T_in, u, T_jacket, k)[0] == T_in
    ensures CProfile(T_in, u, T_jacket, k)[0] == CAInlet
    ensures forall i :: 0 <= i < NumSteps ==> CProfile(T_in, u, T_jacket, k)[i] >= 0.0
    ensures PositiveRate(k) ==>
      forall i, j :: 0 <= i <= j < NumSteps ==> CProfile(T_in, u, T_jacket, k)[j] <= CProfile(T_in, u, T_jacket, k)[i]
    ensures PositiveRate(k) ==>
      forall i :: 0 <= i < NumSteps ==> CProfile(T_in, u, T_jacket, k)[i] <= CAInlet
  {
    var C := CProfile(T_in, u, T_jacket, k);
    if PositiveRate(k) {
      forall i, j | 0 <= i <= j < NumSteps ensures C[j] <= C[i] {
        ConcentrationNonIncreasing(i, j, T_in, u, T_jacket, k);
      }
      forall i | 0 <= i < NumSteps ensures C[i] <= CAInlet {
        ConcentrationNonIncreasing(0, i, T_in, u, T_jacket, k);
      }
    }
  }

  /** What /simulate returns for a validated input: three aligned arrays of
      num_steps samples, z from 0 to L_reactor, the inlet conditions first,
      max_temperature the largest temperature sample, and, for k > 0, a
      final conversion in [0, 100] computed from the first and last
      concentration samples. */
  lemma SolutionShape(input: SimulationInput, k: real -> real)
    requires input.Flow_Velocity > 0.0
    ensures var out := Solution(input, k);
      && |out.z_axis| == |out.temperature_profile| == |out.concentration_profile| == 501
      && out.z_axis[0] == 0.0 && out.z_axis[500] == LReactor
      && out.temperature_profile[0] == input.T_in
      && out.concentration_profile[0] == CAInlet
      && (forall i :: 0 <= i < 501 ==> out.temperature_profile[i] <= out.max_temperature)
      && (exists i :: 0 <= i < 501 && out.temperature_profile[i] == out.max_temperature)
      && out.final_conversion
         == (out.concentration_profile[0] - out.concentration_profile[500]) / out.concentration_profile[0] * 100.0
      && (PositiveRate(k) ==> 0.0 <= out.final_conversion <= 100.0)
  {
    ProfilesShape(input.T_in, input.Flow_Velocity, input.T_jacket, k);
  }
}
