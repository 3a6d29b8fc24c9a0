/** A PID regulator instance: its configuration and state fields, updated in
    place by `Init`, the two bound setters and the three update variants. Each
    method is specified by the control law in module PidLaw. */
module Pid {
  import opened Clamping
  import PidLaw
  import opened SignalFiltering

  class Regulator {
    // configuration
    var kGain: real
    var iGain: real
    var dGain: real
    var maxOutput: ExtReal
    var minOutput: ExtReal
    var maxWindup: ExtReal
    var minWindup: ExtReal

    // state
    var integralState: real
    var previousInput: real
    var previousInputFiltered: real

    /** Whether `Init` has been applied to this instance. */
    ghost var initialized: bool

    function Config(): PidLaw.Config
      reads this
    {
      PidLaw.Config(kGain, iGain, dGain, minOutput, maxOutput, minWindup, maxWindup)
    }

    function State(): PidLaw.State
      reads this
    {
      PidLaw.State(integralState, previousInput, previousInputFiltered)
    }

    /** The instance has been initialized, and each bound is a number or the
        infinity `Init` puts on that side. */
    ghost predicate Valid()
      reads this
    {
      initialized && PidLaw.WellFormed(Config())
    }

    /** A declared instance that `Init` has not been applied to yet: its
        fields hold whatever the storage held, and no update may use it. */
    constructor ()
      ensures !initialized && !Valid()
    {
      initialized := false;
    }

    /** Store the gains, zero the state and make every bound infinite, so
        that neither clamp changes anything until a setter is called. */
    method Init(k: real, i: real, d: real)
      modifies this
      ensures Valid()
      ensures Config() == PidLaw.Unbounded(k, i, d)
      ensures State() == PidLaw.Zero
    {
      initialized := true;
      kGain := k;
      iGain := i;
      dGain := d;

      integralState := 0.0;
      previousInput := 0.0;
      previousInputFiltered := 0.0;

      maxOutput := PosInf;
      minOutput := NegInf;

      maxWindup := PosInf;
      minWindup := NegInf;
    }

    /** Set the minimal and maximal allowed output. The pair is stored as
        given: an inverted pair is accepted. */
    method SetSaturation(minOut: real, maxOut: real)
      modifies this
      ensures Config() == old(Config()).(minOutput := Fin(minOut), maxOutput := Fin(maxOut))
      ensures State() == old(State())
      ensures old(Valid()) ==> Valid()
      ensures initialized == old(initialized)
    {
      minOutput := Fin(minOut);
      maxOutput := Fin(maxOut);
    }

    /** Set the minimal and maximal allowed integral state. The pair is
        stored as given: an inverted pair is accepted. */
    method SetAntiWindup(minWind: real, maxWind: real)
      modifies this
      ensures Config() == old(Config()).(minWindup := Fin(minWind), maxWindup := Fin(maxWind))
      ensures State() == old(State())
      ensures old(Valid()) ==> Valid()
      ensures initialized == old(initialized)
    {
      minWindup := Fin(minWind);
      maxWindup := Fin(maxWind);
    }

    /** One control step on control error `input` with sampling period `dt`:
        returns the saturated proportional-plus-derivative response and
        advances the clamped integral state and the previous input. Only the
        three state fields change. */
    method Update(input: real, dt: real) returns (output: real)
      requires Valid()
      modifies this
      ensures output == PidLaw.PlainOutput(old(Config()), old(State()), input, dt)
      ensures State() == PidLaw.PlainNext(old(Config()), old(State()), input, dt)
      ensures Config() == old(Config()) && Valid()
      ensures AtMost(minOutput, maxOutput) ==> Within(output, minOutput, maxOutput)
      ensures AtMost(minWindup, maxWindup) ==> Within(integralState, minWindup, maxWindup)
    {
      ghost var c, s := Config(), State();
      output := 0.0;

      // proportional part
      output := output + input * kGain;

      // integral part, then anti-windup
      integralState := integralState + (input + previousInput) * 0.5 * iGain * dt;
      assert integralState == s.integral + PidLaw.Increment(c, s, input, dt);
      integralState := Clamp(integralState, minWindup, maxWindup);

      // differential part
      output := output + (input - previousInput) * dt * dGain;
      assert output == PidLaw.PlainRaw(c, s, input, dt);
      previousInput := input;

      // output saturation
      output := Clamp(output, minOutput, maxOutput);
    }

    /** The update with a filtered derivative: the raw input goes once through
        the filter; the derivative differences the filtered samples, while the
        proportional and integral parts use the raw input. Both previous
        samples are stored. Shared by the FIR and IIR variants. */
    method FilteredUpdate(filter: RealTimeFilter, input: real, dt: real) returns (output: real)
      requires Valid()
      modifies this, filter
      ensures filter.fed == old(filter.fed) + [input]
      ensures filter.returned == old(filter.returned) + [previousInputFiltered]
      ensures output == PidLaw.FilteredOutput(old(Config()), old(State()), input, previousInputFiltered, dt)
      ensures State() == PidLaw.FilteredNext(old(Config()), old(State()), input, previousInputFiltered, dt)
      ensures Config() == old(Config()) && Valid()
      ensures AtMost(minOutput, maxOutput) ==> Within(output, minOutput, maxOutput)
      ensures AtMost(minWindup, maxWindup) ==> Within(integralState, minWindup, maxWindup)
    {
      ghost var c, s := Config(), State();
      output := 0.0;

      // proportional part
      output := output + input * kGain;

      // integral part, then anti-windup
      integralState := integralState + (input + previousInput) * 0.5 * iGain * dt;
      assert integralState == s.integral + PidLaw.Increment(c, s, input, dt);
      integralState := Clamp(integralState, minWindup, maxWindup);

      // differential part, on the filtered input
      var filteredInput := filter.Update(input);
      output := output + (filteredInput - previousInputFiltered) * dt * dGain;
      assert output == PidLaw.FilteredRaw(c, s, input, filteredInput, dt);
      previousInput := input;
      previousInputFiltered := filteredInput;

      // output saturation
      output := Clamp(output, minOutput, maxOutput);
    }

    /** The update with an FIR-filtered derivative. */
    method DTermFirUpdate(filter: RealTimeFilter, input: real, dt: real) returns (output: real)
      requires Valid() && filter.kind == Fir
      modifies this, filter
      ensures filter.fed == old(filter.fed) + [input]
      ensures filter.returned == old(filter.returned) + [previousInputFiltered]
      ensures output == PidLaw.FilteredOutput(old(Config()), old(State()), input, previousInputFiltered, dt)
      ensures State() == PidLaw.FilteredNext(old(Config()), old(State()), input, previousInputFiltered, dt)
      ensures Config() == old(Config()) && Valid()
    {
      output := FilteredUpdate(filter, input, dt);
    }

    /** The update with an IIR-filtered derivative. */
    method DTermIirUpdate(filter: RealTimeFilter, input: real, dt: real) returns (output: real)
      requires Valid() && filter.kind == Iir
      modifies this, filter
      ensures filter.fed == old(filter.fed) + [input]
      ensures filter.returned == old(filter.returned) + [previousInputFiltered]
      ensures output == PidLaw.FilteredOutput(old(Config()), old(State()), input, previousInputFiltered, dt)
      ensures State() == PidLaw.FilteredNext(old(Config()), old(State()), input, previousInputFiltered, dt)
      ensures Config() == old(Config()) && Valid()
    {
      output := FilteredUpdate(filter, input, dt);
    }
  }

  /** A fresh instance with gains 1, 0, 0 passes an input of 2.0 straight
      through. */
  method ProportionalPassThrough() returns (output: real)
    ensures output == 2.0
  {
    var r := new Regulator();
    r.Init(1.0, 0.0, 0.0);
    output := r.Update(2.0, 0.1);
  }

  /** Gains 0, 1, 0 and two inputs of 1.0 at period 1.0 accumulate the
      trapezoids 0.5 and 1.0, leaving integral 0.5 and then 1.5; the integral
      never shows in the output. */
  method TrapezoidAccumulation() returns (first: real, second: real, out1: real, out2: real)
    ensures first == 0.5 && second == 1.5
    ensures out1 == 0.0 && out2 == 0.0
  {
    var r := new Regulator();
    r.Init(0.0, 1.0, 0.0);
    PidLaw.UnboundedUpdate(r.Config(), r.State(), 1.0, 1.0);
    out1 := r.Update(1.0, 1.0);
    first := r.integralState;
    PidLaw.UnboundedUpdate(r.Config(), r.State(), 1.0, 1.0);
    out2 := r.Update(1.0, 1.0);
    second := r.integralState;
  }

  /** With windup bounds -1 and 1, an update that would take the integral to
      2.0 leaves it at exactly 1.0. */
  method WindupClamp() returns (integral: real)
    ensures integral == 1.0
  {
    var r := new Regulator();
    r.Init(0.0, 1.0, 0.0);
    r.SetAntiWindup(-1.0, 1.0);
    var _ := r.Update(4.0, 1.0);
    integral := r.integralState;
  }

  /** The setter accepts an inverted pair, and then every update returns the
      stored maximum, whatever the input. */
  method InvertedSaturation(input: real, dt: real) returns (output: real)
    ensures output == -1.0
  {
    var r := new Regulator();
    r.Init(1.0, 1.0, 1.0);
    r.SetSaturation(1.0, -1.0);
    output := r.Update(input, dt);
  }
}
