/** The regulator's control law as pure functions of its configuration and state:
    what one update returns and what state it leaves behind, for the plain update
    and for the two variants that difference a filtered sample. The `Regulator`
    class in module Pid is specified by these functions; the lemmas here state
    what repeated updates do. */
module PidLaw {
  import opened Clamping

  /** The configuration fields of a regulator instance. */
  datatype Config = Config(
    kGain: real, iGain: real, dGain: real,
    minOutput: ExtReal, maxOutput: ExtReal,
    minWindup: ExtReal, maxWindup: ExtReal)

  /** The state fields of a regulator instance. */
  datatype State = State(integral: real, previousInput: real, previousInputFiltered: real)

  /** One call of the plain update: the control error and the sampling period. */
  datatype Sample = Sample(input: real, dt: real)

  /** What one call returns and the state it leaves. */
  datatype Response = Response(output: real, state: State)

  /** Both bound pairs have a shape `Init` and the setters can produce. */
  predicate WellFormed(c: Config) {
    Admissible(c.minOutput, c.maxOutput) && Admissible(c.minWindup, c.maxWindup)
  }

  /** The configuration `Init` installs: the given gains, every bound infinite. */
  function Unbounded(k: real, i: real, d: real): (c: Config)
    ensures WellFormed(c)
  {
    Config(k, i, d, NegInf, PosInf, NegInf, PosInf)
  }

  /** The state `Init` installs. */
  const Zero := State(0.0, 0.0, 0.0)

  /** The trapezoidal increment of the integral: the mean of the current and
      previous raw inputs, times the integral gain and the period. When the
      input repeats the previous one the trapezoid is a rectangle. */
  function Increment(c: Config, s: State, input: real, dt: real): (r: real)
    ensures input == s.previousInput ==> r == input * c.iGain * dt
  {
    (input + s.previousInput) * 0.5 * c.iGain * dt
  }

  /** The integral state after one update: the increment added, then
      anti-windup clamping. */
  function IntegralAfter(c: Config, s: State, input: real, dt: real): (r: real)
    requires WellFormed(c)
    ensures AtMost(c.minWindup, c.maxWindup) ==> Within(r, c.minWindup, c.maxWindup)
    ensures Within(s.integral + Increment(c, s, input, dt), c.minWindup, c.maxWindup)
            ==> r == s.integral + Increment(c, s, input, dt)
  {
    Clamp(s.integral + Increment(c, s, input, dt), c.minWindup, c.maxWindup)
  }

  /** Output saturation. */
  function Saturate(c: Config, raw: real): (r: real)
    requires WellFormed(c)
    ensures AtMost(c.minOutput, c.maxOutput) ==> Within(r, c.minOutput, c.maxOutput)
    ensures Within(raw, c.minOutput, c.maxOutput) ==> r == raw
  {
    Clamp(raw, c.minOutput, c.maxOutput)
  }

  /** The plain update's output before saturation: proportional term plus the
      raw difference of inputs times `dt` times the derivative gain. A repeated
      input leaves the proportional term alone. */
  function PlainRaw(c: Config, s: State, input: real, dt: real): (r: real)
    ensures input == s.previousInput ==> r == input * c.kGain
  {
    input * c.kGain + (input - s.previousInput) * dt * c.dGain
  }

  /** The value the plain update returns. */
  function PlainOutput(c: Config, s: State, input: real, dt: real): (r: real)
    requires WellFormed(c)
    ensures AtMost(c.minOutput, c.maxOutput) ==> Within(r, c.minOutput, c.maxOutput)
  {
    Saturate(c, PlainRaw(c, s, input, dt))
  }

  /** The state the plain update leaves. */
  function PlainNext(c: Config, s: State, input: real, dt: real): (s': State)
    requires WellFormed(c)
    ensures s'.previousInput == input && s'.previousInputFiltered == s.previousInputFiltered
    ensures AtMost(c.minWindup, c.maxWindup) ==> Within(s'.integral, c.minWindup, c.maxWindup)
  {
    State(IntegralAfter(c, s, input, dt), input, s.previousInputFiltered)
  }

  /** A filtered update's output before saturation: the proportional term
      uses the raw input, the derivative term the difference of filtered
      samples. A filtered difference equal to the raw one gives the plain value. */
  function FilteredRaw(c: Config, s: State, input: real, filtered: real, dt: real): (r: real)
    ensures filtered - s.previousInputFiltered == input - s.previousInput ==> r == PlainRaw(c, s, input, dt)
  {
    input * c.kGain + (filtered - s.previousInputFiltered) * dt * c.dGain
  }

  /** The value a filtered update returns. */
  function FilteredOutput(c: Config, s: State, input: real, filtered: real, dt: real): (r: real)
    requires WellFormed(c)
    ensures AtMost(c.minOutput, c.maxOutput) ==> Within(r, c.minOutput, c.maxOutput)
  {
    Saturate(c, FilteredRaw(c, s, input, filtered, dt))
  }

  /** The state a filtered update leaves: integral from the raw inputs, both
      previous samples replaced. */
  function FilteredNext(c: Config, s: State, input: real, filtered: real, dt: real): (s': State)
    requires WellFormed(c)
    ensures s'.previousInput == input && s'.previousInputFiltered == filtered
    ensures s'.integral == PlainNext(c, s, input, dt).integral
    ensures AtMost(c.minWindup, c.maxWindup) ==> Within(s'.integral, c.minWindup, c.maxWindup)
  {
    State(IntegralAfter(c, s, input, dt), input, filtered)
  }

  /** The integral state never reaches the output: two states that differ only
      in it give the same output, plain or filtered. */
  lemma OutputIgnoresIntegral(c: Config, s: State, a: real, input: real, filtered: real, dt: real)
    requires WellFormed(c)
    ensures PlainOutput(c, s.(integral := a), input, dt) == PlainOutput(c, s, input, dt)
    ensures FilteredOutput(c, s.(integral := a), input, filtered, dt) == FilteredOutput(c, s, input, filtered, dt)
  {
    var s' := s.(integral := a);
    assert s'.previousInput == s.previousInput && s'.previousInputFiltered == s.previousInputFiltered;
    assert PlainRaw(c, s', input, dt) == PlainRaw(c, s, input, dt);
    assert FilteredRaw(c, s', input, filtered, dt) == FilteredRaw(c, s, input, filtered, dt);
  }

  /** A filter that passes its input through unchanged, fed the same samples as
      the raw path, turns a filtered update into the plain one. */
  lemma IdentityFilterIsPlain(c: Config, s: State, input: real, dt: real)
    requires WellFormed(c)
    requires s.previousInputFiltered == s.previousInput
    ensures FilteredOutput(c, s, input, input, dt) == PlainOutput(c, s, input, dt)
    ensures FilteredNext(c, s, input, input, dt) == PlainNext(c, s, input, dt).(previousInputFiltered := input)
  {
    assert FilteredRaw(c, s, input, input, dt) == PlainRaw(c, s, input, dt);
  }

  /** The responses of successive plain updates, one per sample. */
  function Trace(c: Config, s: State, xs: seq<Sample>): (t: seq<Response>)
    requires WellFormed(c)
    ensures |t| == |xs|
    decreases |xs|
  {
    if xs == [] then []
    else
      var s' := PlainNext(c, s, xs[0].input, xs[0].dt);
      [Response(PlainOutput(c, s, xs[0].input, xs[0].dt), s')] + Trace(c, s', xs[1..])
  }

  /** Over any sequence of updates, every output lies in the saturation range
      and every integral state in the windup range, whenever the pair is ordered. */
  lemma {:induction false} TraceWithinBounds(c: Config, s: State, xs: seq<Sample>)
    requires WellFormed(c)
    ensures AtMost(c.minOutput, c.maxOutput) ==>
      forall i | 0 <= i < |xs| :: Within(Trace(c, s, xs)[i].output, c.minOutput, c.maxOutput)
    ensures AtMost(c.minWindup, c.maxWindup) ==>
      forall i | 0 <= i < |xs| :: Within(Trace(c, s, xs)[i].state.integral, c.minWindup, c.maxWindup)
    decreases |xs|
  {
    if xs != [] {
      TraceWithinBounds(c, PlainNext(c, s, xs[0].input, xs[0].dt), xs[1..]);
    }
  }

  /** No drift: from zero integral and zero previous input, a run of zero
      inputs keeps returning zero and keeps the state at zero, provided both
      ranges contain zero. */
  lemma {:induction false} ZeroInputNoDrift(c: Config, s: State, xs: seq<Sample>)
    requires WellFormed(c)
    requires Within(0.0, c.minOutput, c.maxOutput) && Within(0.0, c.minWindup, c.maxWindup)
    requires s.integral == 0.0 && s.previousInput == 0.0
    requires forall i | 0 <= i < |xs| :: xs[i].input == 0.0
    ensures forall i | 0 <= i < |xs| ::
      Trace(c, s, xs)[i].output == 0.0 &&
      Trace(c, s, xs)[i].state.integral == 0.0 &&
      Trace(c, s, xs)[i].state.previousInput == 0.0
    decreases |xs|
  {
    if xs != [] {
      var s' := PlainNext(c, s, xs[0].input, xs[0].dt);
      ZeroStep(c, s, xs[0].dt);
      ZeroInputNoDrift(c, s', xs[1..]);
      forall i | 1 <= i < |xs|
        ensures Trace(c, s, xs)[i] == Trace(c, s', xs[1..])[i - 1]
      {
      }
    }
  }

  /** One step of ZeroInputNoDrift. */
  lemma ZeroStep(c: Config, s: State, dt: real)
    requires WellFormed(c)
    requires Within(0.0, c.minOutput, c.maxOutput) && Within(0.0, c.minWindup, c.maxWindup)
    requires s.integral == 0.0 && s.previousInput == 0.0
    ensures PlainOutput(c, s, 0.0, dt) == 0.0
    ensures PlainNext(c, s, 0.0, dt).integral == 0.0 && PlainNext(c, s, 0.0, dt).previousInput == 0.0
  {
    assert Increment(c, s, 0.0, dt) == 0.0;
    assert PlainRaw(c, s, 0.0, dt) == 0.0;
  }

  /** With a constant input the derivative term vanishes: every output after
      the first (and the first too, when the previous input already equals it)
      is the saturated proportional term alone. */
  lemma {:induction false} ConstantInputNoDerivative(c: Config, s: State, x: real, xs: seq<Sample>)
    requires WellFormed(c)
    requires forall i | 0 <= i < |xs| :: xs[i].input == x
    ensures forall i | 0 <= i < |xs| && (i > 0 || s.previousInput == x) ::
      Trace(c, s, xs)[i].output == Saturate(c, x * c.kGain)
    decreases |xs|
  {
    if xs != [] {
      var s' := PlainNext(c, s, xs[0].input, xs[0].dt);
      ConstantInputNoDerivative(c, s', x, xs[1..]);
      assert s'.previousInput == x;
      forall i | 1 <= i < |xs|
        ensures Trace(c, s, xs)[i] == Trace(c, s', xs[1..])[i - 1]
      {
      }
    }
  }

  /** The state after `k` plain updates with the same input and period. */
  function Hold(c: Config, s: State, x: real, dt: real, k: nat): (s': State)
    requires WellFormed(c)
    ensures k > 0 ==> s'.previousInput == x
  {
    if k == 0 then s else PlainNext(c, Hold(c, s, x, dt, k - 1), x, dt)
  }

  /** `x` lowered to `hi` when above it. */
  function CapAt(x: real, hi: ExtReal): (r: real)
    requires !hi.NegInf?
  {
    if Above(x, hi) then hi.v else x
  }

  /** `x` raised to `lo` when below it. */
  function FloorAt(x: real, lo: ExtReal): (r: real)
    requires !lo.PosInf?
  {
    if Below(x, lo) then lo.v else x
  }

  /** One step of IntegralRampsUp: clamping a capped ramp plus a further
      non-negative increment is the cap of the longer ramp. */
  lemma CapStep(i0: real, m: real, d: real, lo: ExtReal, hi: ExtReal)
    requires Admissible(lo, hi) && Within(i0, lo, hi)
    requires m >= 0.0 && d >= 0.0
    ensures Clamp(CapAt(i0 + m, hi) + d, lo, hi) == CapAt(i0 + m + d, hi)
  {
  }

  /** One step of IntegralRampsDown. */
  lemma FloorStep(i0: real, m: real, d: real, lo: ExtReal, hi: ExtReal)
    requires Admissible(lo, hi) && Within(i0, lo, hi)
    requires m <= 0.0 && d <= 0.0
    ensures Clamp(FloorAt(i0 + m, lo) + d, lo, hi) == FloorAt(i0 + m + d, lo)
  {
  }

  /** Once the previous input equals the constant input, each further call
      adds `x * iGain * dt` to the integral before clamping. */
  lemma HoldStep(c: Config, s: State, x: real, dt: real, k: nat)
    requires WellFormed(c)
    requires s.previousInput == x && k > 0
    ensures Hold(c, s, x, dt, k).integral
         == Clamp(Hold(c, s, x, dt, k - 1).integral + x * c.iGain * dt, c.minWindup, c.maxWindup)
  {
    var before := Hold(c, s, x, dt, k - 1);
    assert before.previousInput == x;
    assert Hold(c, s, x, dt, k) == PlainNext(c, before, x, dt);
    RepeatedInputIncrement(c, before, x, dt);
  }

  /** When the input repeats the previous one, the trapezoid is a rectangle. */
  lemma RepeatedInputIncrement(c: Config, s: State, x: real, dt: real)
    requires WellFormed(c) && s.previousInput == x
    ensures PlainNext(c, s, x, dt).integral == Clamp(s.integral + x * c.iGain * dt, c.minWindup, c.maxWindup)
  {
    assert (x + x) * 0.5 * c.iGain * dt == x * c.iGain * dt;
  }

  /** `d` added to itself `k` times. */
  function Repeated(k: nat, d: real): (r: real)
    ensures d >= 0.0 ==> r >= 0.0
    ensures d <= 0.0 ==> r <= 0.0
  {
    if k == 0 then 0.0 else Repeated(k - 1, d) + d
  }

  lemma {:induction false} RepeatedIsProduct(k: nat, d: real)
    ensures Repeated(k, d) == (k as real) * d
  {
    if k > 0 {
      RepeatedIsProduct(k - 1, d);
      assert ((k - 1) as real) * d + d == (k as real) * d;
    }
  }

  /** The ramp of IntegralRampsUp with the `k`-fold sum left as a sum. */
  lemma {:induction false} RampUpBy(c: Config, s: State, x: real, dt: real, k: nat)
    requires WellFormed(c)
    requires s.previousInput == x
    requires Within(s.integral, c.minWindup, c.maxWindup)
    requires x * c.iGain * dt >= 0.0
    ensures Hold(c, s, x, dt, k).integral == CapAt(s.integral + Repeated(k, x * c.iGain * dt), c.maxWindup)
  {
    if k > 0 {
      RampUpBy(c, s, x, dt, k - 1);
      HoldStep(c, s, x, dt, k);
      CapStep(s.integral, Repeated(k - 1, x * c.iGain * dt), x * c.iGain * dt, c.minWindup, c.maxWindup);
    }
  }

  /** The ramp of IntegralRampsDown with the `k`-fold sum left as a sum. */
  lemma {:induction false} RampDownBy(c: Config, s: State, x: real, dt: real, k: nat)
    requires WellFormed(c)
    requires s.previousInput == x
    requires Within(s.integral, c.minWindup, c.maxWindup)
    requires x * c.iGain * dt <= 0.0
    ensures Hold(c, s, x, dt, k).integral == FloorAt(s.integral + Repeated(k, x * c.iGain * dt), c.minWindup)
  {
    if k > 0 {
      RampDownBy(c, s, x, dt, k - 1);
      HoldStep(c, s, x, dt, k);
      FloorStep(s.integral, Repeated(k - 1, x * c.iGain * dt), x * c.iGain * dt, c.minWindup, c.maxWindup);
    }
  }

  /** A capped sum whose `k`-fold part is written as a product. */
  lemma CapAtProduct(h: real, a: real, k: nat, d: real, hi: ExtReal)
    requires !hi.NegInf?
    requires h == CapAt(a + Repeated(k, d), hi)
    ensures h == CapAt(a + (k as real) * d, hi)
  {
    RepeatedIsProduct(k, d);
  }

  /** A floored sum whose `k`-fold part is written as a product. */
  lemma FloorAtProduct(h: real, a: real, k: nat, d: real, lo: ExtReal)
    requires !lo.PosInf?
    requires h == FloorAt(a + Repeated(k, d), lo)
    ensures h == FloorAt(a + (k as real) * d, lo)
  {
    RepeatedIsProduct(k, d);
  }

  /** A steady input (equal to the previous one) whose increment
      `d = x * iGain * dt` is non-negative raises the integral by `d` on every
      call until it meets the upper windup bound, and holds it there: after `k`
      calls it is `min(integral + k * d, max)`. */
  lemma IntegralRampsUp(c: Config, s: State, x: real, dt: real, k: nat, d: real)
    requires WellFormed(c)
    requires s.previousInput == x
    requires Within(s.integral, c.minWindup, c.maxWindup)
    requires d == x * c.iGain * dt && d >= 0.0
    ensures Hold(c, s, x, dt, k).integral == CapAt(s.integral + (k as real) * d, c.maxWindup)
  {
    RampUpBy(c, s, x, dt, k);
    CapAtProduct(Hold(c, s, x, dt, k).integral, s.integral, k, d, c.maxWindup);
  }

  /** The mirror image of IntegralRampsUp: a non-positive increment lowers the
      integral until it meets the lower windup bound, `max(integral + k * d, min)`. */
  lemma IntegralRampsDown(c: Config, s: State, x: real, dt: real, k: nat, d: real)
    requires WellFormed(c)
    requires s.previousInput == x
    requires Within(s.integral, c.minWindup, c.maxWindup)
    requires d == x * c.iGain * dt && d <= 0.0
    ensures Hold(c, s, x, dt, k).integral == FloorAt(s.integral + (k as real) * d, c.minWindup)
  {
    RampDownBy(c, s, x, dt, k);
    FloorAtProduct(Hold(c, s, x, dt, k).integral, s.integral, k, d, c.minWindup);
  }

  /** Running `k` updates after one more is running `k + 1` updates. */
  lemma {:induction false} HoldShift(c: Config, s: State, x: real, dt: real, k: nat)
    requires WellFormed(c)
    ensures Hold(c, PlainNext(c, s, x, dt), x, dt, k) == Hold(c, s, x, dt, k + 1)
  {
    if k > 0 {
      HoldShift(c, s, x, dt, k - 1);
    }
  }

  /** Capping twice, with a non-negative amount added in between, is capping once. */
  lemma CapMerge(a: real, m: real, hi: ExtReal)
    requires !hi.NegInf? && m >= 0.0
    ensures CapAt(CapAt(a, hi) + m, hi) == CapAt(a + m, hi)
  {
  }

  /** Flooring twice, with a non-positive amount added in between, is flooring once. */
  lemma FloorMerge(a: real, m: real, lo: ExtReal)
    requires !lo.PosInf? && m <= 0.0
    ensures FloorAt(FloorAt(a, lo) + m, lo) == FloorAt(a + m, lo)
  {
  }

  /** A step in the input to `x`, from any previous input: the first call adds
      the trapezoid `d0 = (x + previousInput) * 0.5 * iGain * dt`, each of the
      `n` later calls the rectangle `d = x * iGain * dt`. With both
      non-negative, the integral after those `n + 1` calls is
      `min(integral + d0 + n * d, max)`. */
  lemma StepRampsUp(c: Config, s: State, x: real, dt: real, n: nat, d0: real, d: real)
    requires WellFormed(c)
    requires Within(s.integral, c.minWindup, c.maxWindup)
    requires d0 == Increment(c, s, x, dt) && d0 >= 0.0
    requires d == x * c.iGain * dt && d >= 0.0
    ensures Hold(c, s, x, dt, n + 1).integral == CapAt(s.integral + d0 + (n as real) * d, c.maxWindup)
  {
    var s1 := PlainNext(c, s, x, dt);
    CapStep(s.integral, 0.0, d0, c.minWindup, c.maxWindup);
    assert s1.integral == CapAt(s.integral + d0, c.maxWindup);
    RampUpBy(c, s1, x, dt, n);
    HoldShift(c, s, x, dt, n);
    CapMerge(s.integral + d0, Repeated(n, d), c.maxWindup);
    CapAtProduct(Hold(c, s, x, dt, n + 1).integral, s.integral + d0, n, d, c.maxWindup);
  }

  /** The mirror image of StepRampsUp, for non-positive increments:
      `max(integral + d0 + n * d, min)`. */
  lemma StepRampsDown(c: Config, s: State, x: real, dt: real, n: nat, d0: real, d: real)
    requires WellFormed(c)
    requires Within(s.integral, c.minWindup, c.maxWindup)
    requires d0 == Increment(c, s, x, dt) && d0 <= 0.0
    requires d == x * c.iGain * dt && d <= 0.0
    ensures Hold(c, s, x, dt, n + 1).integral == FloorAt(s.integral + d0 + (n as real) * d, c.minWindup)
  {
    var s1 := PlainNext(c, s, x, dt);
    FloorStep(s.integral, 0.0, d0, c.minWindup, c.maxWindup);
    assert s1.integral == FloorAt(s.integral + d0, c.minWindup);
    RampDownBy(c, s1, x, dt, n);
    HoldShift(c, s, x, dt, n);
    FloorMerge(s.integral + d0, Repeated(n, d), c.minWindup);
    FloorAtProduct(Hold(c, s, x, dt, n + 1).integral, s.integral + d0, n, d, c.minWindup);
  }

  /** With finite ordered saturation bounds and a positive combined gain
      `kGain + dt * dGain`, a large enough input returns exactly the maximum and
      a small enough one exactly the minimum. */
  lemma ExtremeInputSaturates(c: Config, s: State, input: real, dt: real)
    requires WellFormed(c)
    requires c.minOutput.Fin? && c.maxOutput.Fin? && c.minOutput.v <= c.maxOutput.v
    requires c.kGain + dt * c.dGain > 0.0
    ensures input >= (c.maxOutput.v + s.previousInput * dt * c.dGain) / (c.kGain + dt * c.dGain)
            ==> PlainOutput(c, s, input, dt) == c.maxOutput.v
    ensures input <= (c.minOutput.v + s.previousInput * dt * c.dGain) / (c.kGain + dt * c.dGain)
            ==> PlainOutput(c, s, input, dt) == c.minOutput.v
  {
    var g := c.kGain + dt * c.dGain;
    var b := s.previousInput * dt * c.dGain;
    var raw := PlainRaw(c, s, input, dt);
    assert raw == input * g - b;
    var hiT := (c.maxOutput.v + b) / g;
    var loT := (c.minOutput.v + b) / g;
    assert hiT * g == c.maxOutput.v + b;
    assert loT * g == c.minOutput.v + b;
    assert PlainOutput(c, s, input, dt) == Clamp(raw, c.minOutput, c.maxOutput);
    if input >= hiT {
      MulAtLeast(input, hiT, g);
      assert raw >= c.maxOutput.v;
    }
    if input <= loT {
      MulAtLeast(loT, input, g);
      assert raw <= c.minOutput.v;
    }
  }

  lemma MulAtLeast(a: real, b: real, g: real)
    requires g > 0.0 && a >= b
    ensures a * g >= b * g
  {
  }

  /** Under the infinite bounds `Init` installs neither clamp acts: the
      output is the raw sum and the integral the plain trapezoidal sum. */
  lemma UnboundedUpdate(c: Config, s: State, input: real, dt: real)
    requires c == Unbounded(c.kGain, c.iGain, c.dGain)
    ensures PlainOutput(c, s, input, dt) == PlainRaw(c, s, input, dt)
    ensures PlainNext(c, s, input, dt) == State(s.integral + Increment(c, s, input, dt), input, s.previousInputFiltered)
  {
  }
}
