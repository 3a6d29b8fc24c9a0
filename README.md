# PID regulator core, modelled in Dafny

This project models the PID regulator of `Core/Src/PID.c` and `Core/Inc/PID.h`.
A regulator instance holds three gains (`K_Gain`, `I_Gain`, `D_Gain`), an
output bound pair (`MinOutput`/`MaxOutput`) and an integral bound pair
(`MinWindup`/`MaxWindup`). Its state is the integral, the previous input and
the previous filtered input. The model covers these operations:

- `PID_Init_*`: stores the gains, zeroes the state and makes every bound infinite.
- `PID_SetSaturation_*` and `PID_SetAntiWindup_*`: overwrite one bound pair each.
- `PID_Update_*`, `PID_DTermFIR_Update_*` and `PID_DTermIIR_Update_*`: one control step each.

An update computes a proportional term. It then advances the integral by the
trapezoidal rule and clamps it to the windup bounds. It adds a difference-based
derivative term, stores the previous sample(s) and clamps the output to the
saturation bounds.

The single- and double-precision copies are the same algorithm. They are
modelled once, over `real`. Bounds are extended reals (`NegInf | Fin(v) | PosInf`),
so the infinite defaults of `Init` clamp nothing.

Layout:

- `clamp.dfy`, module `Clamping`: the extended reals and `Clamp` (`_clampf32`/`_clampf64`).
- `pid_law.dfy`, module `PidLaw`: the control law as pure functions of a
  configuration and a state. It also holds the lemmas about runs of updates.
- `filter.dfy`, module `SignalFiltering`: the FIR/IIR filter as an opaque object.
  Its update records the raw sample it was fed and the unconstrained value it returns.
- `pid.dfy`, module `Pid`: class `Regulator`, whose fields are those of
  `PID_Instance_f32`/`PID_Instance_f64`. Its methods rewrite the fields in place
  as the C functions do, and each is specified by the `PidLaw` functions. The
  module also holds client methods for concrete scenarios.

The model follows the code as written, in these points:

- The integral state is updated and clamped but never added to the output
  (`Core/Src/PID.c:55-75`). `OutputIgnoresIntegral` proves that the output does not depend on it.
- The derivative term is multiplied by `dt`, not divided by it (`Core/Src/PID.c:68`).
  So no `dt` needs guarding, and the updates have no precondition on `dt`.
- The setters do not check `min <= max` (`Core/Src/PID.c:41-51`). With an
  inverted finite pair, `Clamp` returns the maximum for every input.
- Both feature flags are 1 (`Core/Inc/PID.h:15-16`), so every update applies
  anti-windup and output saturation unconditionally.

Setters that reject inverted pairs, a derivative divided by `dt`, and an integral
term in the output are not what the code does, so the model has none of them.

## Model

| member | source | states |
|---|---|---|
| `Clamping.Clamp` | Core/Src/PID.c:12-22 | With ordered bounds the result lies in `[min, max]`. A value already in range is returned unchanged, so the infinite defaults change nothing. With inverted finite bounds the result is always `max`. |
| `Clamping.ClampIsNearest` | Core/Src/PID.c:12-16 | With ordered bounds, the clamped value is a point of the range nearest to the input. |
| `Clamping.ClampMonotone` | Core/Src/PID.c:12-16 | Clamping preserves the order of two inputs, for any admissible bounds. |
| `Clamping.ClampIdempotent` | Core/Src/PID.c:12-16 | With ordered bounds, clamping an already clamped value changes nothing. |
| `PidLaw.Increment` | Core/Src/PID.c:61 | The trapezoidal increment `(input + previousInput) * 0.5 * I_Gain * dt`; when the input repeats the previous one it is the rectangle `input * I_Gain * dt`. |
| `PidLaw.IntegralAfter` | Core/Src/PID.c:60-65 | The new integral lies in the windup range when that range is ordered. It equals old integral + `(input + previousInput) * 0.5 * I_Gain * dt` when that sum is already in range. |
| `PidLaw.Saturate` | Core/Src/PID.c:71-73 | The saturated output lies in the output range when it is ordered, and an in-range value passes unchanged. |
| `PidLaw.PlainRaw` | Core/Src/PID.c:55-68 | The unsaturated plain output `input * K_Gain + (input - previousInput) * dt * D_Gain`; when the input repeats the previous one it is the proportional term alone. |
| `PidLaw.PlainOutput` | Core/Src/PID.c:55-75 | The plain update's result lies in the output range whenever that range is ordered. |
| `PidLaw.PlainNext` | Core/Src/PID.c:60-69 | After a plain update, the previous input is the new input and the previous filtered input is unchanged. The integral lies in the windup range when that range is ordered. |
| `PidLaw.FilteredRaw` | Core/Src/PID.c:80-95 | The unsaturated filtered output, with the derivative on the filtered difference; when the filtered difference equals the raw one it is the plain value. |
| `PidLaw.FilteredOutput` | Core/Src/PID.c:92-101 | A filtered update's result lies in the output range whenever that range is ordered. |
| `PidLaw.FilteredNext` | Core/Src/PID.c:85-97 | After a filtered update, the previous input is the raw input and the previous filtered input is the filter's result. The integral is the one the plain update computes from the raw input, in the windup range when that range is ordered. |
| `PidLaw.OutputIgnoresIntegral` | Core/Src/PID.c:55-75 | Two states that differ only in the integral give the same output, for the plain and the filtered update alike: the integral state never reaches the output. |
| `PidLaw.IdentityFilterIsPlain` | Core/Src/PID.c:78-104 | A filter that returns its input, fed the same history as the raw path, makes the filtered update coincide with the plain one. So the filter enters only through the derivative term. |
| `PidLaw.Trace` | Core/Src/PID.c:53-76 | A run of plain updates produces one response (output and new state) per sample. |
| `PidLaw.TraceWithinBounds` | Core/Src/PID.c:61-73 | Over any sequence of updates, every output lies in the ordered output range and every integral state in the ordered windup range. |
| `PidLaw.ZeroInputNoDrift` | Core/Src/PID.c:53-76 | From zero integral and zero previous input, any number of zero inputs returns 0 each time and keeps integral and previous input at 0, provided both ranges contain 0. |
| `PidLaw.ConstantInputNoDerivative` | Core/Src/PID.c:67-69 | For a constant input, every output after the first (and the first one too, when the previous input already equals it) is the saturated proportional term alone. |
| `PidLaw.Repeated` | Core/Src/PID.c:61 | The `k`-fold sum of the per-call integral increment has the sign of the increment. |
| `PidLaw.RepeatedIsProduct` | Core/Src/PID.c:61 | The `k`-fold sum of the per-call increment equals `k` times the increment. |
| `PidLaw.Hold` | Core/Src/PID.c:53-76 | The state after `k` plain updates with the same input and period; after at least one call the previous input is that input. |
| `PidLaw.IntegralRampsUp` | Core/Src/PID.c:61-64 | For a steady input (the previous input already equals it) and an integral inside the windup range, with a non-negative increment `d = input * I_Gain * dt`, the integral after `k` calls is exactly `min(integral + k*d, MaxWindup)`: it rises to the upper windup bound and stays there. |
| `PidLaw.IntegralRampsDown` | Core/Src/PID.c:61-64 | The same preconditions with a non-positive `d`: the integral after `k` calls is exactly `max(integral + k*d, MinWindup)`. |
| `PidLaw.StepRampsUp` | Core/Src/PID.c:61-64 | A step to input `x` from any previous input, with the integral inside the windup range: the first call adds the trapezoid `d0 = (x + previousInput)*0.5*I_Gain*dt`, each later call `d = x*I_Gain*dt`. With both non-negative, the integral after `n + 1` calls is exactly `min(integral + d0 + n*d, MaxWindup)`. |
| `PidLaw.StepRampsDown` | Core/Src/PID.c:61-64 | The mirror image for non-positive `d0` and `d`: exactly `max(integral + d0 + n*d, MinWindup)` after `n + 1` calls. |
| `PidLaw.ExtremeInputSaturates` | Core/Src/PID.c:57-73 | Take finite ordered output bounds and `K_Gain + dt*D_Gain > 0`. Every input above an explicit threshold returns exactly `MaxOutput`, and every input below another returns exactly `MinOutput`. |
| `PidLaw.UnboundedUpdate` | Core/Src/PID.c:60-73 | Under the infinite bounds `Init` installs, neither clamp acts: the output is the unsaturated P+D sum and the integral is the old integral plus the trapezoidal increment. |
| `Pid.Regulator.constructor` | Core/Inc/PID.h:21-36 | A declared instance that `Init` has not been applied to: it is not valid, so no update can be called on it. |
| `Pid.Regulator.Init` | Core/Src/PID.c:24-39 | Stores the three gains, sets integral, previous input and previous filtered input to 0, and sets both bound pairs to -inf/+inf. This marks the instance initialized and makes it valid. |
| `Pid.Regulator.SetSaturation` | Core/Src/PID.c:41-45 | Writes exactly `MinOutput`/`MaxOutput`, as given and unchecked. Gains, the windup bounds, the state and whether the instance is initialized are unchanged. |
| `Pid.Regulator.SetAntiWindup` | Core/Src/PID.c:47-51 | Writes exactly `MinWindup`/`MaxWindup`, as given and unchecked. Gains, the output bounds, the state and whether the instance is initialized are unchanged. |
| `Pid.Regulator.Update` | Core/Src/PID.c:53-76 | Requires an instance that `Init` has been applied to. Returns `clamp(input*K_Gain + (input - previousInput)*dt*D_Gain, MinOutput, MaxOutput)`. Sets the integral to `clamp(integral + (input + previousInput)*0.5*I_Gain*dt, MinWindup, MaxWindup)` and the previous input to the input. Leaves the previous filtered input, the gains and the bounds unchanged. The output and the integral lie in their ranges when those are ordered. |
| `Pid.Regulator.FilteredUpdate` | Core/Inc/PID.h:92-114 | Feeds the raw input to the filter exactly once and uses the value the filter returned: the derivative is `(filtered - previousInputFiltered)*dt*D_Gain` and the stored previous filtered input is that returned value, while P and I use the raw input. Only the state fields of the regulator change. |
| `SignalFiltering.RealTimeFilter.Update` | Core/Src/PID.c:93 | One filter call: it records the raw sample it was fed and the filtered sample it returned, and nothing is assumed about the returned value. |
| `Pid.Regulator.DTermFirUpdate` | Core/Src/PID.c:78-104 | The FIR variant: the same contract as `FilteredUpdate`, for a filter of FIR kind. |
| `Pid.Regulator.DTermIirUpdate` | Core/Src/PID.c:106-132 | The IIR variant: the same contract as `FilteredUpdate`, for a filter of IIR kind. |
| `Pid.ProportionalPassThrough` | Core/Src/PID.c:53-76 | A fresh instance initialized with gains 1, 0, 0 returns 2.0 for `Update(2.0, 0.1)`. |
| `Pid.TrapezoidAccumulation` | Core/Src/PID.c:60-61 | With gains 0, 1, 0, two updates with input 1.0 and `dt` 1.0 leave the integral at 0.5 and then 1.5. Both returned outputs are 0, because the integral is not in the output. |
| `Pid.WindupClamp` | Core/Src/PID.c:63-65 | With windup bounds -1 and 1, an update that would take the integral to 2.0 leaves it at exactly 1.0. |
| `Pid.InvertedSaturation` | Core/Src/PID.c:41-45 | The setter accepts the inverted pair (1, -1), after which any update returns -1, the stored maximum. |

## Left out

- Floating point is not modelled: rounding, NaN, IEEE infinity arithmetic and the
  single/double split. The stray `0.5f` in the double-precision FIR variant
  (`Core/Src/PID.c:196`) is the same value over the reals.
- The FIR and IIR filter implementations (`DSP_FIR_RT_Update_*`,
  `DSP_IIR_RT_Update_*`, `SignalFiltering.h`) are not part of this model.
  `SignalFiltering.RealTimeFilter.Update` records the sample it was fed and the
  value it returned, and that value is arbitrary. The model therefore says
  nothing about what the filtered sample is, only that the regulator uses it.
- The `#if` switching on `ANTI_WINDUP_ENABLE` and `OUTPUT_SATURATION_ENABLE` is not
  modelled. Both flags are 1, so clamping is always on.
- The `f64` setter prototypes take a `PID_Instance_f32*` in `Core/Inc/PID.h:132`
  and `Core/Inc/PID.h:140`, unlike their definitions. This C typing defect has no
  behaviour to model.
- Clamping.Clamp: requires that the lower bound is not +inf and the upper bound is
  not -inf. Only `Init` stores infinities, and it stores -inf as the minimum and
  +inf as the maximum. The setters take real numbers, so an infinite bound passed
  to a C setter (a floating-point value) is outside the model.
- Pid.Regulator.SetSaturation: takes real numbers, so it cannot store the
  infinities or NaN a C caller could pass.
- Pid.Regulator.SetAntiWindup: takes real numbers, for the same reason.
- Calling an update on a never-initialized instance is undefined in C. The model
  excludes it: `Valid()` includes a ghost flag that only `Init` sets, a freshly
  constructed `Regulator` does not have it, and every update requires `Valid()`.
  The contents of uninitialized storage are not modelled.
- Timers, interrupts, the HAL and concurrency do not appear in these files.
