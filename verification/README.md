# PushButton event engine in Dafny

A model of the `PushButton` driver (PushButon.cpp, PushButton.h). The driver
turns noisy edge interrupts on a button's GPIO line into three notifications,
Press, Hold (repeated from a Press until the next Release) and Release, and
delivers them outside interrupt context: from the one-shot filter timer's
callback with the glitch filter on (the default), from its own thread with
the filter off, and Hold from the periodic hold timer's callback:

- an edge interrupt detaches both edge handlers and posts a signal to the
  thread;
- the thread latches the level the edge leads to (1 for a rise, 0 for a
  fall) and starts a 20 ms one-shot glitch-filter timer (or, with the filter
  off, decides at once);
- the filter re-reads the pin and sorts the edge into Noise, Release, Press or
  an unreachable level error;
- a Press starts a periodic hold timer when a hold interval is configured, a
  Release stops it;
- the edge that leaves the level just read is re-armed.

The model keeps the environment abstract:

- the level read from the pin is an argument of each operation that reads it;
- the armed edge is a `Trigger` (`NoTrigger | Rise | Fall`);
- each timer is a running flag and a period;
- an installed callback is a `Handler` (`NullCallback | UserCallback`);
- every call of a callback slot is appended to a ghost trace of
  `Press(id, handler) | Hold(id, handler) | Release(id, handler)`.

Modules:

- `Types`: the declared types and the filter timeout constant of
  PushButton.h, plus the abstract environment types.
- `Decision`: the pure decisions of the filter callback. These are the
  classification, the edge armed next, and the 32-bit hold interval.
- `Engine`: the whole driver state as a value, with one transition function
  per entry point. `Step` and `Run` let the environment (interrupts, the
  thread, the timers, the application) drive it.
- `Traces`: the phase (pressed or released) a callback trace leaves the
  button in, and the two orderings the driver guarantees.
- `Invariants`: what holds after any sequence of inputs.
- `Scenarios`: concrete runs.
- `Driver`: the imperative class `PushButton`. Each method is proved to
  change the object exactly as the matching `Engine` function changes its
  snapshot. Each public method and each callback also keeps the hold
  invariant: the hold timer runs only while pressed, and every Hold call came
  while pressed. The private helpers `StopHoldTimer`, `RestartHoldTimer` and
  `EnableRiseFallCallbacks` are proved only against their snapshot equation:
  `RestartHoldTimer` starts the hold timer before the Press is recorded, so
  on its own it does not keep the invariant.

Facts about the code that the model follows:

- Every slot has one callback shape, `Callback<void(uint32_t)>`, called with
  the button's id.
- The driver is driven by the pin's edge interrupts only; there is no
  operation that injects a press or release from software.
- The constructor detaches both edge handlers (PushButon.cpp:41-42) and does
  not arm one. The first `enable*Events` call arms one.
- Every `enable*Events` call re-reads the pin into the latch and re-arms an
  edge. Made while an edge is armed and nothing is pending, it only replaces
  the armed edge (`Invariants.EnableCallArms`). Made while a signal is
  posted or the filter timer runs, it adds a second tracked edge. While the
  filter timer runs, its read also replaces the level the pending decision
  compares against; the level of a posted signal is set by the thread
  (PushButon.cpp:145, 155), which overwrites the enable call's read.
  `Scenarios.EnableWhilePendingRepeatsPress` shows a second Press without a
  Release in between. In the model, `Invariants.OneUnresolvedEdge` and
  `Invariants.PressAndReleaseAlternate` hold for every run whose enable calls
  come while nothing is pending, which includes several setup calls in a row
  (`Invariants.SetupThenEnvironment`).
- `gpioFilterCallback` reads the pin twice: once to decide (line 186) and
  once to re-arm (line 243), with the user's slot running in between. The
  model's step function passes one level for both reads, and the
  alternation depends on that. `Engine.GpioFilterTwoReads` keeps the reads
  apart, and `Scenarios.ReleaseLostBetweenReads` shows that a release during
  the press slot is lost: the falling edge is armed with the pin high, Hold
  calls continue with the button up, and the next press gives
  [Press, Hold, Press]. "Pressed" in the hold invariant therefore means
  "after a Press call and before the next Release call", not the pin level.

## Model

| member | source | states |
|---|---|---|
| Decision.Classify | PushButon.cpp:189-230 | Noise exactly when the latched level differs from the one read. Otherwise Press exactly at the active level of the polarity, Release exactly at the other logic level, and a level error exactly for a read above 1. |
| Decision.ExactlyOneLevelTest | PushButon.cpp:196-230 | For a two-level read exactly one of the release and press tests holds, so the level-error branch is unreachable. |
| Decision.PolaritySwapsPressAndRelease | PushButon.cpp:196-208 | Reversing the polarity turns every Press into a Release and back, and leaves Noise alone: polarity alone decides between the two. |
| Decision.ArmFor | PushButon.cpp:242-251 | Exactly one edge is armed, never none. It is the edge that leaves the level just read; any non-zero read counts as high. |
| Decision.HoldMicros | PushButon.cpp:97 | `1000 * millis` in 32 bits equals the true product up to 4294967 ms. |
| Decision.HoldPeriodRoundTrip | PushButon.cpp:215-217 | The hold timer period `hold_us / 1000` equals the interval asked for exactly when the product does not wrap. |
| Decision.HoldMicrosWrapsToZero | PushButon.cpp:94-97 | The accepted non-zero interval 536870912 ms wraps to 0 us, so no hold events are produced. |
| Decision.HoldMicrosWrapsBelowOneMillisecond | PushButon.cpp:94-97 | The accepted interval 115964117 ms wraps to 8 us, so the hold timer would be started with a period of `8/1000` = 0 ms. |
| Engine.Init | PushButon.cpp:35-53 | No contract of its own: `Driver.PushButton.constructor` ensures its snapshot equals `Init`, with no edge armed, nothing posted, no timer running, interval 0, filter on and all slots null. |
| Engine.EnablePressEvents | PushButon.cpp:86-90 | No contract of its own: `Driver.PushButton.EnablePressEvents` ensures the object changes as this function says, installing the press slot and re-arming from the read. |
| Engine.EnableHoldEvents | PushButon.cpp:94-99 | No contract of its own: `Driver.PushButton.EnableHoldEvents` ensures the object changes as this function says, installing the hold slot and storing the 32-bit interval. |
| Engine.EnableReleaseEvents | PushButon.cpp:103-107 | No contract of its own: `Driver.PushButton.EnableReleaseEvents` ensures the object changes as this function says, installing the release slot and re-arming. |
| Engine.DisablePressEvents | PushButon.cpp:111-113 | No contract of its own: `Driver.PushButton.DisablePressEvents` ensures the object changes as this function says, nulling only the press slot. |
| Engine.DisableHoldEvents | PushButon.cpp:117-124 | No contract of its own: `Driver.PushButton.DisableHoldEvents` ensures the object changes as this function says; `Invariants.DisableHoldSilences` states its effect. |
| Engine.DisableReleaseEvents | PushButon.cpp:128-130 | No contract of its own: `Driver.PushButton.DisableReleaseEvents` ensures the object changes as this function says, nulling only the release slot. |
| Engine.SetGlitchFilter | PushButton.h:73-79 | No contract of its own: `Driver.PushButton.EnableGlitchFilter` and `DisableGlitchFilter` ensure the object changes as this function says, only the filter flag changing. |
| Engine.IsrRise | PushButon.cpp:169-173 | No contract of its own: `Driver.PushButton.IsrRiseCallback` ensures the object changes as this function says, detaching both edges and posting the rise signal. |
| Engine.IsrFall | PushButon.cpp:177-181 | No contract of its own: `Driver.PushButton.IsrFallCallback` ensures the object changes as this function says, detaching both edges and posting the fall signal. |
| Engine.HoldTick | PushButon.cpp:235-238 | No contract of its own: `Driver.PushButton.HoldTickCallback` ensures the object changes as this function says, appending one Hold call. |
| Engine.Consume | PushButon.cpp:144-162 | No contract of its own: `Driver.PushButton.ConsumeEdge` ensures the object changes as this function says; `Engine.ConsumeExtendsTrace` states that it only appends to the trace. |
| Engine.TaskStep | PushButon.cpp:139-164 | No contract of its own: `Driver.PushButton.TaskStep` ensures the object changes as this function says; `Engine.TaskStepExtendsTrace` states that it only appends to the trace. |
| Engine.GpioFilter | PushButon.cpp:184-231 | Always re-latches and re-arms from the level read. Signals, filter timer, configuration and slots are untouched. At most one slot is called, never Hold. Noise changes nothing else. A settled 0/1 calls exactly one of Press (active level) or Release. Afterwards the hold timer runs iff Press with an interval, with period `hold_us/1000`. An out-of-range level stops hold and calls nothing. |
| Engine.GpioFilterTwoReads | PushButon.cpp:184-243 | No contract of its own: `Engine.GpioFilterOneRead` ties it to `GpioFilter`, and `Scenarios.ReleaseDuringPressSlot` states its effect when the re-arm read differs. |
| Engine.GpioFilterOneRead | PushButon.cpp:184-243 | The filter with its decision read and its re-arm read kept apart equals `GpioFilter` when the two reads agree. |
| Engine.StepExtendsTrace | PushButon.cpp:139-238 | Any input keeps the id and polarity and only appends callback calls. |
| Engine.RunExtendsTrace | PushButon.cpp:139-238 | Any sequence of inputs keeps the id and polarity and only appends callback calls. |
| Engine.TaskStepExtendsTrace | PushButon.cpp:139-164 | One iteration of `_task` only appends callback calls. |
| Engine.ConsumeExtendsTrace | PushButon.cpp:144-162 | Handling one edge in `_task` only appends callback calls. |
| Engine.DisableHoldIdempotent | PushButon.cpp:117-124 | Disabling hold events twice has the effect of disabling them once. |
| Engine.SetGlitchFilterIdempotent | PushButton.h:73-79 | Setting the glitch-filter flag twice has the effect of setting it once. |
| Invariants.GpioFilterKeepsHoldInv | PushButon.cpp:196-222 | The filter keeps the hold invariant: flag tracks timer, timer runs only while pressed, Hold calls only while pressed. |
| Invariants.StepKeepsHoldInv | PushButon.cpp:139-238 | Every input keeps the hold invariant. |
| Invariants.RunKeepsHoldInv | PushButon.cpp:139-238 | Every sequence of inputs keeps the hold invariant. |
| Invariants.HoldCalledOnlyWhilePressed | PushButon.cpp:208-238 | From construction, every Hold call comes after a Press with no Release in between. |
| Invariants.DisableHoldSilences | PushButon.cpp:117-124 | After disableHoldEvents the interval is 0, the flag is clear, the hold timer is stopped and the slot is null. |
| Invariants.ConsumeKeepsHoldOff | PushButon.cpp:144-162 | With hold off, handling an edge keeps it off and appends no Hold call. |
| Invariants.StepKeepsHoldOff | PushButon.cpp:139-238 | With hold off, any input other than enableHoldEvents keeps it off and appends no Hold call. |
| Invariants.RunKeepsHoldOff | PushButon.cpp:139-238 | The same for any sequence of such inputs. |
| Invariants.NoHoldAfterDisable | PushButon.cpp:117-124 | After disableHoldEvents, no Hold call is made until hold events are enabled again. |
| Invariants.StepKeepsOneToken | PushButon.cpp:169-181 | Every input, an enable call included when nothing is pending, keeps exactly one of: an armed edge, a posted signal, a running filter timer. |
| Invariants.RunKeepsOneToken | PushButon.cpp:139-251 | The same for any sequence of inputs whose enable calls all come while nothing is pending. |
| Invariants.EnableCallArms | PushButon.cpp:86-107 | An enable call latches the pin and arms the edge leaving it. It adds one pending item when no edge was armed, even while an edge is being filtered. |
| Invariants.OneUnresolvedEdge | PushButon.cpp:242-251 | From construction, after a first enable call and with every later enable call made while nothing is pending, exactly one of edge, signal or filter timer is pending. When nothing is posted or filtering, an edge is armed. |
| Invariants.GpioFilterSettles | PushButon.cpp:184-231 | From a consistent pending edge, the filter leaves the last Press/Release agreeing with the settled level and keeps Press and Release alternating. |
| Invariants.StepKeepsSettles | PushButon.cpp:139-238 | Interrupts, `_task` iterations, timer expiries, disable calls and filter setters with 0/1 reads keep that consistency. |
| Invariants.SteadyEnableKeepsSettles | PushButon.cpp:86-107 | An enable call made while nothing is pending, reading 0/1 and the settled level (any level before the first decision), keeps it. |
| Invariants.RunKeepsSettles | PushButon.cpp:139-238 | The same for any sequence of such inputs and such enable calls. |
| Invariants.FirstEnableSettles | PushButon.cpp:86-107 | The first enable call with a 0/1 read establishes the consistency. |
| Invariants.PressAndReleaseAlternate | PushButon.cpp:196-222 | From construction, after a first enable call, with 0/1 reads and every later enable call steady, no two Press calls and no two Release calls occur without the other between them. |
| Invariants.UndisturbedRun | PushButon.cpp:139-238 | Any sequence of environment inputs, disable calls and filter setters meets both run conditions above, from any state. |
| Invariants.SetupRun | PushButon.cpp:86-107 | Enable calls in a row before anything is pending or decided, then such inputs, meet both run conditions. |
| Invariants.SetupThenEnvironment | PushButon.cpp:86-251 | The driver as it is used: one or more enable calls in a row at construction, then the environment. Exactly one edge is tracked and Press and Release alternate. |
| Invariants.StepKeepsAgreement | PushButon.cpp:145-155 | Two states that are equal, or equal but for the latched level while nothing is pending, remain so after any input. |
| Invariants.RunKeepsAgreement | PushButon.cpp:145-155 | The same for any sequence of inputs. |
| Invariants.LatchInitialValueIrrelevant | PushButon.cpp:43-53 | The constructor leaves `_curr_value` uninitialised; whatever it holds, the callback trace of any run is the same. |
| Scenarios.FilteredPress | PushButon.cpp:144-222 | Low-active button at rest: a fall to 0, still 0 at filter expiry, calls Press once, starts hold iff an interval is set, and arms the rising edge. |
| Scenarios.FilteredRelease | PushButon.cpp:144-205 | After a press: a rise to 1, still 1 at filter expiry, calls Release once, stops hold, and arms the falling edge. |
| Scenarios.PressThenRelease | PushButon.cpp:184-231 | Register Press and Release, then press and release with filtering: the trace is exactly [Press, Release] and the falling edge is armed. |
| Scenarios.RiseStartsFilterTimer | PushButon.cpp:144-148 | A rising edge with the filter on latches 1 and starts the filter timer with 20 ms. |
| Scenarios.ExpiryOnNoise | PushButon.cpp:189-193 | A filter expiry that reads the other level only re-arms. |
| Scenarios.GlitchIsNoise | PushButon.cpp:189-193 | High-active button: a rise that is back at 0 when the 20 ms timer expires calls nothing and re-arms the rising edge. |
| Scenarios.ThreeHoldTicks | PushButon.cpp:235-238 | Three expiries of a running hold timer call the hold slot three times and change nothing else. |
| Scenarios.PressStartsHoldTimer | PushButon.cpp:215-218 | With a 1000 ms hold interval, a confirmed press starts the hold timer with period 1000 ms. |
| Scenarios.HoldThenRelease | PushButon.cpp:196-205 | Three hold ticks, then a confirmed release, stop the hold timer; a further expiry request calls nothing. |
| Scenarios.HoldWhilePressed | PushButon.cpp:208-238 | End to end: the trace is exactly [Press, Hold, Hold, Hold, Release] and the hold timer is stopped with period 1000 ms. |
| Scenarios.LateEnableConfirmsPress | PushButon.cpp:103-107 | While the filter timer runs, enableReleaseEvents reading 0 re-latches 0, so an expiry reading 0 confirms a press on a low-active button. |
| Scenarios.RepeatedPressBreaksAlternation | PushButon.cpp:208-219 | Two Press calls in a row violate the alternation. |
| Scenarios.EnableWhilePendingRepeatsPress | PushButon.cpp:86-251 | An enable call while a rise is being filtered turns a glitch into a second Press: the trace is [Press, Press], which does not alternate. |
| Scenarios.FallStartsFilterTimer | PushButon.cpp:154-158 | A falling edge with the filter on latches 0 and starts the filter timer with 20 ms. |
| Scenarios.ReleaseDuringPressSlot | PushButon.cpp:208-220 | A press decided on a read of 0 and re-armed on a read of 1 calls Press, arms the falling edge with the latch at 1, and leaves the hold timer running. |
| Scenarios.ExpiryConfirmsPress | PushButon.cpp:208-219 | With the filter timer running on a latched 0, an expiry reading 0 appends one Press on a low-active button. |
| Scenarios.PressHoldPressBreaksAlternation | PushButon.cpp:208-238 | A Press, a Hold and a Press again violate the alternation. |
| Scenarios.ReleaseLostBetweenReads | PushButon.cpp:184-243 | With the two reads of the filter callback differing, the trace from construction is [Press, Hold, Press], which does not alternate. |
| Scenarios.UnfilteredPress | PushButon.cpp:149-151 | With the filter disabled the fall is decided in the same `_task` iteration: Press, rising edge armed, no filter timer. |
| Driver.PushButton.constructor | PushButon.cpp:35-74 | No edge armed, no signal, no timer running, hold interval 0, filter on, all three slots null, empty trace, hold invariant established. |
| Driver.PushButton.EnableRiseFallCallbacks | PushButon.cpp:242-251 | Latches the read level and arms exactly one edge, the one leaving that level. |
| Driver.PushButton.EnablePressEvents | PushButon.cpp:86-90 | Installs the press slot and re-arms. Nothing else changes. |
| Driver.PushButton.EnableHoldEvents | PushButon.cpp:94-99 | Requires a non-zero interval. Installs the hold slot, stores the 32-bit microsecond interval and re-arms. |
| Driver.PushButton.EnableReleaseEvents | PushButon.cpp:103-107 | Installs the release slot and re-arms. Nothing else changes. |
| Driver.PushButton.DisablePressEvents | PushButon.cpp:111-113 | Only the press slot is reset to null. |
| Driver.PushButton.DisableHoldEvents | PushButon.cpp:117-124 | Hold timer stopped if it was flagged running; flag clear, interval 0, slot null. |
| Driver.PushButton.DisableReleaseEvents | PushButon.cpp:128-130 | Only the release slot is reset to null. |
| Driver.PushButton.EnableGlitchFilter | PushButton.h:73 | Only the filter flag changes, to on. |
| Driver.PushButton.DisableGlitchFilter | PushButton.h:79 | Only the filter flag changes, to off. |
| Driver.PushButton.IsrRiseCallback | PushButon.cpp:169-173 | Both edges detached and the rise signal posted. Nothing else changes. |
| Driver.PushButton.IsrFallCallback | PushButon.cpp:177-181 | Both edges detached and the fall signal posted. Nothing else changes. |
| Driver.PushButton.StopHoldTimer | PushButon.cpp:198-201 | Stops the hold timer only when flagged running; the flag is clear afterwards. |
| Driver.PushButton.RestartHoldTimer | PushButon.cpp:211-218 | Stops a running hold timer, then starts it with `hold_us/1000` ms exactly when an interval is set. |
| Driver.PushButton.GpioFilterCallback | PushButon.cpp:184-231 | Changes the object exactly as `Engine.GpioFilter` (Noise / Release / Press / level error) and keeps the hold invariant. |
| Driver.PushButton.FilterTimerExpires | PushButon.cpp:59 | The one-shot filter timer stops and runs the filter callback, as `Engine.Step` does for a filter expiry, keeping the hold invariant; an unscheduled expiry changes nothing. |
| Driver.PushButton.HoldTickCallback | PushButon.cpp:235-238 | Appends exactly one Hold call with the id and installed slot. Nothing else changes. |
| Driver.PushButton.ConsumeEdge | PushButon.cpp:144-162 | Latches the edge's level. With the filter on, starts the one-shot filter timer for 20 ms and decides nothing yet; with it off, runs the filter at once. |
| Driver.PushButton.TaskStep | PushButon.cpp:139-164 | Consumes every posted signal, rise before fall, and keeps the hold invariant. |

## Left out

- The thread, `signal_wait`/`signal_set` and interrupt context are concurrency. One loop iteration, each interrupt and each timer expiry is an explicit call.
- The `for(;;)` loop of `_task` as a running thread is not modelled.
- Wall-clock timing is left out: hold periodicity and the 20 ms delay are not modelled. Each timer expiry is an input of its own.
- `InterruptIn` construction, `mode()` and the pin's electrical behaviour are hardware. The pin level is an argument.
- `gpioFilterCallback` reads the pin twice (PushButon.cpp:186 and 243). The step function and the class pass one level for both reads, so they assume the pin does not change between them; `Engine.GpioFilterTwoReads` and `Scenarios.ReleaseLostBetweenReads` show what happens when it does. The same holds for one `_task` iteration with the filter off: when both signals are posted, both filter runs (four reads, PushButon.cpp:150 and 160, each reading at 186 and 243) see the one level passed to `Engine.TaskStep` and `Driver.PushButton.TaskStep`.
- A hold period of 0 ms, which the 32-bit wrap-around can produce (`Decision.HoldMicrosWrapsBelowOneMillisecond`), is modelled as a running timer; whether the RTOS accepts such a period is outside the model.
- User callbacks are assumed not to call back into the driver. A call is a trace entry.
- The `MBED_ASSERT`s on non-empty callbacks cannot fail in the model: an installed callback is always `UserCallback`.
- The `MBED_ASSERT` on `millis` is the precondition `millis != 0`.
- Logging, the thread name, heap allocation, the destructor and the per-platform timer variants are boilerplate and are left out.
- test/test_Driver_PushButton.cpp is a manual hardware harness and is not part of this model.
- Driver.PushButton.HoldTickCallback: requires the hold timer to be running. The periodic timer calls it only then, so an expiry of a stopped timer is not modelled.
- The `_curr_value` field is uninitialised in the source. The constructor leaves it arbitrary, and `Invariants.LatchInitialValueIrrelevant` shows it does not affect the callbacks.
- Invariants.OneUnresolvedEdge: does not cover enable calls made while a decision is pending; such a call adds a second tracked edge (`Invariants.EnableCallArms`).
- Invariants.PressAndReleaseAlternate: does not cover enable calls made while a decision is pending, nor enable calls reading a level other than the settled one; `Scenarios.EnableWhilePendingRepeatsPress` shows the first breaking the alternation. It also depends on the one-level reading of `gpioFilterCallback` (PushButon.cpp:186 and 243): when the pin moves while the slot runs, the release is lost and `Scenarios.ReleaseLostBetweenReads` gives [Press, Hold, Press].
- Invariants.SetupThenEnvironment: its alternation holds only under the same one-level reading of `gpioFilterCallback`; a pin that moves between the decision read and the re-arm read breaks it (`Scenarios.ReleaseLostBetweenReads`).
