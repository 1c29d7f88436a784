/** The push-button engine's state as a value, with one transition function
    per entry point of PushButon.cpp, and a step function that lets the
    environment (interrupts, the thread, the two timers, the application)
    drive the engine. The class in module Driver is proved to follow these
    functions step by step. */
module Engine {
  import opened Types
  import opened Decision

  /** All fields of a PushButton, plus the environment state they control:
      the armed trigger, the pending thread signals, the two timers, and the
      trace of callback invocations. */
  datatype State = State(
    id: uint32,
    level: LogicLevel,
    trigger: Trigger,
    sigRise: bool,
    sigFall: bool,
    tickFilt: Timer,
    tickHold: Timer,
    holdRunning: bool,
    holdUs: uint32,
    currValue: uint8,
    glitchFilter: bool,
    pressCb: Handler,
    holdCb: Handler,
    releaseCb: Handler,
    trace: seq<Event>)

  /** The state right after construction; `uninit` stands for the value the
      constructor leaves in the uninitialised latched level. */
  function Init(id: uint32, level: LogicLevel, uninit: uint8): State {
    State(id, level, NoTrigger, false, false, Idle, Idle, false, 0, uninit, true,
          NullCallback, NullCallback, NullCallback, [])
  }

  /** The hold-running flag tracks the hold timer. */
  predicate HoldFlagTracksTimer(s: State) {
    s.holdRunning == s.tickHold.running
  }

  /** The hold timer after the "stop it if it is flagged running" block;
      the flag is false afterwards either way. */
  function StoppedHoldTimer(s: State): Timer {
    if s.holdRunning then s.tickHold.(running := false) else s.tickHold
  }

  /** gpioFilterCallback, with `pin` the level read from the pin. */
  function GpioFilter(s: State, pin: uint8): (r: State)
    // whatever the outcome, the triggers are re-armed from the level just read
    ensures r.currValue == pin && r.trigger == ArmFor(pin)
    // signals, the filter timer, the configuration and the callbacks are left alone
    ensures r.sigRise == s.sigRise && r.sigFall == s.sigFall && r.tickFilt == s.tickFilt
    ensures r.id == s.id && r.level == s.level && r.holdUs == s.holdUs && r.glitchFilter == s.glitchFilter
    ensures r.pressCb == s.pressCb && r.holdCb == s.holdCb && r.releaseCb == s.releaseCb
    // at most one callback runs, and it is never the hold callback
    ensures |s.trace| <= |r.trace| <= |s.trace| + 1 && r.trace[..|s.trace|] == s.trace
    ensures forall k | |s.trace| <= k < |r.trace| :: !r.trace[k].Hold?
    // noise changes nothing but the latch and the armed edge
    ensures s.currValue != pin ==>
      r.trace == s.trace && r.holdRunning == s.holdRunning && r.tickHold == s.tickHold
    // a settled level fires exactly one of Press and Release, chosen by the polarity
    ensures s.currValue == pin && pin <= 1 ==>
      |r.trace| == |s.trace| + 1 &&
      r.trace[|s.trace|] == (if pin == ActiveLevel(s.level) then Press(s.id, s.pressCb) else Release(s.id, s.releaseCb))
    // afterwards the hold timer runs only after a press with a configured interval
    ensures s.currValue == pin ==> (r.holdRunning <==> pin == ActiveLevel(s.level) && s.holdUs > 0)
    ensures s.currValue == pin && r.holdRunning ==> r.tickHold == Timer(true, s.holdUs / 1000)
    ensures s.currValue == pin && HoldFlagTracksTimer(s) ==> HoldFlagTracksTimer(r)
    // a level that is neither high nor low fires nothing and stops the hold timer
    ensures s.currValue == pin && pin > 1 ==> r.trace == s.trace && !r.holdRunning
  {
    match Classify(s.currValue, pin, s.level)
    case ErrNoise =>
      s.(currValue := pin, trigger := ArmFor(pin))
    case EvRelease =>
      s.(tickHold := StoppedHoldTimer(s), holdRunning := false,
         trace := s.trace + [Release(s.id, s.releaseCb)],
         currValue := pin, trigger := ArmFor(pin))
    case EvPress =>
      // stop a running hold timer, then restart it when an interval is set
      s.(tickHold := if s.holdUs > 0 then Timer(true, s.holdUs / 1000) else StoppedHoldTimer(s),
         holdRunning := s.holdUs > 0,
         trace := s.trace + [Press(s.id, s.pressCb)],
         currValue := pin, trigger := ArmFor(pin))
    case ErrLevel =>
      s.(tickHold := StoppedHoldTimer(s), holdRunning := false,
         currValue := pin, trigger := ArmFor(pin))
  }

  /** The four outcomes of the filter, one state each. */
  lemma GpioFilterBranches(s: State, pin: uint8)
    ensures s.currValue != pin ==>
      GpioFilter(s, pin) == s.(currValue := pin, trigger := ArmFor(pin))
    ensures s.currValue == pin && IsReleaseLevel(pin, s.level) ==>
      GpioFilter(s, pin) == s.(tickHold := StoppedHoldTimer(s), holdRunning := false,
                               trace := s.trace + [Release(s.id, s.releaseCb)],
                               currValue := pin, trigger := ArmFor(pin))
    ensures s.currValue == pin && !IsReleaseLevel(pin, s.level) && IsPressLevel(pin, s.level) ==>
      GpioFilter(s, pin) ==
        s.(tickHold := if s.holdUs > 0 then Timer(true, s.holdUs / 1000) else StoppedHoldTimer(s),
           holdRunning := s.holdUs > 0,
           trace := s.trace + [Press(s.id, s.pressCb)],
           currValue := pin, trigger := ArmFor(pin))
    ensures s.currValue == pin && !IsReleaseLevel(pin, s.level) && !IsPressLevel(pin, s.level) ==>
      GpioFilter(s, pin) == s.(tickHold := StoppedHoldTimer(s), holdRunning := false,
                               currValue := pin, trigger := ArmFor(pin))
  {
  }

  /** gpioFilterCallback with its two pin reads kept apart: `pin` is read for
      the decision (PushButon.cpp:186), `rearm` when the edges are re-armed
      (PushButon.cpp:243), after the slot has run. */
  function GpioFilterTwoReads(s: State, pin: uint8, rearm: uint8): State {
    GpioFilter(s, pin).(currValue := rearm, trigger := ArmFor(rearm))
  }

  /** When the pin does not move between its two reads, the filter is the
      one-read `GpioFilter` the rest of the model uses. */
  lemma GpioFilterOneRead(s: State, pin: uint8)
    ensures GpioFilterTwoReads(s, pin, pin) == GpioFilter(s, pin)
  {
  }

  /** One branch of the thread loop: latch the edge's level, then either start
      the one-shot filter timer or run the filter at once. */
  function Consume(s: State, latched: uint8, pin: uint8): State {
    var s1 := s.(currValue := latched);
    if s1.glitchFilter then s1.(tickFilt := Timer(true, GlitchFilterTimeoutUs / 1000))
    else GpioFilter(s1, pin)
  }

  /** One iteration of `_task`: the wait consumes every posted signal; a rise
      is handled before a fall. */
  function TaskStep(s: State, pin: uint8): State {
    var woken := s.(sigRise := false, sigFall := false);
    var afterRise := if s.sigRise then Consume(woken, 1, pin) else woken;
    if s.sigFall then Consume(afterRise, 0, pin) else afterRise
  }

  /** isrRiseCallback: disarm both edges and post the rise signal. */
  function IsrRise(s: State): State {
    s.(trigger := NoTrigger, sigRise := true)
  }

  /** isrFallCallback: disarm both edges and post the fall signal. */
  function IsrFall(s: State): State {
    s.(trigger := NoTrigger, sigFall := true)
  }

  /** holdTickCallback: call the hold slot. */
  function HoldTick(s: State): State {
    s.(trace := s.trace + [Hold(s.id, s.holdCb)])
  }

  function EnablePressEvents(s: State, pin: uint8): State {
    s.(pressCb := UserCallback, currValue := pin, trigger := ArmFor(pin))
  }

  function EnableHoldEvents(s: State, millis: uint32, pin: uint8): State
    requires millis != 0
  {
    s.(holdCb := UserCallback, holdUs := HoldMicros(millis), currValue := pin, trigger := ArmFor(pin))
  }

  function EnableReleaseEvents(s: State, pin: uint8): State {
    s.(releaseCb := UserCallback, currValue := pin, trigger := ArmFor(pin))
  }

  function DisablePressEvents(s: State): State {
    s.(pressCb := NullCallback)
  }

  /** Stops the hold timer only when it is flagged running, then clears the
      flag, the slot and the interval unconditionally. */
  function DisableHoldEvents(s: State): State {
    s.(tickHold := StoppedHoldTimer(s), holdRunning := false, holdCb := NullCallback, holdUs := 0)
  }

  function DisableReleaseEvents(s: State): State {
    s.(releaseCb := NullCallback)
  }

  function SetGlitchFilter(s: State, enabled: bool): State {
    s.(glitchFilter := enabled)
  }

  /** What can happen to an engine: an edge interrupt, the thread waking, a
      timer expiring, or a call of the public interface. The pin levels are
      what the engine reads from the pin during that step. */
  datatype Input =
    | RiseInterrupt
    | FallInterrupt
    | TaskWakes(pin: uint8)
    | FilterTimerFires(pin: uint8)
    | HoldTimerFires
    | CallEnablePress(pin: uint8)
    | CallEnableHold(millis: uint32, pin: uint8)
    | CallEnableRelease(pin: uint8)
    | CallDisablePress
    | CallDisableHold
    | CallDisableRelease
    | CallEnableGlitchFilter
    | CallDisableGlitchFilter

  /** The driver asserts a non-zero hold interval. */
  predicate Admissible(i: Input) {
    i.CallEnableHold? ==> i.millis != 0
  }

  predicate AllAdmissible(inputs: seq<Input>) {
    forall k | 0 <= k < |inputs| :: Admissible(inputs[k])
  }

  /** Disabling hold events twice is disabling them once. */
  lemma DisableHoldIdempotent(s: State)
    ensures DisableHoldEvents(DisableHoldEvents(s)) == DisableHoldEvents(s)
  {
  }

  /** Setting the filter flag twice is setting it once. */
  lemma SetGlitchFilterIdempotent(s: State, enabled: bool)
    ensures SetGlitchFilter(SetGlitchFilter(s, enabled), enabled) == SetGlitchFilter(s, enabled)
  {
  }

  /** The effect of one input. An interrupt fires only on the armed edge, the
      thread wakes only on a posted signal, and a timer expires only while it
      runs (the one-shot filter timer stops when it expires); otherwise the
      input changes nothing. */
  function Step(s: State, i: Input): State
    requires Admissible(i)
  {
    match i
    case RiseInterrupt => if s.trigger == Rise then IsrRise(s) else s
    case FallInterrupt => if s.trigger == Fall then IsrFall(s) else s
    case TaskWakes(pin) => TaskStep(s, pin)
    case FilterTimerFires(pin) =>
      if s.tickFilt.running then GpioFilter(s.(tickFilt := s.tickFilt.(running := false)), pin) else s
    case HoldTimerFires => if s.tickHold.running then HoldTick(s) else s
    case CallEnablePress(pin) => EnablePressEvents(s, pin)
    case CallEnableHold(millis, pin) => EnableHoldEvents(s, millis, pin)
    case CallEnableRelease(pin) => EnableReleaseEvents(s, pin)
    case CallDisablePress => DisablePressEvents(s)
    case CallDisableHold => DisableHoldEvents(s)
    case CallDisableRelease => DisableReleaseEvents(s)
    case CallEnableGlitchFilter => SetGlitchFilter(s, true)
    case CallDisableGlitchFilter => SetGlitchFilter(s, false)
  }

  /** The state after a sequence of inputs. */
  function Run(s: State, inputs: seq<Input>): State
    requires AllAdmissible(inputs)
    decreases |inputs|
  {
    if inputs == [] then s else Run(Step(s, inputs[0]), inputs[1..])
  }

  /** Consuming an edge keeps the identity and polarity and only appends to
      the trace. */
  lemma ConsumeExtendsTrace(s: State, latched: uint8, pin: uint8)
    ensures var r := Consume(s, latched, pin);
      r.id == s.id && r.level == s.level && |s.trace| <= |r.trace| && r.trace[..|s.trace|] == s.trace
  {
  }

  /** An iteration of `_task` keeps the identity and polarity and only appends to
      the trace. */
  lemma TaskStepExtendsTrace(s: State, pin: uint8)
    ensures var r := TaskStep(s, pin);
      r.id == s.id && r.level == s.level && |s.trace| <= |r.trace| && r.trace[..|s.trace|] == s.trace
  {
    var woken := s.(sigRise := false, sigFall := false);
    var afterRise := if s.sigRise then Consume(woken, 1, pin) else woken;
    if s.sigRise { ConsumeExtendsTrace(woken, 1, pin); }
    if s.sigFall { ConsumeExtendsTrace(afterRise, 0, pin); }
    var r := TaskStep(s, pin);
    assert r.trace[..|s.trace|] == r.trace[..|afterRise.trace|][..|s.trace|];
  }

  /** A step keeps the identity and polarity and only appends to the trace. */
  lemma StepExtendsTrace(s: State, i: Input)
    requires Admissible(i)
    ensures var r := Step(s, i);
      r.id == s.id && r.level == s.level && |s.trace| <= |r.trace| && r.trace[..|s.trace|] == s.trace
  {
    match i
    case TaskWakes(pin) =>
      TaskStepExtendsTrace(s, pin);
    case HoldTimerFires =>
      assert Step(s, i).trace[..|s.trace|] == s.trace;
    case _ =>
  }

  /** A run keeps the identity and polarity and only appends to the trace. */
  lemma {:induction false} RunExtendsTrace(s: State, inputs: seq<Input>)
    requires AllAdmissible(inputs)
    ensures var r := Run(s, inputs);
      r.id == s.id && r.level == s.level && |s.trace| <= |r.trace| && r.trace[..|s.trace|] == s.trace
    decreases |inputs|
  {
    if inputs != [] {
      assert AllAdmissible(inputs[1..]) by {
        forall k | 0 <= k < |inputs[1..]| ensures Admissible(inputs[1..][k]) {
          assert inputs[1..][k] == inputs[k + 1];
        }
      }
      var next := Step(s, inputs[0]);
      StepExtendsTrace(s, inputs[0]);
      RunExtendsTrace(next, inputs[1..]);
      var r := Run(s, inputs);
      assert r.trace[..|s.trace|] == r.trace[..|next.trace|][..|s.trace|];
    }
  }
}
