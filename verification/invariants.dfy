/** Invariants of the engine over whole runs: hold calls only while pressed,
    hold silenced for good by disableHoldEvents, one unresolved edge at a
    time, Press and Release alternating, and the uninitialised latched level
    never mattering. */
module Invariants {
  import opened Types
  import opened Decision
  import opened Engine
  import opened Traces

  lemma AllAdmissibleTail(inputs: seq<Input>)
    requires inputs != [] && AllAdmissible(inputs)
    ensures Admissible(inputs[0]) && AllAdmissible(inputs[1..])
  {
    forall k | 0 <= k < |inputs[1..]| ensures Admissible(inputs[1..][k]) {
      assert inputs[1..][k] == inputs[k + 1];
    }
  }

  /** A sequence is admissible when its head and its tail are. */
  lemma AllAdmissibleCons(inputs: seq<Input>)
    requires inputs != [] && Admissible(inputs[0]) && AllAdmissible(inputs[1..])
    ensures AllAdmissible(inputs)
  {
    forall k | 1 <= k < |inputs| ensures Admissible(inputs[k]) {
      assert inputs[k] == inputs[1..][k - 1];
    }
  }

  // ---------------------------------------------------------------------------
  // Hold is called only while the button is pressed
  // ---------------------------------------------------------------------------

  /** The hold timer only runs in a pressed phase, and every Hold call so far
      was made in one. */
  predicate HoldInv(s: State) {
    HoldFlagTracksTimer(s) &&
    (s.tickHold.running ==> PhaseOf(s.trace) == Pressed) &&
    HoldsOnlyWhilePressed(s.trace)
  }

  lemma GpioFilterKeepsHoldInv(s: State, pin: uint8)
    requires HoldInv(s)
    ensures HoldInv(GpioFilter(s, pin))
  {
    var r := GpioFilter(s, pin);
    if s.currValue == pin && pin <= 1 {
      var e := r.trace[|s.trace|];
      assert r.trace == s.trace + [e];
      PhaseOfAppend(s.trace, e);
      HoldsOnlyWhilePressedAppend(s.trace, e);
    }
  }

  lemma ConsumeKeepsHoldInv(s: State, latched: uint8, pin: uint8)
    requires HoldInv(s)
    ensures HoldInv(Consume(s, latched, pin))
  {
    if !s.glitchFilter {
      GpioFilterKeepsHoldInv(s.(currValue := latched), pin);
    }
  }

  lemma StepKeepsHoldInv(s: State, i: Input)
    requires HoldInv(s) && Admissible(i)
    ensures HoldInv(Step(s, i))
  {
    match i
    case TaskWakes(pin) =>
      var woken := s.(sigRise := false, sigFall := false);
      ConsumeKeepsHoldInv(woken, 1, pin);
      var afterRise := if s.sigRise then Consume(woken, 1, pin) else woken;
      ConsumeKeepsHoldInv(afterRise, 0, pin);
    case FilterTimerFires(pin) =>
      GpioFilterKeepsHoldInv(s.(tickFilt := s.tickFilt.(running := false)), pin);
    case HoldTimerFires =>
      if s.tickHold.running {
        var e := Hold(s.id, s.holdCb);
        PhaseOfAppend(s.trace, e);
        HoldsOnlyWhilePressedAppend(s.trace, e);
      }
    case _ =>
  }

  lemma {:induction false} RunKeepsHoldInv(s: State, inputs: seq<Input>)
    requires HoldInv(s) && AllAdmissible(inputs)
    ensures HoldInv(Run(s, inputs))
    decreases |inputs|
  {
    if inputs != [] {
      AllAdmissibleTail(inputs);
      StepKeepsHoldInv(s, inputs[0]);
      RunKeepsHoldInv(Step(s, inputs[0]), inputs[1..]);
    }
  }

  /** Whatever happens after construction, every Hold call comes after a
      Press with no Release in between: Hold never fires before a confirmed
      press nor after a confirmed release. */
  lemma HoldCalledOnlyWhilePressed(id: uint32, level: LogicLevel, uninit: uint8, inputs: seq<Input>)
    requires AllAdmissible(inputs)
    ensures HoldsOnlyWhilePressed(Run(Init(id, level, uninit), inputs).trace)
  {
    RunKeepsHoldInv(Init(id, level, uninit), inputs);
  }

  // ---------------------------------------------------------------------------
  // disableHoldEvents silences Hold until hold events are enabled again
  // ---------------------------------------------------------------------------

  /** No hold interval, and the hold timer stopped. */
  predicate HoldOff(s: State) {
    s.holdUs == 0 && !s.holdRunning && !s.tickHold.running
  }

  /** No Hold call at index `n` or later. */
  predicate NoHoldFrom(t: seq<Event>, n: nat) {
    forall k | n <= k < |t| :: !t[k].Hold?
  }

  /** Chains two trace extensions that add no Hold call. */
  lemma NoHoldFromChain(t0: seq<Event>, t1: seq<Event>, t2: seq<Event>)
    requires |t0| <= |t1| <= |t2| && t2[..|t1|] == t1
    requires NoHoldFrom(t1, |t0|) && NoHoldFrom(t2, |t1|)
    ensures NoHoldFrom(t2, |t0|)
  {
    forall k | |t0| <= k < |t2| ensures !t2[k].Hold? {
      if k < |t1| {
        assert t2[k] == t2[..|t1|][k];
      }
    }
  }

  lemma DisableHoldSilences(s: State)
    requires HoldFlagTracksTimer(s)
    ensures HoldOff(Step(s, CallDisableHold))
    ensures Step(s, CallDisableHold).holdCb == NullCallback
  {
  }

  lemma ConsumeKeepsHoldOff(s: State, latched: uint8, pin: uint8)
    requires HoldOff(s)
    ensures var r := Consume(s, latched, pin);
      HoldOff(r) && |s.trace| <= |r.trace| && r.trace[..|s.trace|] == s.trace && NoHoldFrom(r.trace, |s.trace|)
  {
  }

  lemma StepKeepsHoldOff(s: State, i: Input)
    requires HoldOff(s) && Admissible(i) && !i.CallEnableHold?
    ensures HoldOff(Step(s, i)) && NoHoldFrom(Step(s, i).trace, |s.trace|)
  {
    match i
    case TaskWakes(pin) =>
      var woken := s.(sigRise := false, sigFall := false);
      ConsumeKeepsHoldOff(woken, 1, pin);
      var afterRise := if s.sigRise then Consume(woken, 1, pin) else woken;
      ConsumeKeepsHoldOff(afterRise, 0, pin);
      var r := if s.sigFall then Consume(afterRise, 0, pin) else afterRise;
      NoHoldFromChain(s.trace, afterRise.trace, r.trace);
    case _ =>
  }

  lemma {:induction false} RunKeepsHoldOff(s: State, inputs: seq<Input>)
    requires HoldOff(s) && AllAdmissible(inputs)
    requires forall k | 0 <= k < |inputs| :: !inputs[k].CallEnableHold?
    ensures HoldOff(Run(s, inputs)) && NoHoldFrom(Run(s, inputs).trace, |s.trace|)
    decreases |inputs|
  {
    if inputs != [] {
      AllAdmissibleTail(inputs);
      var next := Step(s, inputs[0]);
      StepKeepsHoldOff(s, inputs[0]);
      forall k | 0 <= k < |inputs[1..]| ensures !inputs[1..][k].CallEnableHold? {
        assert inputs[1..][k] == inputs[k + 1];
      }
      RunKeepsHoldOff(next, inputs[1..]);
      StepExtendsTrace(s, inputs[0]);
      RunExtendsTrace(next, inputs[1..]);
      NoHoldFromChain(s.trace, next.trace, Run(s, inputs).trace);
    }
  }

  /** After disableHoldEvents no Hold callback runs until enableHoldEvents is
      called again, even across new presses. */
  lemma NoHoldAfterDisable(s: State, inputs: seq<Input>)
    requires HoldFlagTracksTimer(s) && AllAdmissible(inputs)
    requires forall k | 0 <= k < |inputs| :: !inputs[k].CallEnableHold?
    ensures NoHoldFrom(Run(Step(s, CallDisableHold), inputs).trace, |s.trace|)
  {
    DisableHoldSilences(s);
    RunKeepsHoldOff(Step(s, CallDisableHold), inputs);
  }

  // ---------------------------------------------------------------------------
  // One unresolved edge at a time
  // ---------------------------------------------------------------------------

  /** Where the edge being tracked currently is: an armed trigger, a posted
      signal, or a running filter timer. */
  function Tokens(s: State): nat {
    (if s.trigger != NoTrigger then 1 else 0) +
    (if s.sigRise then 1 else 0) +
    (if s.sigFall then 1 else 0) +
    (if s.tickFilt.running then 1 else 0)
  }

  predicate IsEnableCall(i: Input) {
    i.CallEnablePress? || i.CallEnableHold? || i.CallEnableRelease?
  }

  /** No decision is pending: no posted signal and no running filter timer. */
  predicate NothingPending(s: State) {
    !s.sigRise && !s.sigFall && !s.tickFilt.running
  }

  /** Every input keeps exactly one tracked edge, an enable call included
      when it comes while no decision is pending (the edge is then the armed
      trigger, which the call only re-arms). */
  lemma StepKeepsOneToken(s: State, i: Input)
    requires Tokens(s) == 1 && Admissible(i) && (IsEnableCall(i) ==> NothingPending(s))
    ensures Tokens(Step(s, i)) == 1
  {
  }

  /** Run from `s`, every input is admissible and every enable call comes
      while no decision is pending. */
  predicate EnablesOnlyWhenIdle(s: State, inputs: seq<Input>)
    decreases |inputs|
  {
    inputs == [] ||
    (Admissible(inputs[0]) && (IsEnableCall(inputs[0]) ==> NothingPending(s)) &&
     EnablesOnlyWhenIdle(Step(s, inputs[0]), inputs[1..]))
  }

  lemma {:induction false} RunKeepsOneToken(s: State, inputs: seq<Input>)
    requires Tokens(s) == 1 && EnablesOnlyWhenIdle(s, inputs)
    ensures AllAdmissible(inputs) && Tokens(Run(s, inputs)) == 1
    decreases |inputs|
  {
    if inputs != [] {
      StepKeepsOneToken(s, inputs[0]);
      RunKeepsOneToken(Step(s, inputs[0]), inputs[1..]);
      AllAdmissibleCons(inputs);
    }
  }

  /** An enable call arms the edge leaving the level it reads, whatever is
      pending: from a fresh engine it creates the one tracked edge, and while
      an edge is still being decided it adds a second one. */
  lemma EnableCallArms(s: State, i: Input)
    requires Admissible(i) && IsEnableCall(i)
    ensures Step(s, i).trigger == ArmFor(i.pin) && Step(s, i).currValue == i.pin
    ensures Tokens(Step(s, i)) == Tokens(s) + (if s.trigger == NoTrigger then 1 else 0)
  {
  }

  /** From construction, once the first input has been an enable call, and
      as long as every later enable call comes while no decision is pending
      (the setup calls made one after the other included), exactly one of
      {armed trigger, posted signal, running filter timer} holds at every
      step: triggers are never re-armed while a decision is pending, and in
      steady state exactly one edge is armed. */
  lemma OneUnresolvedEdge(id: uint32, level: LogicLevel, uninit: uint8, inputs: seq<Input>)
    requires inputs != [] && IsEnableCall(inputs[0])
    requires EnablesOnlyWhenIdle(Init(id, level, uninit), inputs)
    ensures AllAdmissible(inputs)
    ensures var r := Run(Init(id, level, uninit), inputs);
      Tokens(r) == 1 && (NothingPending(r) ==> r.trigger != NoTrigger)
  {
    EnableCallArms(Init(id, level, uninit), inputs[0]);
    RunKeepsOneToken(Step(Init(id, level, uninit), inputs[0]), inputs[1..]);
    AllAdmissibleCons(inputs);
  }

  // ---------------------------------------------------------------------------
  // Press and Release alternate
  // ---------------------------------------------------------------------------

  /** The level the button has settled at: while the filter timer runs the
      latched level is the new, undecided one. */
  function SettledLevel(s: State): int {
    if s.tickFilt.running then 1 - s.currValue else s.currValue
  }

  /** The phase a settled level means under a polarity. */
  function PhaseOfLevel(level: LogicLevel, v: int): Phase {
    if v == ActiveLevel(level) then Pressed else Released
  }

  /** The last Press or Release agrees with the settled level, the armed edge
      leaves it, and a posted signal came from that edge. */
  predicate Settles(s: State) {
    Tokens(s) == 1 && s.currValue <= 1 &&
    (s.trigger != NoTrigger ==> s.trigger == ArmFor(s.currValue)) &&
    (s.sigRise ==> s.currValue == 0) &&
    (s.sigFall ==> s.currValue == 1) &&
    (PhaseOf(s.trace) == Undecided || PhaseOf(s.trace) == PhaseOfLevel(s.level, SettledLevel(s))) &&
    PressReleaseAlternate(s.trace)
  }

  /** The state the filter callback sees: nothing armed, posted or running,
      and `currValue` the level latched for an edge leaving the settled one. */
  predicate ReadyToFilter(s: State) {
    Tokens(s) == 0 && s.currValue <= 1 &&
    (PhaseOf(s.trace) == Undecided || PhaseOf(s.trace) == PhaseOfLevel(s.level, 1 - s.currValue)) &&
    PressReleaseAlternate(s.trace)
  }

  lemma GpioFilterSettles(s: State, pin: uint8)
    requires ReadyToFilter(s) && pin <= 1
    ensures Settles(GpioFilter(s, pin))
  {
    var r := GpioFilter(s, pin);
    if s.currValue == pin {
      var e := r.trace[|s.trace|];
      assert r.trace == s.trace + [e];
      assert PhaseAfter(e) == PhaseOfLevel(s.level, pin);
      assert PhaseOfLevel(s.level, 1 - pin) != PhaseOfLevel(s.level, pin);
      PhaseOfAppend(s.trace, e);
      PressReleaseAlternateAppend(s.trace, e);
    }
  }

  /** Inputs from the environment only: no enable call, and a two-level pin. */
  predicate Undisturbed(i: Input) {
    Admissible(i) && !IsEnableCall(i) &&
    (i.TaskWakes? ==> i.pin <= 1) &&
    (i.FilterTimerFires? ==> i.pin <= 1)
  }

  lemma StepKeepsSettles(s: State, i: Input)
    requires Settles(s) && Undisturbed(i)
    ensures Settles(Step(s, i))
  {
    match i
    case RiseInterrupt =>
    case FallInterrupt =>
    case TaskWakes(pin) =>
      var woken := s.(sigRise := false, sigFall := false);
      if s.sigRise && !s.glitchFilter {
        GpioFilterSettles(woken.(currValue := 1), pin);
      } else if s.sigFall && !s.glitchFilter {
        GpioFilterSettles(woken.(currValue := 0), pin);
      }
    case FilterTimerFires(pin) =>
      if s.tickFilt.running {
        GpioFilterSettles(s.(tickFilt := s.tickFilt.(running := false)), pin);
      }
    case HoldTimerFires =>
      if s.tickHold.running {
        var e := Hold(s.id, s.holdCb);
        PhaseOfAppend(s.trace, e);
        PressReleaseAlternateAppend(s.trace, e);
      }
    case _ =>
  }

  /** An enable call that keeps the alternation: no decision is pending and
      the pin still reads the level the last Press or Release settled at (any
      two-level read before the first one). */
  predicate SteadyEnable(s: State, i: Input) {
    Admissible(i) && IsEnableCall(i) && NothingPending(s) && i.pin <= 1 &&
    (PhaseOf(s.trace) == Undecided || i.pin == s.currValue)
  }

  lemma SteadyEnableKeepsSettles(s: State, i: Input)
    requires Settles(s) && SteadyEnable(s, i)
    ensures Settles(Step(s, i))
  {
  }

  /** Run from `s`, every input is from the environment, a disable call or a
      filter setter with two-level reads, or a steady enable call. */
  predicate SettlingRun(s: State, inputs: seq<Input>)
    decreases |inputs|
  {
    inputs == [] ||
    ((Undisturbed(inputs[0]) || SteadyEnable(s, inputs[0])) &&
     SettlingRun(Step(s, inputs[0]), inputs[1..]))
  }

  lemma {:induction false} RunKeepsSettles(s: State, inputs: seq<Input>)
    requires Settles(s) && SettlingRun(s, inputs)
    ensures AllAdmissible(inputs) && Settles(Run(s, inputs))
    decreases |inputs|
  {
    if inputs != [] {
      if Undisturbed(inputs[0]) {
        StepKeepsSettles(s, inputs[0]);
      } else {
        SteadyEnableKeepsSettles(s, inputs[0]);
      }
      RunKeepsSettles(Step(s, inputs[0]), inputs[1..]);
      AllAdmissibleCons(inputs);
    }
  }

  /** The first enable call reading a two-level pin establishes the invariant. */
  lemma FirstEnableSettles(id: uint32, level: LogicLevel, uninit: uint8, first: Input)
    requires Admissible(first) && IsEnableCall(first) && first.pin <= 1
    ensures Settles(Step(Init(id, level, uninit), first))
  {
    var r := Step(Init(id, level, uninit), first);
    assert r.trace == [];
  }

  /** From construction, once the first input has been an enable call, and
      as long as the environment reads two levels and every later enable call
      is steady (the setup calls made one after the other included), each
      settled transition fires exactly one of Press and Release and they
      alternate: no two Press calls and no two Release calls in a row. */
  lemma PressAndReleaseAlternate(id: uint32, level: LogicLevel, uninit: uint8, inputs: seq<Input>)
    requires inputs != [] && IsEnableCall(inputs[0])
    requires SettlingRun(Init(id, level, uninit), inputs)
    ensures AllAdmissible(inputs)
    ensures PressReleaseAlternate(Run(Init(id, level, uninit), inputs).trace)
  {
    FirstEnableSettles(id, level, uninit, inputs[0]);
    RunKeepsSettles(Step(Init(id, level, uninit), inputs[0]), inputs[1..]);
    AllAdmissibleCons(inputs);
  }

  /** Inputs that only come from the environment, the disable calls and the
      filter setters keep both run conditions, whatever the state. */
  lemma {:induction false} UndisturbedRun(s: State, env: seq<Input>)
    requires forall k | 0 <= k < |env| :: Undisturbed(env[k])
    ensures SettlingRun(s, env) && EnablesOnlyWhenIdle(s, env)
    decreases |env|
  {
    if env != [] {
      forall k | 0 <= k < |env[1..]| ensures Undisturbed(env[1..][k]) {
        assert env[1..][k] == env[k + 1];
      }
      UndisturbedRun(Step(s, env[0]), env[1..]);
    }
  }

  /** A block of enable calls reading two levels, made before anything is
      pending or decided, followed by inputs of the environment, keeps both
      run conditions. */
  lemma {:induction false} SetupRun(s: State, setup: seq<Input>, env: seq<Input>)
    requires NothingPending(s) && s.trace == []
    requires forall k | 0 <= k < |setup| :: Admissible(setup[k]) && IsEnableCall(setup[k]) && setup[k].pin <= 1
    requires forall k | 0 <= k < |env| :: Undisturbed(env[k])
    ensures SettlingRun(s, setup + env) && EnablesOnlyWhenIdle(s, setup + env)
    decreases |setup|
  {
    if setup == [] {
      assert setup + env == env;
      UndisturbedRun(s, env);
    } else {
      var rest := setup[1..];
      forall k | 0 <= k < |rest|
        ensures Admissible(rest[k]) && IsEnableCall(rest[k]) && rest[k].pin <= 1
      {
        assert rest[k] == setup[k + 1];
      }
      SetupRun(Step(s, setup[0]), rest, env);
      assert (setup + env)[0] == setup[0];
      assert (setup + env)[1..] == rest + env;
    }
  }

  /** The way the driver is used: from construction, one or more enable calls
      in a row with the pin resting at either level, then only the
      environment (edges, the thread, the timers, two-level reads), the
      disable calls and the filter setters. Exactly one edge is tracked
      throughout, and Press and Release alternate. */
  lemma SetupThenEnvironment(id: uint32, level: LogicLevel, uninit: uint8, setup: seq<Input>, env: seq<Input>)
    requires setup != []
    requires forall k | 0 <= k < |setup| :: Admissible(setup[k]) && IsEnableCall(setup[k]) && setup[k].pin <= 1
    requires forall k | 0 <= k < |env| :: Undisturbed(env[k])
    ensures AllAdmissible(setup + env)
    ensures var r := Run(Init(id, level, uninit), setup + env);
      Tokens(r) == 1 && PressReleaseAlternate(r.trace)
  {
    SetupRun(Init(id, level, uninit), setup, env);
    assert (setup + env)[0] == setup[0];
    OneUnresolvedEdge(id, level, uninit, setup + env);
    PressAndReleaseAlternate(id, level, uninit, setup + env);
  }

  // ---------------------------------------------------------------------------
  // The uninitialised latched level never matters
  // ---------------------------------------------------------------------------

  /** Nothing armed, posted or running. */
  predicate Quiescent(s: State) {
    s.trigger == NoTrigger && !s.sigRise && !s.sigFall && !s.tickFilt.running
  }

  /** Equal, or quiescent and equal but for the latched level. */
  predicate AgreeButLatch(a: State, b: State) {
    a == b || (Quiescent(a) && a.(currValue := 0) == b.(currValue := 0))
  }

  lemma StepKeepsAgreement(a: State, b: State, i: Input)
    requires AgreeButLatch(a, b) && Admissible(i)
    ensures AgreeButLatch(Step(a, i), Step(b, i))
  {
    if a != b {
      assert Quiescent(b);
      match i
      case HoldTimerFires =>
        assert Step(a, i).(currValue := 0) == Step(b, i).(currValue := 0);
      case CallDisablePress =>
        assert Step(a, i).(currValue := 0) == Step(b, i).(currValue := 0);
      case CallDisableHold =>
        assert Step(a, i).(currValue := 0) == Step(b, i).(currValue := 0);
      case CallDisableRelease =>
        assert Step(a, i).(currValue := 0) == Step(b, i).(currValue := 0);
      case CallEnableGlitchFilter =>
        assert Step(a, i).(currValue := 0) == Step(b, i).(currValue := 0);
      case CallDisableGlitchFilter =>
        assert Step(a, i).(currValue := 0) == Step(b, i).(currValue := 0);
      case _ =>
    }
  }

  lemma {:induction false} RunKeepsAgreement(a: State, b: State, inputs: seq<Input>)
    requires AgreeButLatch(a, b) && AllAdmissible(inputs)
    ensures AgreeButLatch(Run(a, inputs), Run(b, inputs))
    decreases |inputs|
  {
    if inputs != [] {
      AllAdmissibleTail(inputs);
      StepKeepsAgreement(a, b, inputs[0]);
      RunKeepsAgreement(Step(a, inputs[0]), Step(b, inputs[0]), inputs[1..]);
    }
  }

  /** The constructor leaves the latched level uninitialised; every path
      writes it before reading it, so the callbacks run do not depend on it. */
  lemma LatchInitialValueIrrelevant(id: uint32, level: LogicLevel, u1: uint8, u2: uint8, inputs: seq<Input>)
    requires AllAdmissible(inputs)
    ensures Run(Init(id, level, u1), inputs).trace == Run(Init(id, level, u2), inputs).trace
  {
    var a, b := Run(Init(id, level, u1), inputs), Run(Init(id, level, u2), inputs);
    RunKeepsAgreement(Init(id, level, u1), Init(id, level, u2), inputs);
    assert a.(currValue := 0).trace == b.(currValue := 0).trace;
  }
}
