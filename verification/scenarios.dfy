/** Concrete runs of the engine: the press/release, noise, hold and
    unfiltered scenarios the driver is designed for, with the pin levels the
    engine reads at each step. */
module Scenarios {
  import opened Types
  import opened Decision
  import opened Engine
  import opened Traces

  lemma RunCons(s: State, i: Input, rest: seq<Input>)
    requires Admissible(i) && AllAdmissible(rest)
    ensures AllAdmissible([i] + rest)
    ensures Run(s, [i] + rest) == Run(Step(s, i), rest)
  {
    assert ([i] + rest)[1..] == rest;
  }

  /** Running two input sequences one after the other is running their
      concatenation. */
  lemma {:induction false} RunAppend(s: State, a: seq<Input>, b: seq<Input>)
    requires AllAdmissible(a) && AllAdmissible(b)
    ensures AllAdmissible(a + b)
    ensures Run(s, a + b) == Run(Run(s, a), b)
    decreases |a|
  {
    if a == [] {
      assert a + b == b;
    } else {
      assert AllAdmissible(a[1..]) by {
        forall k | 0 <= k < |a[1..]| ensures Admissible(a[1..][k]) {
          assert a[1..][k] == a[k + 1];
        }
      }
      RunAppend(Step(s, a[0]), a[1..], b);
      assert a + b == [a[0]] + (a[1..] + b);
      RunCons(s, a[0], a[1..] + b);
    }
  }

  /** Run of three inputs, one step at a time. */
  lemma Run3(s: State, i0: Input, i1: Input, i2: Input)
    requires Admissible(i0) && Admissible(i1) && Admissible(i2)
    ensures AllAdmissible([i0, i1, i2])
    ensures Run(s, [i0, i1, i2]) == Step(Step(Step(s, i0), i1), i2)
  {
    RunCons(Step(Step(s, i0), i1), i2, []);
    assert [i2] + [] == [i2];
    RunCons(Step(s, i0), i1, [i2]);
    assert [i1] + [i2] == [i1, i2];
    RunCons(s, i0, [i1, i2]);
    assert [i0] + [i1, i2] == [i0, i1, i2];
  }

  /** The resting state of a low-active button whose pin is high: the
      falling edge armed, nothing pending, no timer running. */
  predicate RestingHigh(s: State) {
    s.level == PressIsLowLevel && s.glitchFilter && s.trigger == Fall && s.currValue == 1 &&
    !s.sigRise && !s.sigFall && !s.tickFilt.running && !s.holdRunning && !s.tickHold.running
  }

  /** A fall to 0 that is still 0 when the 20 ms filter timer expires calls
      the press slot once, starts the hold timer when an interval is set, and
      arms the rising edge. */
  lemma FilteredPress(s: State)
    requires RestingHigh(s)
    ensures AllAdmissible([FallInterrupt, TaskWakes(0), FilterTimerFires(0)])
    ensures Run(s, [FallInterrupt, TaskWakes(0), FilterTimerFires(0)]) ==
      s.(trigger := Rise, currValue := 0, tickFilt := Timer(false, 20),
         tickHold := if s.holdUs > 0 then Timer(true, s.holdUs / 1000) else s.tickHold,
         holdRunning := s.holdUs > 0, trace := s.trace + [Press(s.id, s.pressCb)])
  {
    Run3(s, FallInterrupt, TaskWakes(0), FilterTimerFires(0));
    var s1 := Step(s, FallInterrupt);
    assert s1 == s.(trigger := NoTrigger, sigFall := true);
    var s2 := Step(s1, TaskWakes(0));
    assert s2 == s.(trigger := NoTrigger, currValue := 0, tickFilt := Timer(true, 20));
  }

  /** With the rising edge armed after a press, a rise to 1 that is still 1
      when the filter timer expires calls the release slot once, stops the
      hold timer and arms the falling edge again. */
  lemma FilteredRelease(s: State)
    requires s.level == PressIsLowLevel && s.glitchFilter && s.trigger == Rise && s.currValue == 0
    requires !s.sigRise && !s.sigFall && !s.tickFilt.running
    ensures AllAdmissible([RiseInterrupt, TaskWakes(1), FilterTimerFires(1)])
    ensures Run(s, [RiseInterrupt, TaskWakes(1), FilterTimerFires(1)]) ==
      s.(trigger := Fall, currValue := 1, tickFilt := Timer(false, 20),
         tickHold := StoppedHoldTimer(s), holdRunning := false,
         trace := s.trace + [Release(s.id, s.releaseCb)])
  {
    Run3(s, RiseInterrupt, TaskWakes(1), FilterTimerFires(1));
    var s1 := Step(s, RiseInterrupt);
    assert s1 == s.(trigger := NoTrigger, sigRise := true);
    var s2 := Step(s1, TaskWakes(1));
    assert s2 == s.(trigger := NoTrigger, currValue := 1, tickFilt := Timer(true, 20));
  }

  /** Registering press and release slots with the pin read high leaves a
      low-active button resting. */
  lemma LowActiveSetup(id: uint32)
    ensures AllAdmissible([CallEnablePress(1), CallEnableRelease(1)])
    ensures var s := Run(Init(id, PressIsLowLevel, 0), [CallEnablePress(1), CallEnableRelease(1)]);
      RestingHigh(s) && s.id == id && s.trace == [] &&
      s.pressCb == UserCallback && s.releaseCb == UserCallback
  {
    var s0 := Init(id, PressIsLowLevel, 0);
    RunCons(Step(s0, CallEnablePress(1)), CallEnableRelease(1), []);
    RunCons(s0, CallEnablePress(1), [CallEnableRelease(1)]);
    assert [CallEnablePress(1)] + ([CallEnableRelease(1)] + []) == [CallEnablePress(1), CallEnableRelease(1)];
  }

  /** A proof step: a sequence identity used by the scenario below. */
  lemma PressThenReleaseScript()
    ensures [CallEnablePress(1), CallEnableRelease(1),
             FallInterrupt, TaskWakes(0), FilterTimerFires(0),
             RiseInterrupt, TaskWakes(1), FilterTimerFires(1)] ==
      [CallEnablePress(1), CallEnableRelease(1)] +
      [FallInterrupt, TaskWakes(0), FilterTimerFires(0)] +
      [RiseInterrupt, TaskWakes(1), FilterTimerFires(1)]
  {
  }

  /** Press is the low level and the pin rests high. A fall to 0 that is
      still 0 when the filter timer expires gives one Press; the rise back to
      1, still 1 when the filter runs, gives one Release. */
  lemma PressThenRelease(id: uint32)
    ensures AllAdmissible([CallEnablePress(1), CallEnableRelease(1),
                           FallInterrupt, TaskWakes(0), FilterTimerFires(0),
                           RiseInterrupt, TaskWakes(1), FilterTimerFires(1)])
    ensures var s := Run(Init(id, PressIsLowLevel, 0),
                         [CallEnablePress(1), CallEnableRelease(1),
                          FallInterrupt, TaskWakes(0), FilterTimerFires(0),
                          RiseInterrupt, TaskWakes(1), FilterTimerFires(1)]);
      s.trace == [Press(id, UserCallback), Release(id, UserCallback)] && s.trigger == Fall
  {
    var s0 := Init(id, PressIsLowLevel, 0);
    var setup := [CallEnablePress(1), CallEnableRelease(1)];
    var press := [FallInterrupt, TaskWakes(0), FilterTimerFires(0)];
    var release := [RiseInterrupt, TaskWakes(1), FilterTimerFires(1)];
    PressThenReleaseScript();
    LowActiveSetup(id);
    var s2 := Run(s0, setup);
    FilteredPress(s2);
    var s5 := Run(s2, press);
    FilteredRelease(s5);
    RunAppend(s0, setup, press);
    RunAppend(s0, setup + press, release);
    assert [] + [Press(id, UserCallback)] + [Release(id, UserCallback)] ==
      [Press(id, UserCallback), Release(id, UserCallback)];
  }

  /** Registering press and release slots with the pin read low leaves a
      high-active button with the rising edge armed. */
  lemma HighActiveSetup(id: uint32)
    ensures AllAdmissible([CallEnablePress(0), CallEnableRelease(0)])
    ensures Run(Init(id, PressIsHighLevel, 0), [CallEnablePress(0), CallEnableRelease(0)]) ==
      Init(id, PressIsHighLevel, 0).(pressCb := UserCallback, releaseCb := UserCallback,
                                     currValue := 0, trigger := Rise)
  {
    var s0 := Init(id, PressIsHighLevel, 0);
    RunCons(Step(s0, CallEnablePress(0)), CallEnableRelease(0), []);
    RunCons(s0, CallEnablePress(0), [CallEnableRelease(0)]);
    assert [CallEnablePress(0)] + ([CallEnableRelease(0)] + []) == [CallEnablePress(0), CallEnableRelease(0)];
  }

  /** A rising edge with the filter enabled latches 1 and starts the 20 ms
      filter timer instead of deciding. */
  lemma RiseStartsFilterTimer(s: State)
    requires s.trigger == Rise && s.glitchFilter && !s.sigRise && !s.sigFall
    ensures AllAdmissible([RiseInterrupt, TaskWakes(1)])
    ensures Run(s, [RiseInterrupt, TaskWakes(1)]) ==
      s.(trigger := NoTrigger, currValue := 1, tickFilt := Timer(true, 20))
  {
    RunCons(Step(s, RiseInterrupt), TaskWakes(1), []);
    RunCons(s, RiseInterrupt, [TaskWakes(1)]);
    assert [RiseInterrupt] + ([TaskWakes(1)] + []) == [RiseInterrupt, TaskWakes(1)];
  }

  /** A filter timer that expires with the pin back at the other level only
      re-arms the triggers. */
  lemma ExpiryOnNoise(s: State, pin: uint8)
    requires s.tickFilt.running && s.currValue != pin
    ensures AllAdmissible([FilterTimerFires(pin)])
    ensures Run(s, [FilterTimerFires(pin)]) ==
      s.(tickFilt := s.tickFilt.(running := false), currValue := pin, trigger := ArmFor(pin))
  {
    RunCons(s, FilterTimerFires(pin), []);
    assert [FilterTimerFires(pin)] + [] == [FilterTimerFires(pin)];
  }

  /** A proof step: a sequence identity used by the scenario below. */
  lemma GlitchScript()
    ensures [CallEnablePress(0), CallEnableRelease(0), RiseInterrupt, TaskWakes(1)] ==
      [CallEnablePress(0), CallEnableRelease(0)] + [RiseInterrupt, TaskWakes(1)]
    ensures [CallEnablePress(0), CallEnableRelease(0), RiseInterrupt, TaskWakes(1), FilterTimerFires(0)] ==
      [CallEnablePress(0), CallEnableRelease(0)] + [RiseInterrupt, TaskWakes(1)] + [FilterTimerFires(0)]
  {
  }

  /** Press is the high level and the pin rests low. A rise to 1 starts the
      20 ms filter timer; the pin is back at 0 when it expires, so the edge is
      noise: no callback runs and the rising edge is armed again. */
  lemma GlitchIsNoise(id: uint32)
    ensures AllAdmissible([CallEnablePress(0), CallEnableRelease(0), RiseInterrupt, TaskWakes(1)])
    ensures var s := Run(Init(id, PressIsHighLevel, 0),
                         [CallEnablePress(0), CallEnableRelease(0), RiseInterrupt, TaskWakes(1)]);
      s.tickFilt == Timer(true, 20) && s.trigger == NoTrigger
    ensures AllAdmissible([CallEnablePress(0), CallEnableRelease(0), RiseInterrupt, TaskWakes(1), FilterTimerFires(0)])
    ensures var s := Run(Init(id, PressIsHighLevel, 0),
                         [CallEnablePress(0), CallEnableRelease(0),
                          RiseInterrupt, TaskWakes(1), FilterTimerFires(0)]);
      s.trace == [] && s.trigger == Rise && s.currValue == 0
  {
    var s0 := Init(id, PressIsHighLevel, 0);
    var setup := [CallEnablePress(0), CallEnableRelease(0)];
    var edge := [RiseInterrupt, TaskWakes(1)];
    var expiry := [FilterTimerFires(0)];
    GlitchScript();
    HighActiveSetup(id);
    var s2 := Run(s0, setup);
    RiseStartsFilterTimer(s2);
    ExpiryOnNoise(Run(s2, edge), 0);
    RunAppend(s0, setup, edge);
    RunAppend(s0, setup + edge, expiry);
  }

  /** Registering press, hold (every 1000 ms) and release slots with the pin
      read high leaves a low-active button resting with a 1000000 us hold
      interval. */
  lemma HoldSetup(id: uint32)
    ensures AllAdmissible([CallEnablePress(1), CallEnableHold(1000, 1), CallEnableRelease(1)])
    ensures var s := Run(Init(id, PressIsLowLevel, 0),
                         [CallEnablePress(1), CallEnableHold(1000, 1), CallEnableRelease(1)]);
      RestingHigh(s) && s.id == id && s.trace == [] && s.holdUs == 1000000 &&
      s.tickHold == Idle &&
      s.pressCb == UserCallback && s.holdCb == UserCallback && s.releaseCb == UserCallback
  {
    Run3(Init(id, PressIsLowLevel, 0), CallEnablePress(1), CallEnableHold(1000, 1), CallEnableRelease(1));
  }

  /** While the hold timer runs, an expiry calls the hold slot once. */
  lemma HoldTickStep(s: State)
    requires s.tickHold.running
    ensures Step(s, HoldTimerFires) == s.(trace := s.trace + [Hold(s.id, s.holdCb)])
  {
  }

  /** While the hold timer runs, each expiry calls the hold slot once. */
  lemma ThreeHoldTicks(s: State)
    requires s.tickHold.running
    ensures AllAdmissible([HoldTimerFires, HoldTimerFires, HoldTimerFires])
    ensures Run(s, [HoldTimerFires, HoldTimerFires, HoldTimerFires]) ==
      s.(trace := s.trace + [Hold(s.id, s.holdCb), Hold(s.id, s.holdCb), Hold(s.id, s.holdCb)])
  {
    var h := Hold(s.id, s.holdCb);
    Run3(s, HoldTimerFires, HoldTimerFires, HoldTimerFires);
    HoldTickStep(s);
    var s1 := s.(trace := s.trace + [h]);
    HoldTickStep(s1);
    var s2 := s.(trace := s.trace + [h] + [h]);
    assert s1.(trace := s1.trace + [h]) == s2;
    HoldTickStep(s2);
    assert s2.(trace := s2.trace + [h]) == s.(trace := s.trace + [h, h, h]);
  }

  /** A proof step: a sequence identity used by the scenario below. */
  lemma HoldThenReleaseScript()
    ensures [HoldTimerFires, HoldTimerFires, HoldTimerFires,
             RiseInterrupt, TaskWakes(1), FilterTimerFires(1), HoldTimerFires] ==
      [HoldTimerFires, HoldTimerFires, HoldTimerFires] +
      [RiseInterrupt, TaskWakes(1), FilterTimerFires(1)] + [HoldTimerFires]
  {
  }

  /** A proof step: a sequence identity used by the scenario below. */
  lemma HoldsThenReleaseTrace(t: seq<Event>, h: Event, r: Event)
    ensures t + [h, h, h] + [r] == t + [h, h, h, r]
  {
  }

  /** A held press followed by a release: three expiries of the running
      hold timer call the hold slot three times, the confirmed release stops
      the timer, and a further expiry request changes nothing. */
  lemma HoldThenRelease(s: State)
    requires s.level == PressIsLowLevel && s.glitchFilter && s.trigger == Rise && s.currValue == 0
    requires !s.sigRise && !s.sigFall && !s.tickFilt.running && s.tickHold.running && s.holdRunning
    ensures AllAdmissible([HoldTimerFires, HoldTimerFires, HoldTimerFires,
                           RiseInterrupt, TaskWakes(1), FilterTimerFires(1), HoldTimerFires])
    ensures var r := Run(s, [HoldTimerFires, HoldTimerFires, HoldTimerFires,
                             RiseInterrupt, TaskWakes(1), FilterTimerFires(1), HoldTimerFires]);
      r.trace == s.trace + [Hold(s.id, s.holdCb), Hold(s.id, s.holdCb), Hold(s.id, s.holdCb),
                            Release(s.id, s.releaseCb)] &&
      !r.holdRunning && r.tickHold == s.tickHold.(running := false)
  {
    var holds := [HoldTimerFires, HoldTimerFires, HoldTimerFires];
    var release := [RiseInterrupt, TaskWakes(1), FilterTimerFires(1)];
    var late := [HoldTimerFires];
    ThreeHoldTicks(s);
    var s3 := Run(s, holds);
    FilteredRelease(s3);
    var s6 := Run(s3, release);
    RunCons(s6, HoldTimerFires, []);
    assert [HoldTimerFires] + [] == late;
    RunAppend(s, holds, release);
    RunAppend(s, holds + release, late);
    HoldThenReleaseScript();
    HoldsThenReleaseTrace(s.trace, Hold(s.id, s.holdCb), Release(s.id, s.releaseCb));
  }

  /** Registering press, hold (every 1000 ms) and release slots, then a
      confirmed fall to 0, calls the press slot and starts the hold timer
      with a 1000 ms period. */
  lemma PressStartsHoldTimer(id: uint32)
    ensures AllAdmissible([CallEnablePress(1), CallEnableHold(1000, 1), CallEnableRelease(1),
                           FallInterrupt, TaskWakes(0), FilterTimerFires(0)])
    ensures var s := Run(Init(id, PressIsLowLevel, 0),
                         [CallEnablePress(1), CallEnableHold(1000, 1), CallEnableRelease(1),
                          FallInterrupt, TaskWakes(0), FilterTimerFires(0)]);
      s.level == PressIsLowLevel && s.glitchFilter && s.trigger == Rise && s.currValue == 0 &&
      !s.sigRise && !s.sigFall && !s.tickFilt.running &&
      s.tickHold == Timer(true, 1000) && s.holdRunning &&
      s.trace == [Press(id, UserCallback)] && s.id == id &&
      s.holdCb == UserCallback && s.releaseCb == UserCallback
  {
    var setup := [CallEnablePress(1), CallEnableHold(1000, 1), CallEnableRelease(1)];
    var press := [FallInterrupt, TaskWakes(0), FilterTimerFires(0)];
    HoldSetup(id);
    FilteredPress(Run(Init(id, PressIsLowLevel, 0), setup));
    RunAppend(Init(id, PressIsLowLevel, 0), setup, press);
    assert setup + press ==
      [CallEnablePress(1), CallEnableHold(1000, 1), CallEnableRelease(1),
       FallInterrupt, TaskWakes(0), FilterTimerFires(0)];
  }

  /** A proof step: a sequence identity used by the scenario below. */
  lemma HoldWhilePressedScript()
    ensures [CallEnablePress(1), CallEnableHold(1000, 1), CallEnableRelease(1),
             FallInterrupt, TaskWakes(0), FilterTimerFires(0),
             HoldTimerFires, HoldTimerFires, HoldTimerFires,
             RiseInterrupt, TaskWakes(1), FilterTimerFires(1),
             HoldTimerFires] ==
      [CallEnablePress(1), CallEnableHold(1000, 1), CallEnableRelease(1),
       FallInterrupt, TaskWakes(0), FilterTimerFires(0)] +
      [HoldTimerFires, HoldTimerFires, HoldTimerFires,
       RiseInterrupt, TaskWakes(1), FilterTimerFires(1), HoldTimerFires]
  {
  }

  /** A proof step: a sequence identity used by the scenario below. */
  lemma HoldTrace(p: Event, h: Event, r: Event)
    ensures [p] + [h, h, h, r] == [p, h, h, h, r]
  {
  }

  /** Press is the low level, hold events every 1000 ms. A confirmed press
      starts the hold timer with a 1000 ms period; three expiries give three
      Hold calls; the release stops the timer, so a later expiry request
      gives nothing. */
  lemma HoldWhilePressed(id: uint32)
    ensures AllAdmissible([CallEnablePress(1), CallEnableHold(1000, 1), CallEnableRelease(1),
                           FallInterrupt, TaskWakes(0), FilterTimerFires(0),
                           HoldTimerFires, HoldTimerFires, HoldTimerFires,
                           RiseInterrupt, TaskWakes(1), FilterTimerFires(1),
                           HoldTimerFires])
    ensures var s := Run(Init(id, PressIsLowLevel, 0),
                         [CallEnablePress(1), CallEnableHold(1000, 1), CallEnableRelease(1),
                          FallInterrupt, TaskWakes(0), FilterTimerFires(0),
                          HoldTimerFires, HoldTimerFires, HoldTimerFires,
                          RiseInterrupt, TaskWakes(1), FilterTimerFires(1),
                          HoldTimerFires]);
      s.trace == [Press(id, UserCallback), Hold(id, UserCallback), Hold(id, UserCallback),
                  Hold(id, UserCallback), Release(id, UserCallback)] &&
      !s.holdRunning && !s.tickHold.running && s.tickHold.periodMs == 1000
  {
    var first := [CallEnablePress(1), CallEnableHold(1000, 1), CallEnableRelease(1),
                  FallInterrupt, TaskWakes(0), FilterTimerFires(0)];
    var rest := [HoldTimerFires, HoldTimerFires, HoldTimerFires,
                 RiseInterrupt, TaskWakes(1), FilterTimerFires(1), HoldTimerFires];
    HoldWhilePressedScript();
    HoldTrace(Press(id, UserCallback), Hold(id, UserCallback), Release(id, UserCallback));
    PressStartsHoldTimer(id);
    HoldThenRelease(Run(Init(id, PressIsLowLevel, 0), first));
    RunAppend(Init(id, PressIsLowLevel, 0), first, rest);
  }

  /** With the glitch filter disabled the thread decides at once: the fall to
      0 gives a Press in the same step, and no filter timer is started. */
  lemma UnfilteredPress(id: uint32)
    ensures AllAdmissible([CallEnablePress(1), CallDisableGlitchFilter, FallInterrupt, TaskWakes(0)])
    ensures var s := Run(Init(id, PressIsLowLevel, 0),
                         [CallEnablePress(1), CallDisableGlitchFilter, FallInterrupt, TaskWakes(0)]);
      s.trace == [Press(id, UserCallback)] && s.trigger == Rise && !s.tickFilt.running
  {
    var s0 := Init(id, PressIsLowLevel, 0);
    var first := [CallEnablePress(1), CallDisableGlitchFilter, FallInterrupt];
    Run3(s0, CallEnablePress(1), CallDisableGlitchFilter, FallInterrupt);
    var s3 := Run(s0, first);
    assert s3 == s0.(pressCb := UserCallback, glitchFilter := false, currValue := 1, sigFall := true);
    var s4 := Step(s3, TaskWakes(0));
    assert s4.trace == [Press(id, UserCallback)] && s4.trigger == Rise && !s4.tickFilt.running;
    RunCons(s3, TaskWakes(0), []);
    assert [TaskWakes(0)] + [] == [TaskWakes(0)];
    RunAppend(s0, first, [TaskWakes(0)]);
    assert first + [TaskWakes(0)] == [CallEnablePress(1), CallDisableGlitchFilter, FallInterrupt, TaskWakes(0)];
  }

  /** A proof step: a sequence identity used by the scenario below. */
  lemma LateEnableScript()
    ensures [CallEnablePress(1), CallEnableRelease(1),
             FallInterrupt, TaskWakes(0), FilterTimerFires(0),
             RiseInterrupt, TaskWakes(1),
             CallEnableRelease(0), FilterTimerFires(0)] ==
      [CallEnablePress(1), CallEnableRelease(1)] +
      [FallInterrupt, TaskWakes(0), FilterTimerFires(0)] +
      [RiseInterrupt, TaskWakes(1)] +
      [CallEnableRelease(0), FilterTimerFires(0)]
  {
  }

  /** While the filter timer runs, enableReleaseEvents reading 0 re-latches
      0, and the expiry reading 0 then confirms a press on a low-active
      button. */
  lemma LateEnableConfirmsPress(s: State)
    requires s.level == PressIsLowLevel && s.tickFilt.running
    ensures AllAdmissible([CallEnableRelease(0), FilterTimerFires(0)])
    ensures Run(s, [CallEnableRelease(0), FilterTimerFires(0)]).trace ==
      s.trace + [Press(s.id, s.pressCb)]
  {
    var s1 := Step(s, CallEnableRelease(0));
    assert s1.currValue == 0 && s1.tickFilt.running && s1.level == PressIsLowLevel;
    RunCons(s1, FilterTimerFires(0), []);
    assert [FilterTimerFires(0)] + [] == [FilterTimerFires(0)];
    RunCons(s, CallEnableRelease(0), [FilterTimerFires(0)]);
    assert [CallEnableRelease(0)] + [FilterTimerFires(0)] == [CallEnableRelease(0), FilterTimerFires(0)];
  }

  /** A proof step: a sequence identity used by the scenario below. */
  lemma RepeatedPressTrace(p: Event)
    ensures [] + [p] + [p] == [p, p]
  {
  }

  /** Two Press calls in a row break the alternation. */
  lemma RepeatedPressBreaksAlternation(p: Event)
    requires p.Press?
    ensures !PressReleaseAlternate([p, p])
  {
    assert [p, p][..1] == [p];
    assert PhaseOf([p]) == Pressed;
  }

  /** An enable call while a decision is pending re-latches the level it
      reads. Press is the low level; after a confirmed press the pin rises
      and the filter timer starts with 1 latched; the pin is back at 0 when
      the application calls enableReleaseEvents, which latches 0, so the
      expiry sees 0 twice and calls the press slot a second time. */
  lemma EnableWhilePendingRepeatsPress(id: uint32)
    ensures AllAdmissible([CallEnablePress(1), CallEnableRelease(1),
                           FallInterrupt, TaskWakes(0), FilterTimerFires(0),
                           RiseInterrupt, TaskWakes(1),
                           CallEnableRelease(0), FilterTimerFires(0)])
    ensures var s := Run(Init(id, PressIsLowLevel, 0),
                         [CallEnablePress(1), CallEnableRelease(1),
                          FallInterrupt, TaskWakes(0), FilterTimerFires(0),
                          RiseInterrupt, TaskWakes(1),
                          CallEnableRelease(0), FilterTimerFires(0)]);
      s.trace == [Press(id, UserCallback), Press(id, UserCallback)] &&
      !PressReleaseAlternate(s.trace)
  {
    var s0 := Init(id, PressIsLowLevel, 0);
    var setup := [CallEnablePress(1), CallEnableRelease(1)];
    var press := [FallInterrupt, TaskWakes(0), FilterTimerFires(0)];
    var edge := [RiseInterrupt, TaskWakes(1)];
    var late := [CallEnableRelease(0), FilterTimerFires(0)];
    LateEnableScript();
    LowActiveSetup(id);
    var s2 := Run(s0, setup);
    FilteredPress(s2);
    var s5 := Run(s2, press);
    RiseStartsFilterTimer(s5);
    LateEnableConfirmsPress(Run(s5, edge));
    RunAppend(s0, setup, press);
    RunAppend(s0, setup + press, edge);
    RunAppend(s0, setup + press + edge, late);
    RepeatedPressTrace(Press(id, UserCallback));
    RepeatedPressBreaksAlternation(Press(id, UserCallback));
  }

  /** A falling edge with the filter enabled latches 0 and starts the 20 ms
      filter timer instead of deciding. */
  lemma FallStartsFilterTimer(s: State)
    requires s.trigger == Fall && s.glitchFilter && !s.sigRise && !s.sigFall
    ensures AllAdmissible([FallInterrupt, TaskWakes(0)])
    ensures Run(s, [FallInterrupt, TaskWakes(0)]) ==
      s.(trigger := NoTrigger, currValue := 0, tickFilt := Timer(true, 20))
  {
    RunCons(Step(s, FallInterrupt), TaskWakes(0), []);
    RunCons(s, FallInterrupt, [TaskWakes(0)]);
    assert [FallInterrupt] + ([TaskWakes(0)] + []) == [FallInterrupt, TaskWakes(0)];
  }

  /** The pin is released while the press slot runs: the press is decided
      on a read of 0, but the re-arm reads 1 and arms the falling edge. The
      rise happened while both edges were detached, so no release is ever
      tracked: the hold timer keeps running with the pin high. */
  lemma ReleaseDuringPressSlot(s: State)
    requires s.level == PressIsLowLevel && s.currValue == 0 && s.holdUs > 0
    requires !s.sigRise && !s.sigFall
    ensures var r := GpioFilterTwoReads(s, 0, 1);
      r.trace == s.trace + [Press(s.id, s.pressCb)] &&
      r.currValue == 1 && r.trigger == Fall && r.tickHold.running && r.holdRunning &&
      !r.sigRise && !r.sigFall
  {
  }

  /** With the filter timer running on a latched 0, an expiry reading 0
      confirms a press on a low-active button. */
  lemma ExpiryConfirmsPress(s: State)
    requires s.level == PressIsLowLevel && s.tickFilt.running && s.currValue == 0
    ensures AllAdmissible([FilterTimerFires(0)])
    ensures Run(s, [FilterTimerFires(0)]).trace == s.trace + [Press(s.id, s.pressCb)]
  {
    RunCons(s, FilterTimerFires(0), []);
    assert [FilterTimerFires(0)] + [] == [FilterTimerFires(0)];
  }

  /** A proof step: a sequence identity used by the scenario below. */
  lemma HoldThenPressScript()
    ensures [HoldTimerFires, FallInterrupt, TaskWakes(0), FilterTimerFires(0)] ==
      [HoldTimerFires] + [FallInterrupt, TaskWakes(0)] + [FilterTimerFires(0)]
  {
  }

  /** A Press, a Hold, then a Press again break the alternation. */
  lemma PressHoldPressBreaksAlternation(p: Event, h: Event)
    requires p.Press? && h.Hold?
    ensures !PressReleaseAlternate([p, h, p])
  {
    assert [p, h, p][..2] == [p, h];
    assert [p, h][..1] == [p];
    assert PhaseOf([p]) == Pressed;
    assert PhaseOf([p, h]) == Pressed;
  }

  /** A proof step: a sequence identity used by the scenario below. */
  lemma PressHoldPressTrace(p: Event, h: Event)
    ensures [p] + [h] + [p] == [p, h, p]
  {
  }

  /** When the two pin reads of the filter callback differ, Press and Release
      need not alternate. Press is the low level, hold events every 1000 ms.
      A fall is confirmed as a press, but the pin is back high when the edges
      are re-armed, so the falling edge is armed and the release is lost; the
      hold timer fires with the pin high, and the next press calls the press
      slot again with no Release in between. */
  lemma ReleaseLostBetweenReads(id: uint32)
    ensures AllAdmissible([CallEnablePress(1), CallEnableHold(1000, 1), CallEnableRelease(1),
                           FallInterrupt, TaskWakes(0)])
    ensures AllAdmissible([HoldTimerFires, FallInterrupt, TaskWakes(0), FilterTimerFires(0)])
    ensures var s := Run(Init(id, PressIsLowLevel, 0),
                         [CallEnablePress(1), CallEnableHold(1000, 1), CallEnableRelease(1),
                          FallInterrupt, TaskWakes(0)]);
      var decided := GpioFilterTwoReads(s.(tickFilt := s.tickFilt.(running := false)), 0, 1);
      var r := Run(decided, [HoldTimerFires, FallInterrupt, TaskWakes(0), FilterTimerFires(0)]);
      r.trace == [Press(id, UserCallback), Hold(id, UserCallback), Press(id, UserCallback)] &&
      !PressReleaseAlternate(r.trace)
  {
    var s0 := Init(id, PressIsLowLevel, 0);
    var setup := [CallEnablePress(1), CallEnableHold(1000, 1), CallEnableRelease(1)];
    var fall := [FallInterrupt, TaskWakes(0)];
    HoldSetup(id);
    var s3 := Run(s0, setup);
    FallStartsFilterTimer(s3);
    RunAppend(s0, setup, fall);
    assert setup + fall == [CallEnablePress(1), CallEnableHold(1000, 1), CallEnableRelease(1),
                            FallInterrupt, TaskWakes(0)];
    var s := Run(s0, setup + fall);
    var stopped := s.(tickFilt := s.tickFilt.(running := false));
    ReleaseDuringPressSlot(stopped);
    var decided := GpioFilterTwoReads(stopped, 0, 1);
    var p := Press(id, UserCallback);
    var h := Hold(id, UserCallback);
    assert decided.trace == [p];
    var tick := [HoldTimerFires];
    RunCons(decided, HoldTimerFires, []);
    assert [HoldTimerFires] + [] == tick;
    HoldTickStep(decided);
    var d1 := Run(decided, tick);
    assert d1.trace == [p] + [h];
    FallStartsFilterTimer(d1);
    var d3 := Run(d1, fall);
    ExpiryConfirmsPress(d3);
    RunAppend(decided, tick, fall);
    RunAppend(decided, tick + fall, [FilterTimerFires(0)]);
    HoldThenPressScript();
    PressHoldPressTrace(p, h);
    PressHoldPressBreaksAlternation(p, h);
  }
}
