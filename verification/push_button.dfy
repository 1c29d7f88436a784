/** The PushButton object of PushButon.cpp. Its fields are those of the C++
    class, together with the state of the objects it owns that the engine
    depends on: the edge armed on the InterruptIn, the signals posted to its
    thread, and its two RtosTimers. A ghost trace records every call of a
    callback slot. Each method is proved to change the object exactly as the
    matching function of module Engine changes its snapshot, and to keep the
    hold invariant of module Invariants. */
module Driver {
  import opened Types
  import opened Decision
  import Engine
  import Invariants

  class PushButton {
    const id: uint32
    const level: LogicLevel
    /** The edge whose interrupt handler is attached to the InterruptIn. */
    var trigger: Trigger
    /** Signals posted to the thread and not yet consumed. */
    var sigRise: bool
    var sigFall: bool
    /** The one-shot glitch-filter timer and the periodic hold timer. */
    var tickFilt: Timer
    var tickHold: Timer
    var holdRunning: bool
    var holdUs: uint32
    /** The level latched for the edge being filtered. */
    var currValue: uint8
    var glitchFilter: bool
    var pressCb: Handler
    var holdCb: Handler
    var releaseCb: Handler
    ghost var trace: seq<Event>

    /** The object and the state it controls, as a value. */
    ghost function Snapshot(): Engine.State
      reads this
    {
      Engine.State(id, level, trigger, sigRise, sigFall, tickFilt, tickHold, holdRunning, holdUs,
                   currValue, glitchFilter, pressCb, holdCb, releaseCb, trace)
    }

    /** The hold flag tracks the hold timer, the hold timer runs only while
        the button is pressed, and every Hold call so far came while it was
        pressed. */
    ghost predicate Valid()
      reads this
    {
      Invariants.HoldInv(Snapshot())
    }

    /** No edge is armed and no timer runs; every slot holds the null
        callback; the glitch filter is on; the latched level is whatever the
        memory held. */
    constructor(id: uint32, level: LogicLevel)
      ensures this.id == id && this.level == level
      ensures trigger == NoTrigger && !sigRise && !sigFall
      ensures !tickFilt.running && !tickHold.running && !holdRunning && holdUs == 0
      ensures glitchFilter
      ensures pressCb == NullCallback && holdCb == NullCallback && releaseCb == NullCallback
      ensures trace == []
      ensures Snapshot() == Engine.Init(id, level, currValue)
      ensures Valid()
    {
      this.id := id;
      this.level := level;
      trigger := NoTrigger;
      sigRise, sigFall := false, false;
      tickFilt, tickHold := Idle, Idle;
      holdUs := 0;
      holdRunning := false;
      glitchFilter := true;
      pressCb, holdCb, releaseCb := NullCallback, NullCallback, NullCallback;
      trace := [];
    }

    /** Reads the pin into the latch and arms the edge that leaves it. */
    method EnableRiseFallCallbacks(pin: uint8)
      modifies this`currValue, this`trigger
      ensures currValue == pin && trigger == ArmFor(pin)
      ensures trigger != NoTrigger && (pin <= 1 ==> Arrival(trigger) != pin)
      ensures Snapshot() == old(Snapshot()).(currValue := pin, trigger := ArmFor(pin))
    {
      currValue := pin;
      if currValue != 0 {
        trigger := Fall;
      } else {
        trigger := Rise;
      }
    }

    method EnablePressEvents(pin: uint8)
      requires Valid()
      modifies this`pressCb, this`currValue, this`trigger
      ensures pressCb == UserCallback
      ensures Snapshot() == Engine.EnablePressEvents(old(Snapshot()), pin)
      ensures Valid()
    {
      pressCb := UserCallback;
      EnableRiseFallCallbacks(pin);
    }

    /** The interval is kept in microseconds, computed in 32 bits. */
    method EnableHoldEvents(millis: uint32, pin: uint8)
      requires millis != 0
      requires Valid()
      modifies this`holdCb, this`holdUs, this`currValue, this`trigger
      ensures holdCb == UserCallback && holdUs == HoldMicros(millis)
      ensures Snapshot() == Engine.EnableHoldEvents(old(Snapshot()), millis, pin)
      ensures Valid()
    {
      holdCb := UserCallback;
      holdUs := (1000 * millis) % 0x1_0000_0000;
      EnableRiseFallCallbacks(pin);
    }

    method EnableReleaseEvents(pin: uint8)
      requires Valid()
      modifies this`releaseCb, this`currValue, this`trigger
      ensures releaseCb == UserCallback
      ensures Snapshot() == Engine.EnableReleaseEvents(old(Snapshot()), pin)
      ensures Valid()
    {
      releaseCb := UserCallback;
      EnableRiseFallCallbacks(pin);
    }

    method DisablePressEvents()
      requires Valid()
      modifies this`pressCb
      ensures pressCb == NullCallback
      ensures Snapshot() == Engine.DisablePressEvents(old(Snapshot()))
      ensures Valid()
    {
      pressCb := NullCallback;
    }

    /** Afterwards the hold timer is stopped and no interval is configured. */
    method DisableHoldEvents()
      requires Valid()
      modifies this`tickHold, this`holdRunning, this`holdCb, this`holdUs
      ensures !holdRunning && !tickHold.running && holdCb == NullCallback && holdUs == 0
      ensures Snapshot() == Engine.DisableHoldEvents(old(Snapshot()))
      ensures Valid()
    {
      if holdRunning {
        tickHold := tickHold.(running := false);
      }
      holdRunning := false;
      holdCb := NullCallback;
      holdUs := 0;
    }

    method DisableReleaseEvents()
      requires Valid()
      modifies this`releaseCb
      ensures releaseCb == NullCallback
      ensures Snapshot() == Engine.DisableReleaseEvents(old(Snapshot()))
      ensures Valid()
    {
      releaseCb := NullCallback;
    }

    method EnableGlitchFilter()
      requires Valid()
      modifies this`glitchFilter
      ensures glitchFilter
      ensures Snapshot() == Engine.SetGlitchFilter(old(Snapshot()), true)
      ensures Valid()
    {
      glitchFilter := true;
    }

    method DisableGlitchFilter()
      requires Valid()
      modifies this`glitchFilter
      ensures !glitchFilter
      ensures Snapshot() == Engine.SetGlitchFilter(old(Snapshot()), false)
      ensures Valid()
    {
      glitchFilter := false;
    }

    /** Rising-edge interrupt: detach both handlers and wake the thread. */
    method IsrRiseCallback()
      requires Valid()
      modifies this`trigger, this`sigRise
      ensures trigger == NoTrigger && sigRise
      ensures Snapshot() == Engine.IsrRise(old(Snapshot()))
      ensures Valid()
    {
      trigger := NoTrigger;
      sigRise := true;
    }

    /** Falling-edge interrupt: detach both handlers and wake the thread. */
    method IsrFallCallback()
      requires Valid()
      modifies this`trigger, this`sigFall
      ensures trigger == NoTrigger && sigFall
      ensures Snapshot() == Engine.IsrFall(old(Snapshot()))
      ensures Valid()
    {
      trigger := NoTrigger;
      sigFall := true;
    }

    /** Stops the hold timer when it is flagged running; clears the flag. */
    method StopHoldTimer()
      modifies this`tickHold, this`holdRunning
      ensures Snapshot() == old(Snapshot()).(tickHold := Engine.StoppedHoldTimer(old(Snapshot())), holdRunning := false)
    {
      if holdRunning {
        tickHold := tickHold.(running := false);
        holdRunning := false;
      }
    }

    /** Stops the hold timer, then starts it again with the configured
        interval when there is one. */
    method RestartHoldTimer()
      modifies this`tickHold, this`holdRunning
      ensures Snapshot() == old(Snapshot()).(
        tickHold := if holdUs > 0 then Timer(true, holdUs / 1000) else Engine.StoppedHoldTimer(old(Snapshot())),
        holdRunning := holdUs > 0)
    {
      StopHoldTimer();
      if holdUs > 0 {
        tickHold := Timer(true, holdUs / 1000);
        holdRunning := true;
      }
    }

    /** The glitch filter's decision, with `pin` the level read from the pin:
        noise re-arms; a release stops the hold timer and calls the release
        slot; a press restarts the hold timer when an interval is set and
        calls the press slot; any other level stops the hold timer. The
        edges are re-armed in every case. */
    method GpioFilterCallback(pin: uint8)
      modifies this`tickHold, this`holdRunning, this`trace, this`currValue, this`trigger
      ensures Snapshot() == Engine.GpioFilter(old(Snapshot()), pin)
      ensures old(Valid()) ==> Valid()
    {
      ghost var s := Snapshot();
      Engine.GpioFilterBranches(s, pin);
      if Valid() {
        Invariants.GpioFilterKeepsHoldInv(s, pin);
      }
      if currValue == pin {
        if IsReleaseLevel(pin, level) {
          StopHoldTimer();
          trace := trace + [Release(id, releaseCb)];
        } else if IsPressLevel(pin, level) {
          RestartHoldTimer();
          trace := trace + [Press(id, pressCb)];
        } else {
          StopHoldTimer();
        }
      }
      EnableRiseFallCallbacks(pin);
    }

    /** The one-shot filter timer expiring: it stops, then runs the filter
        with `pin` the level read from the pin. An expiry that was not
        scheduled changes nothing. */
    method FilterTimerExpires(pin: uint8)
      requires Valid()
      modifies this`tickFilt, this`tickHold, this`holdRunning, this`trace, this`currValue, this`trigger
      ensures !tickFilt.running
      ensures Snapshot() == Engine.Step(old(Snapshot()), Engine.FilterTimerFires(pin))
      ensures Valid()
    {
      if tickFilt.running {
        tickFilt := tickFilt.(running := false);
        GpioFilterCallback(pin);
      }
    }

    /** The periodic hold timer's callback; the timer calls it only while it
        runs. */
    method HoldTickCallback()
      requires Valid() && tickHold.running
      modifies this`trace
      ensures trace == old(trace) + [Hold(id, holdCb)]
      ensures Snapshot() == Engine.HoldTick(old(Snapshot()))
      ensures Valid()
    {
      Invariants.StepKeepsHoldInv(Snapshot(), Engine.HoldTimerFires);
      trace := trace + [Hold(id, holdCb)];
    }

    /** One branch of the thread's loop: latch the edge's level, then start
        the 20 ms filter timer or, with the filter off, run the filter at
        once. */
    method ConsumeEdge(latched: uint8, pin: uint8)
      modifies this`tickFilt, this`tickHold, this`holdRunning, this`trace, this`currValue, this`trigger
      // with the filter on: latch, start the one-shot timer for 20 ms, decide nothing yet
      ensures old(glitchFilter) ==>
        currValue == latched && tickFilt == Timer(true, 20) && trace == old(trace) &&
        holdRunning == old(holdRunning) && trigger == old(trigger)
      ensures Snapshot() == Engine.Consume(old(Snapshot()), latched, pin)
      ensures old(Valid()) ==> Valid()
    {
      currValue := latched;
      if glitchFilter {
        tickFilt := Timer(true, GlitchFilterTimeoutUs / 1000);
      } else {
        GpioFilterCallback(pin);
      }
    }

    /** One iteration of the thread's loop, after the wait returns: consume
        the posted signals, the rise before the fall. */
    method TaskStep(pin: uint8)
      requires Valid()
      modifies this
      ensures Snapshot() == Engine.TaskStep(old(Snapshot()), pin)
      ensures Valid()
    {
      var rise, fall := sigRise, sigFall;
      sigRise, sigFall := false, false;
      if rise {
        ConsumeEdge(1, pin);
      }
      if fall {
        ConsumeEdge(0, pin);
      }
    }
  }
}
