/** The pure decisions taken by PushButon.cpp: how a filtered edge is
    classified, which edge is armed next, and how the hold interval is
    converted to microseconds in 32-bit arithmetic. */
module Decision {
  import opened Types

  /** The four branches of the glitch-filter callback. */
  datatype Outcome = ErrNoise | EvRelease | EvPress | ErrLevel

  /** The pin level that means "pressed" under a polarity. */
  function ActiveLevel(level: LogicLevel): uint8 {
    if level == PressIsLowLevel then 0 else 1
  }

  /** The other polarity. */
  function Flip(level: LogicLevel): LogicLevel {
    if level == PressIsLowLevel then PressIsHighLevel else PressIsLowLevel
  }

  /** The release test of the filter callback. */
  predicate IsReleaseLevel(pin: uint8, level: LogicLevel) {
    (pin == 1 && level == PressIsLowLevel) || (pin == 0 && level == PressIsHighLevel)
  }

  /** The press test of the filter callback. */
  predicate IsPressLevel(pin: uint8, level: LogicLevel) {
    (pin == 1 && level == PressIsHighLevel) || (pin == 0 && level == PressIsLowLevel)
  }

  /** Classifies an edge from the level latched when it fired and the level
      read when the filter runs: a mismatch is noise; a settled level is a
      press when it is the active level, a release when it is the other
      logic level, and a level error otherwise. */
  function Classify(latched: uint8, pin: uint8, level: LogicLevel): (o: Outcome)
    ensures o == ErrNoise <==> latched != pin
    ensures o == EvPress <==> latched == pin && pin == ActiveLevel(level)
    ensures o == EvRelease <==> latched == pin && pin <= 1 && pin != ActiveLevel(level)
    ensures o == ErrLevel <==> latched == pin && pin > 1
  {
    if latched != pin then ErrNoise
    else if IsReleaseLevel(pin, level) then EvRelease
    else if IsPressLevel(pin, level) then EvPress
    else ErrLevel
  }

  /** For a two-level pin exactly one of the release and press tests holds,
      so the level-error branch is never taken. */
  lemma ExactlyOneLevelTest(pin: uint8, level: LogicLevel)
    requires pin <= 1
    ensures IsReleaseLevel(pin, level) != IsPressLevel(pin, level)
    ensures Classify(pin, pin, level) != ErrLevel
  {
  }

  /** The polarity alone decides between press and release: reversing it
      turns every settled press into a release and every release into a
      press, and leaves noise alone. */
  lemma PolaritySwapsPressAndRelease(latched: uint8, pin: uint8, level: LogicLevel)
    requires pin <= 1
    ensures Classify(latched, pin, level) == EvPress <==> Classify(latched, pin, Flip(level)) == EvRelease
    ensures Classify(latched, pin, level) == EvRelease <==> Classify(latched, pin, Flip(level)) == EvPress
    ensures Classify(latched, pin, level) == ErrNoise <==> Classify(latched, pin, Flip(level)) == ErrNoise
  {
  }

  /** The level the pin reaches when the edge armed by `t` fires. */
  function Arrival(t: Trigger): uint8
    requires t != NoTrigger
  {
    if t == Rise then 1 else 0
  }

  /** The edge armed after reading `pin`: any non-zero read is high. */
  function ArmFor(pin: uint8): (t: Trigger)
    // never neither (and never both, by the type)
    ensures t != NoTrigger
    // the armed edge is the one that leaves the level just read
    ensures pin <= 1 ==> Arrival(t) != pin
    ensures pin > 1 ==> Arrival(t) == 0
  {
    if pin != 0 then Fall else Rise
  }

  /** Largest hold interval, in milliseconds, whose microsecond count fits in
      32 bits. */
  const MaxExactHoldMillis: uint32 := 4294967

  /** `1000 * millis` computed in uint32, i.e. modulo 2^32. */
  function HoldMicros(millis: uint32): (us: uint32)
    ensures millis <= MaxExactHoldMillis ==> us == 1000 * millis
  {
    (1000 * millis) % 0x1_0000_0000
  }

  /** The hold timer is started with `HoldMicros(millis) / 1000` ms; that is
      the interval the caller asked for exactly when no wrap-around occurs. */
  lemma HoldPeriodRoundTrip(millis: uint32)
    ensures HoldMicros(millis) / 1000 == millis <==> millis <= MaxExactHoldMillis
  {
    if millis > MaxExactHoldMillis {
      var us := HoldMicros(millis);
      assert us / 1000 <= MaxExactHoldMillis by {
        assert us < 0x1_0000_0000;
      }
    }
  }

  /** The wrap-around can turn a non-zero interval, which the driver accepts,
      into no hold events at all. */
  lemma HoldMicrosWrapsToZero()
    ensures HoldMicros(536870912) == 0
  {
  }

  /** The wrap-around can also leave an interval below one millisecond: the
      hold timer is then started with a period of 0 ms, which the model treats
      as a running timer like any other. */
  lemma HoldMicrosWrapsBelowOneMillisecond()
    ensures HoldMicros(115964117) == 8 && HoldMicros(115964117) / 1000 == 0
  {
  }
}
