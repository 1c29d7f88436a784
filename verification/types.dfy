/** Types and constants of the push-button driver (PushButton.h), together with
    the abstract view of its environment: the edge trigger armed on the
    interrupt pin, the RTOS timers, and the callback slots. */
module Types {

  /** C unsigned integer widths used by the driver. */
  type uint8 = x: int | 0 <= x < 0x100
  type uint32 = x: int | 0 <= x < 0x1_0000_0000

  /** Which pin level means "pressed". */
  datatype LogicLevel = PressIsLowLevel | PressIsHighLevel

  /** Default anti-glitch delay after a level change, in microseconds. */
  const GlitchFilterTimeoutUs: uint32 := 20000

  /** The edge currently armed on the interrupt pin. Every call site of the
      driver sets the rise and the fall handler together, so at most one of
      them is ever installed. */
  datatype Trigger = NoTrigger | Rise | Fall

  /** An RTOS timer: whether it is running, and the period in milliseconds it
      was last started with. */
  datatype Timer = Timer(running: bool, periodMs: uint32)

  /** A timer that has never been started. */
  const Idle: Timer := Timer(false, 0)

  /** What a callback slot holds: the driver's private do-nothing callback, or
      one installed by the user. */
  datatype Handler = NullCallback | UserCallback

  /** One invocation of a callback slot, with the button identifier it is
      passed and the handler that ran. */
  datatype Event =
    | Press(id: uint32, handler: Handler)
    | Hold(id: uint32, handler: Handler)
    | Release(id: uint32, handler: Handler)
}
