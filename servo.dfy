/** A servo (src/servo.rs): three pulse widths and an optional PWM channel. */
module Servos {
  import opened Wrappers

  /**
   * An opened PWM channel, seen only through whether its writes succeed:
   * the channel accepts its first `acceptedWrites` pulse-width commands and
   * fails the next one.
   */
  datatype PwmHandle = PwmHandle(acceptedWrites: nat)

  /** Whether the write with 0-based number `index` on this channel succeeds. */
  predicate Accepts(pwm: PwmHandle, index: nat)
  {
    index < pwm.acceptedWrites
  }

  /** Pulse widths in microseconds; no channel means dummy mode. */
  datatype Servo = Servo(pulseClosed: nat, pulseOpen: nat, pulsePassed: nat, pwm: Option<PwmHandle>)
}
