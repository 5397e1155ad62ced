/** Values shared by the ticker and the stage: optional values, the handlers
    that callers register, and the values the code throws. */
module Js {

  datatype Option<+T> = None | Some(value: T)

  /** A value passed where a callback is expected. Functions are known only by
      an identity; what they do is not modelled. Any other JavaScript value is
      `NotFunction`. */
  datatype Handler = Fn(id: nat) | NotFunction

  /** What the code throws. `TickerNeedsFunction` is the string thrown by
      `Ticker.addListener`, `InvalidEvent` the string "Invalid Event" thrown by
      the stage, and `TypeError` the engine's error when a non-function is
      called or a property that is not a function is used as one. */
  datatype Thrown = TickerNeedsFunction | InvalidEvent | TypeError

  /** JavaScript's `v || 1` for a number that may be undefined: undefined and
      0 are falsy and give 1, any other number is kept. */
  function OrOne(v: Option<real>): (r: real)
    ensures r != 0.0
    ensures v.Some? && v.value != 0.0 ==> r == v.value
    ensures v.None? || v.value == 0.0 ==> r == 1.0
  {
    if v.Some? && v.value != 0.0 then v.value else 1.0
  }
}
