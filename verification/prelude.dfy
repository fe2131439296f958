/** Types shared by every part of the model. */
module Prelude {

  datatype Option<+T> = None | Some(value: T)

  /** An instant or a span, in nanoseconds (Go's time.Time and time.Duration). */
  type Time = int
}
