/** Scalar types shared by both services, and the two wrappers used for
    absent values and for calls that end in an exception. */
module Primitives {

  /** C#'s `int`: a 32-bit two's-complement integer. */
  type Int32 = x: int | -0x8000_0000 <= x < 0x8000_0000

  /** A `decimal(18,2)` amount, held as a whole number of cents. */
  type Cents = int

  type UserId = string
  type ProductId = string

  /** C#'s unchecked `a + b` on two `int`s: the mathematical sum brought back
      into 32 bits, so a sum past either end wraps around to the other end. */
  function AddWrapping(a: Int32, b: Int32): (r: Int32)
    ensures -0x8000_0000 <= a + b < 0x8000_0000 ==> r == a + b
    ensures a + b >= 0x8000_0000 ==> r == a + b - 0x1_0000_0000 && r < 0
    ensures a + b < -0x8000_0000 ==> r == a + b + 0x1_0000_0000 && r >= 0
  {
    (a + b + 0x8000_0000) % 0x1_0000_0000 - 0x8000_0000
  }

  /** A possibly-null reference or a possibly-absent JSON property. */
  datatype Option<+T> = None | Some(value: T) {
    /** The value, or `default` when there is none. */
    function GetOr(default: T): T {
      match this
      case Some(v) => v
      case None => default
    }
  }

  /** Why a call ended in an exception rather than returning normally. */
  datatype Fault =
    | CacheUnavailable   // a cache read threw
    | CacheWriteFailed   // a cache write or eviction threw
    | StoreWriteFailed   // saving to the relational store threw
    | PublishFailed      // connecting to the broker, declaring the queue or publishing threw
    | MalformedPayload   // the JSON reader rejected a message body

  /** The outcome of a call: a value, or the exception it raised. */
  datatype Result<+T> = Ok(value: T) | Err(fault: Fault)
}
