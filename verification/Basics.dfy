/** Small value types shared by every component of the model. */
module Basics {

  datatype Option<+T> = None | Some(value: T)

  datatype Result<+T, +E> = Ok(value: T) | Err(error: E)

  type Byte = b: int | 0 <= b < 256

  /** A packet queued by the application: src, dst, timestamp in nanoseconds and payload. */
  datatype OutputMsg = OutputMsg(src: nat, dst: nat, sendTime: nat, payload: seq<Byte>)

  lemma Associates<T>(a: seq<T>, b: seq<T>, c: seq<T>)
    ensures (a + b) + c == a + (b + c)
  {}
}
