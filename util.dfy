/** Small shared vocabulary: optional values, Go-style panics as values, bytes. */
module Util {

  /** A value that may be absent; stands for Go's nil pointers, maps and errors. */
  datatype Option<+T> = None | Some(value: T)

  /** The result of a Go function that either returns a value or panics with a message. */
  datatype Result<+T> = Ok(value: T) | Panic(message: string)

  /** One octet of a body, as Go's `byte`. */
  newtype byte = x: int | 0 <= x < 256

  /** The line feed appended to every serialized body. */
  const Newline: byte := 10
}
