/** Small value types shared by the store, the key builder and the engine. */
module Basics {

  /** A value that Go would leave nil: `Options.Headers` when the caller
      sets none, and the error of a store call that succeeded. */
  datatype Option<+T> = None | Some(value: T) {

    /** The value, or `fallback` where Go would find nil. */
    function GetOr(fallback: T): T {
      if Some? then value else fallback
    }
  }

  /** One octet; Go's `byte`. */
  type byte = x: int | 0 <= x < 256

  /** A byte slice; Go's `[]byte`. */
  type Bytes = seq<byte>
}
