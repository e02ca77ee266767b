/** An optional value. */
module Wrappers {

  datatype Option<T> = None | Some(value: T) {
    function GetOr(default: T): T {
      match this
      case Some(v) => v
      case None => default
    }
  }
}

/** File contents and response bodies are sequences of bytes. */
module Bytes {

  newtype byte = b: int | 0 <= b < 256
}
