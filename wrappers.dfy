/** Failure-carrying result types shared by every module of the model. */
module Wrappers {

  datatype Option<+T> = None | Some(value: T) {

    /** Pairs a present value with a length, as decoders report what they consumed. */
    function MapLen(n: nat): Option<(T, nat)> {
      match this
      case None => None
      case Some(v) => Some((v, n))
    }
  }

  datatype Result<+T, +E> = Success(value: T) | Failure(error: E)
}

/** Octets, as Go's []byte holds them. */
module Bytes {

  type byte = b: int | 0 <= b < 256
}
