/** Option and Result: "no value" and "the call raised" as explicit values. */
module Wrappers {

  datatype Option<+T> = None | Some(value: T)

  /** The outcome of a Python call that may raise. The scraper only prints the
      exception it catches, so the error carries no payload. */
  datatype Result<+T> = Ok(value: T) | Raised {
    function ToOption(): Option<T>
    {
      match this
      case Ok(v) => Some(v)
      case Raised => None
    }
  }
}
