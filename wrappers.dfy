/** Small value types shared by the model: Java's nullable references,
    exceptions that leave a method, and map lookup with Java's semantics. */
module Wrappers {

  /** A Java reference that may be null: None stands for null. */
  datatype Option<+T> = None | Some(value: T)

  /** A method's normal result or the exception it throws. */
  datatype Result<+R, +E> = Success(value: R) | Failure(error: E)

  /** The Java exceptions that can leave the modelled core. */
  datatype JavaException =
    | IllegalStateException(message: string)
    | NullPointerException
    | JsonDataException

  /** Java's Map.get: the value bound to the key, or null. */
  function MapGet<K, V>(m: map<K, V>, key: K): (r: Option<V>)
  {
    if key in m then Some(m[key]) else None
  }

  /** How Java's string concatenation renders a possibly-null String. */
  function JavaString(s: Option<string>): (r: string)
  {
    match s
    case Some(v) => v
    case None => "null"
  }
}
