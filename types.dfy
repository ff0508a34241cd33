/** Small value types shared by the quantity modules: optional values, the
    outcome of an operation that can throw, and the enums and option records
    that several quantities store. */
module Types {

  datatype Option<T> = None | Some(value: T)

  /** Normal completion, or the message of the exception the operation throws. */
  datatype Outcome = Pass | Fail(message: string)

  /** How scalar data maps to a colormap range. */
  datatype DataType = STANDARD | SYMMETRIC | MAGNITUDE

  /** Whether vectors are drawn at their true (ambient) length or rescaled. */
  datatype VectorType = STANDARD | AMBIENT

  /** A length that is either absolute or relative to the scene's length scale. */
  datatype ScaledValue = ScaledValue(value: real, isRelative: bool)

  function Absolute(v: real): ScaledValue { ScaledValue(v, false) }

  function Relative(v: real): ScaledValue { ScaledValue(v, true) }
}
