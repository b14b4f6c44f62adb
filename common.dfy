/** Values shared by the engine, the session and the record builders. */
module Common {

  datatype Option<+T> = None | Some(value: T)

  /** The exceptions the modelled code raises. */
  datatype Error =
    | ValueError          // an explicit `raise ValueError(...)`
    | AttributeError      // `.items()` called on a list
    | UnboundResult       // `result` never bound: a phase outside 1..3

  datatype Result<+T> = Ok(value: T) | Err(error: Error)

  /** One cell of a row, as the dynamically typed rows of the program hold it. */
  datatype Value =
    | Missing             // Python's None
    | Int(i: int)
    | Num(x: real)
    | Text(s: string)

  /** Python's truthiness test `not v` on a cell. */
  predicate Falsy(v: Value)
  {
    match v
    case Missing => true
    case Int(i) => i == 0
    case Num(x) => x == 0.0
    case Text(s) => s == ""
  }
}
