/** The observation record the scoring engine reads, the values it holds, and the
    failures a lookup in it can raise. */
module Values {

  /** A field value as the intake form stores it: a whole number or a text code. */
  datatype Value = Int(n: int) | Str(s: string)

  /** The clinical-observation record: criterion key to value. Any key may be absent. */
  type Context = map<string, Value>

  /** Why a scoring call fails instead of returning a result. */
  datatype Error =
    | MissingField(key: string)            // a required key read without a default is absent
    | NotInTable(criterion: string, v: Value)  // the value is not a key of the criterion's point table
    | NotAnInteger(key: string)            // a field read as a whole number holds text

  datatype Option<+T> = None | Some(value: T)

  datatype Result<+T> = Ok(value: T) | Err(error: Error) {
    predicate IsFailure() { Err? }
    function PropagateFailure<U>(): Result<U> requires Err? { Err(error) }
    function Extract(): T requires Ok? { value }
  }

  /** The value stored under `key`, or `default` when the key is absent. */
  function Get(ctx: Context, key: string, default: Value): Value
  {
    if key in ctx then ctx[key] else default
  }
}
