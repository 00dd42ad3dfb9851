/** Failure-carrying wrappers and the error taxonomy shared by the value
    model, the plan operators and the semantics checker. */
module Common {

  /** `None` stands for Go's nil (a nil reference, map or error). */
  datatype Option<+T> = None | Some(value: T)

  /** What a scalar value refused to let a caller change. */
  datatype Key = FieldKey(name: string) | IndexKey(index: int)

  datatype Error =
    /** value.Unsettable: a mutation of a value that has no structure. */
    | Unsettable(key: Key)
    /** encoding/json: the value under `member` has the wrong JSON type
        (the empty member name stands for the document as a whole). */
    | TypeMismatch(member: string)
    /** encoding/json: there was no input at all ("unexpected end of JSON input"). */
    | EndOfInput
    /** A parsed expression does not have the shape the operator needs. */
    | ShapeError(message: string)
    /** An error produced by a collaborator (parser, datastore, operator
        registry, clause visitor); the core only passes it on. */
    | External(code: nat)

  /** A value or the error that prevented it (Go's `(T, error)` pair). */
  datatype Result<+T> = Ok(value: T) | Err(error: Error)

  /** The error of a `(T, error)` pair, as Go's `err` variable holds it. */
  function ErrorOf<T>(r: Result<T>): (e: Option<Error>)
    ensures e.None? <==> r.Ok?
    ensures r.Err? ==> e == Some(r.error)
  {
    match r
    case Ok(_) => None
    case Err(x) => Some(x)
  }

  /** The value of a `(T, error)` pair; nil when the call failed. */
  function ValueOf<T>(r: Result<T>): (v: Option<T>)
    ensures v.Some? <==> r.Ok?
    ensures r.Ok? ==> v == Some(r.value)
  {
    match r
    case Ok(x) => Some(x)
    case Err(_) => None
  }
}
