/** What the plan operators share: the JSON values an envelope holds,
    the expressions they embed as text, and the collaborators they call
    (the expression parser and printer, the datastore, the operator
    registry). The collaborators are passed in as function values. */
module PlanCommon {
  import opened Common

  datatype Json =
    | JNull
    | JBool(b: bool)
    | JNumber(n: int)
    | JString(s: string)
    | JArray(elems: seq<Json>)
    | JObject(members: map<string, Json>)

  /** A marshalled operator: member names to JSON values. */
  type Envelope = map<string, Json>

  /** Expressions, reduced to what the plan operators look at: the
      navigation variants that form a path, and everything else. */
  datatype Expr =
    | Identifier(name: string)
    | Field(base: Expr, field: string)
    | Element(base: Expr, index: Expr)
    | Other(kind: string, operands: seq<Expr>)

  /** Whether an expression is a `Path`, i.e. it can address a location. */
  predicate IsPath(e: Expr) {
    e.Identifier? || e.Field? || e.Element?
  }

  /** A handle on a datastore keyspace; opaque to the core. */
  datatype KeyspaceHandle = KeyspaceHandle(id: nat)

  /** A plan operator built by the registry; opaque to the core. */
  datatype Operator = Operator(id: nat)

  datatype Env = Env(
    /** `parser.Parse` */
    parse: string -> Result<Expr>,
    /** `expression.NewStringer().Visit` */
    stringify: Expr -> string,
    /** `datastore.GetKeyspace(namespace, keyspace)` */
    getKeyspace: (string, string) -> Result<KeyspaceHandle>,
    /** `MakeOperator(name, body)`: the registry's factory for `name`,
        unmarshalled from `body` */
    makeOperator: (string, Json) -> Result<Operator>,
    /** the envelope an operator marshals itself into */
    marshalOperator: Operator -> Json)

  /** Decoding a JSON document into a Go struct: an object gives its
      members, `null` leaves every field at its zero value, anything else
      is a type error. */
  function DecodeObject(body: Json): (r: Result<Envelope>)
    ensures body.JObject? ==> r == Ok(body.members)
    ensures body.JNull? ==> r == Ok(map[])
    ensures r.Err? ==> r.error == TypeMismatch("")
    ensures r.Err? <==> !body.JObject? && !body.JNull?
  {
    match body
    case JObject(m) => Ok(m)
    case JNull => Ok(map[])
    case _ => Err(TypeMismatch(""))
  }

  /** A string-typed struct field: absent or `null` decodes to "". */
  function StringField(m: Envelope, member: string): (r: Result<string>)
    ensures member in m && m[member].JString? ==> r == Ok(m[member].s)
    ensures (member !in m || m[member].JNull?) ==> r == Ok("")
    ensures r.Err? <==> member in m && !m[member].JString? && !m[member].JNull?
    ensures r.Err? ==> r.error == TypeMismatch(member)
  {
    if member !in m then Ok("")
    else match m[member]
      case JNull => Ok("")
      case JString(s) => Ok(s)
      case _ => Err(TypeMismatch(member))
  }

  /** A bool-typed struct field: absent or `null` decodes to false. */
  function BoolField(m: Envelope, member: string): (r: Result<bool>)
    ensures member in m && m[member].JBool? ==> r == Ok(m[member].b)
    ensures (member !in m || m[member].JNull?) ==> r == Ok(false)
    ensures r.Err? <==> member in m && !m[member].JBool? && !m[member].JNull?
    ensures r.Err? ==> r.error == TypeMismatch(member)
  {
    if member !in m then Ok(false)
    else match m[member]
      case JNull => Ok(false)
      case JBool(b) => Ok(b)
      case _ => Err(TypeMismatch(member))
  }

  /** A `json.RawMessage` field: the member's JSON as it stands, or
      nothing when the member is absent. */
  function RawField(m: Envelope, member: string): (r: Option<Json>)
    ensures r.Some? <==> member in m
    ensures member in m ==> r.value == m[member]
  {
    if member in m then Some(m[member]) else None
  }

  /** Reads the `#operator` discriminator out of raw JSON. With no input
      at all the decoder fails; `null` leaves the name empty. */
  function OperatorName(raw: Option<Json>): (r: Result<string>)
    ensures raw.None? ==> r == Err(EndOfInput)
    ensures raw == Some(JNull) ==> r == Ok("")
    ensures forall m :: raw == Some(JObject(m)) ==> r == StringField(m, "#operator")
    ensures raw.Some? && !raw.value.JObject? && !raw.value.JNull? ==> r == Err(TypeMismatch(""))
  {
    match raw
    case None => Err(EndOfInput)
    case Some(body) =>
      match DecodeObject(body)
      case Err(e) => Err(e)
      case Ok(m) => StringField(m, "#operator")
  }
}
