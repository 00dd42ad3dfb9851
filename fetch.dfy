/** The Fetch plan operator: it fetches documents of one keyspace, as
    named by a keyspace term, and round-trips through a JSON envelope. */
module PlanFetch {
  import opened Common
  import opened PlanCommon

  /** The algebra's keyspace term as Fetch uses it: where the documents
      live, the optional projection path, the alias and the keys expression. */
  datatype KeyspaceTerm = KeyspaceTerm(
    namespace: string,
    keyspace: string,
    projection: Option<Expr>,
    alias: string,
    keys: Option<Expr>)

  const PATH_ERROR_PREFIX: string := "Fetch.UnmarshalJSON: cannot resolve path expression from "

  /** The envelope a Fetch over `term` marshals into. */
  function FetchEnvelope(env: Env, term: KeyspaceTerm): (r: Envelope)
    ensures "#operator" in r && r["#operator"] == JString("Fetch")
    ensures "namespace" in r && r["namespace"] == JString(term.namespace)
    ensures "keyspace" in r && r["keyspace"] == JString(term.keyspace)
    ensures "projection" in r <==> term.projection.Some?
    ensures term.projection.Some? ==> r["projection"] == JString(env.stringify(term.projection.value))
    ensures "as" in r <==> term.alias != ""
    ensures "as" in r ==> r["as"] == JString(term.alias)
    ensures r.Keys <= {"#operator", "projection", "namespace", "keyspace", "as"}
  {
    var named := map["#operator" := JString("Fetch"),
                     "namespace" := JString(term.namespace),
                     "keyspace" := JString(term.keyspace)];
    var projected := if term.projection.Some?
                     then named["projection" := JString(env.stringify(term.projection.value))]
                     else named;
    if term.alias != "" then projected["as" := JString(term.alias)] else projected
  }

  /** The struct UnmarshalJSON decodes into (the `#operator` member is
      not decoded: its struct field is blank). */
  datatype FetchFields = FetchFields(proj: string, names: string, keys: string, alias: string)

  function DecodeFetch(body: Json): Result<FetchFields> {
    match DecodeObject(body)
    case Err(e) => Err(e)
    case Ok(m) =>
      match (StringField(m, "projection"), StringField(m, "namespace"),
             StringField(m, "keyspace"), StringField(m, "as"))
      case (Err(e), _, _, _) => Err(e)
      case (_, Err(e), _, _) => Err(e)
      case (_, _, Err(e), _) => Err(e)
      case (_, _, _, Err(e)) => Err(e)
      case (Ok(p), Ok(n), Ok(k), Ok(a)) => Ok(FetchFields(p, n, k, a))
  }

  /** What UnmarshalJSON does to the receiver: either it returns an error
      before assigning anything, or it assigns the rebuilt term and then
      the keyspace found by the lookup, whose error it returns. */
  datatype FetchUpdate =
    | Rejected(error: Error)
    | Rebuilt(term: KeyspaceTerm, lookup: Result<KeyspaceHandle>)

  function Unmarshal(env: Env, body: Json): FetchUpdate {
    match DecodeFetch(body)
    case Err(e) => Rejected(e)
    case Ok(f) =>
      match env.parse(f.proj)
      case Err(e) => Rejected(e)
      case Ok(proj) =>
        if !IsPath(proj) then Rejected(ShapeError(PATH_ERROR_PREFIX + f.proj))
        else
          match env.parse(f.keys)
          case Err(e) => Rejected(e)
          case Ok(keys) =>
            Rebuilt(KeyspaceTerm(f.names, f.keys, Some(proj), f.alias, Some(keys)),
                    env.getKeyspace(f.names, f.keys))
  }

  class Fetch {
    var keyspace: Option<KeyspaceHandle>
    var term: Option<KeyspaceTerm>

    /** `NewFetch` */
    constructor (keyspace: Option<KeyspaceHandle>, term: Option<KeyspaceTerm>)
      ensures Keyspace() == keyspace && Term() == term
    {
      this.keyspace := keyspace;
      this.term := term;
    }

    /** `New`: the zero Fetch that UnmarshalJSON fills in. */
    constructor New()
      ensures Keyspace() == None && Term() == None
    {
      keyspace := None;
      term := None;
    }

    /** `Keyspace`: the keyspace stored by the constructor or by
        UnmarshalJSON. */
    function Keyspace(): (k: Option<KeyspaceHandle>)
      reads this
      ensures k == keyspace
    {
      keyspace
    }

    /** `Term`: the keyspace term stored by the constructor or by
        UnmarshalJSON. */
    function Term(): (t: Option<KeyspaceTerm>)
      reads this
      ensures t == term
    {
      term
    }

    /** `MarshalJSON`: the envelope of the term, built member by member.
        (A nil term would be dereferenced, so one is required.) */
    method MarshalJSON(env: Env) returns (r: Envelope, err: Option<Error>)
      requires term.Some?
      ensures err == None
      ensures r == FetchEnvelope(env, term.value)
    {
      var t := term.value;
      r := map["#operator" := JString("Fetch")];
      if t.projection.Some? {
        r := r["projection" := JString(env.stringify(t.projection.value))];
      }
      r := r["namespace" := JString(t.namespace)];
      r := r["keyspace" := JString(t.keyspace)];
      if t.alias != "" {
        r := r["as" := JString(t.alias)];
      }
      err := None;
    }

    /** `UnmarshalJSON`: decode, reparse the projection and check it is a
        path, parse the keys, assign the term, then look the keyspace up. */
    method UnmarshalJSON(env: Env, body: Json) returns (err: Option<Error>)
      modifies this
      ensures match Unmarshal(env, body)
        case Rejected(e) => err == Some(e) && term == old(term) && keyspace == old(keyspace)
        case Rebuilt(t, lookup) => term == Some(t) && keyspace == ValueOf(lookup) && err == ErrorOf(lookup)
    {
      var decoded := DecodeFetch(body);
      if decoded.Err? {
        return Some(decoded.error);
      }
      var f := decoded.value;
      var parsed := env.parse(f.proj);
      if parsed.Err? {
        return Some(parsed.error);
      }
      var proj := parsed.value;
      if !IsPath(proj) {
        return Some(ShapeError(PATH_ERROR_PREFIX + f.proj));
      }
      var keys := env.parse(f.keys);
      if keys.Err? {
        return Some(keys.error);
      }
      term := Some(KeyspaceTerm(f.names, f.keys, Some(proj), f.alias, Some(keys.value)));
      var lookup := env.getKeyspace(f.names, f.keys);
      keyspace := ValueOf(lookup);
      err := ErrorOf(lookup);
    }
  }

  /** A marshalled Fetch decodes to its own namespace, keyspace and alias
      (an omitted alias reads back as ""), and to the printed projection,
      or "" when there is none. */
  lemma EnvelopeDecodes(env: Env, term: KeyspaceTerm)
    ensures DecodeFetch(JObject(FetchEnvelope(env, term)))
      == Ok(FetchFields(if term.projection.Some? then env.stringify(term.projection.value) else "",
                        term.namespace, term.keyspace, term.alias))
  {
    var m := FetchEnvelope(env, term);
    assert StringField(m, "as") == Ok(term.alias);
    assert StringField(m, "projection")
      == Ok(if term.projection.Some? then env.stringify(term.projection.value) else "");
  }

  /** Whenever unmarshalling a marshalled Fetch rebuilds a term, that
      term has the original namespace, keyspace name and alias, and the
      keyspace is looked up under those names. */
  lemma ScalarsRoundTrip(env: Env, term: KeyspaceTerm)
    ensures Unmarshal(env, JObject(FetchEnvelope(env, term))).Rebuilt? ==>
      var u := Unmarshal(env, JObject(FetchEnvelope(env, term)));
      u.term.namespace == term.namespace && u.term.keyspace == term.keyspace &&
      u.term.alias == term.alias && u.lookup == env.getKeyspace(term.namespace, term.keyspace)
  {
    EnvelopeDecodes(env, term);
  }

  /** With a projection that the parser reads back as itself (a path),
      and a keyspace name that parses, the round trip rebuilds the term,
      except that its keys are the parsed keyspace name. */
  lemma RoundTrip(env: Env, term: KeyspaceTerm)
    requires term.projection.Some? && IsPath(term.projection.value)
    requires env.parse(env.stringify(term.projection.value)) == Ok(term.projection.value)
    requires env.parse(term.keyspace).Ok?
    ensures Unmarshal(env, JObject(FetchEnvelope(env, term)))
      == Rebuilt(term.(keys := Some(env.parse(term.keyspace).value)),
                 env.getKeyspace(term.namespace, term.keyspace))
  {
    EnvelopeDecodes(env, term);
  }

  /** The decoder's error and both parse errors (the projection's, then
      the keys expression's) are passed on unchanged, before any
      assignment; a term is rebuilt exactly when decoding, both parses and
      the path test succeed, and it then holds a path projection, the
      parsed keys and exactly the decoded names. */
  lemma {:induction false} UnmarshalOutcomes(env: Env, body: Json)
    ensures DecodeFetch(body).Err? ==> Unmarshal(env, body) == Rejected(DecodeFetch(body).error)
    ensures DecodeFetch(body).Ok? ==>
      var f := DecodeFetch(body).value;
      (env.parse(f.proj).Err? ==> Unmarshal(env, body) == Rejected(env.parse(f.proj).error)) &&
      (env.parse(f.proj).Ok? && !IsPath(env.parse(f.proj).value) ==>
         Unmarshal(env, body) == Rejected(ShapeError(PATH_ERROR_PREFIX + f.proj))) &&
      (env.parse(f.proj).Ok? && IsPath(env.parse(f.proj).value) && env.parse(f.keys).Err? ==>
         Unmarshal(env, body) == Rejected(env.parse(f.keys).error)) &&
      (env.parse(f.proj).Ok? && IsPath(env.parse(f.proj).value) && env.parse(f.keys).Ok? ==>
         Unmarshal(env, body).Rebuilt? && Unmarshal(env, body).term.keys == Some(env.parse(f.keys).value)) &&
      (Unmarshal(env, body).Rebuilt? ==>
         var t := Unmarshal(env, body).term;
         t.namespace == f.names && t.keyspace == f.keys && t.alias == f.alias &&
         t.projection.Some? && IsPath(t.projection.value) && env.parse(f.proj) == Ok(t.projection.value) &&
         Unmarshal(env, body).lookup == env.getKeyspace(f.names, f.keys))
  {
  }
}
