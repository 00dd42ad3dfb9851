/** The AnsiJoin plan operator: an ANSI join with an ON clause over one
    child operator, and its JSON envelope. */
module PlanAnsiJoin {
  import opened Common
  import opened PlanCommon

  /** The algebra join the operator is planned from. */
  datatype AlgebraJoin = AlgebraJoin(outer: bool, alias: string, onclause: Expr)

  /** The fields of an AnsiJoin, as one value. */
  datatype JoinState = JoinState(outer: bool, alias: string, onclause: Option<Expr>, child: Option<Operator>)

  /** How the child is written into the envelope: a nil child as `null`,
      any other by its own envelope. */
  function ChildJson(env: Env, child: Option<Operator>): Json {
    match child
    case None => JNull
    case Some(c) => env.marshalOperator(c)
  }

  /** The envelope an AnsiJoin marshals into, before any callback. */
  function JoinEnvelope(env: Env, outer: bool, alias: string, onclause: Expr, child: Option<Operator>): (r: Envelope)
    ensures "#operator" in r && r["#operator"] == JString("AnsiJoin")
    ensures "alias" in r && r["alias"] == JString(alias)
    ensures "on_clause" in r && r["on_clause"] == JString(env.stringify(onclause))
    ensures "outer" in r <==> outer
    ensures "outer" in r ==> r["outer"] == JBool(true)
    ensures "~child" in r && r["~child"] == ChildJson(env, child)
    ensures r.Keys <= {"#operator", "alias", "on_clause", "outer", "~child"}
  {
    var base := map["#operator" := JString("AnsiJoin"),
                    "alias" := JString(alias),
                    "on_clause" := JString(env.stringify(onclause))];
    var flagged := if outer then base["outer" := JBool(true)] else base;
    flagged["~child" := ChildJson(env, child)]
  }

  /** The struct UnmarshalJSON decodes into; the child is kept raw. */
  datatype JoinFields = JoinFields(onclause: string, outer: bool, alias: string, child: Option<Json>)

  function DecodeJoin(body: Json): Result<JoinFields> {
    match DecodeObject(body)
    case Err(e) => Err(e)
    case Ok(m) =>
      match (StringField(m, "on_clause"), BoolField(m, "outer"), StringField(m, "alias"))
      case (Err(e), _, _) => Err(e)
      case (_, Err(e), _) => Err(e)
      case (_, _, Err(e)) => Err(e)
      case (Ok(on), Ok(outer), Ok(alias)) => Ok(JoinFields(on, outer, alias, RawField(m, "~child")))
  }

  datatype JoinOutcome = JoinOutcome(state: JoinState, err: Option<Error>)

  /** What UnmarshalJSON leaves in a receiver that held `before`, and
      the error it returns. Fields are assigned one after the other, so
      an error after the ON clause leaves the earlier assignments done. */
  function Unmarshal(env: Env, body: Json, before: JoinState): JoinOutcome {
    match DecodeJoin(body)
    case Err(e) => JoinOutcome(before, Some(e))
    case Ok(f) =>
      if f.onclause != "" && env.parse(f.onclause).Err? then
        JoinOutcome(before.(onclause := None), Some(env.parse(f.onclause).error))
      else
        var on := if f.onclause != "" then Some(env.parse(f.onclause).value) else before.onclause;
        var s := JoinState(f.outer, f.alias, on, before.child);
        match OperatorName(f.child)
        case Err(e) => JoinOutcome(s, Some(e))
        case Ok(name) =>
          var made := env.makeOperator(name, f.child.value);
          JoinOutcome(s.(child := ValueOf(made)), ErrorOf(made))
  }

  class AnsiJoin {
    var outer: bool
    var alias: string
    var onclause: Option<Expr>
    var child: Option<Operator>

    function State(): JoinState
      reads this
    {
      JoinState(outer, alias, onclause, child)
    }

    /** `NewAnsiJoin`: takes outer, alias and ON clause from the algebra
        join and keeps the child as given. */
    constructor (join: AlgebraJoin, child: Option<Operator>)
      ensures Outer() == join.outer && Alias() == join.alias
      ensures Onclause() == Some(join.onclause) && Child() == child
    {
      outer := join.outer;
      alias := join.alias;
      onclause := Some(join.onclause);
      this.child := child;
    }

    /** `New`: the zero AnsiJoin that UnmarshalJSON fills in. */
    constructor New()
      ensures State() == JoinState(false, "", None, None)
    {
      outer := false;
      alias := "";
      onclause := None;
      child := None;
    }

    /** The accessors read the fields that `State` gathers, as the
        constructors and UnmarshalJSON left them. */
    function Outer(): (r: bool)
      reads this
      ensures r == State().outer
    {
      outer
    }

    function Alias(): (r: string)
      reads this
      ensures r == State().alias
    {
      alias
    }

    function Onclause(): (r: Option<Expr>)
      reads this
      ensures r == State().onclause
    {
      onclause
    }

    function Child(): (r: Option<Operator>)
      reads this
      ensures r == State().child
    {
      child
    }

    /** `MarshalBase`: the base members are all set before the optional
        callback `f` is given the envelope, so `f` sees each of them and
        can add members. (A nil ON clause would be dereferenced by the
        printer, so one is required.) */
    method MarshalBase(env: Env, f: Option<Envelope -> Envelope>) returns (r: Envelope)
      requires onclause.Some?
      ensures f.None? ==> r == JoinEnvelope(env, outer, alias, onclause.value, child)
      ensures f.Some? ==> r == f.value(JoinEnvelope(env, outer, alias, onclause.value, child))
    {
      r := map["#operator" := JString("AnsiJoin")];
      r := r["alias" := JString(alias)];
      r := r["on_clause" := JString(env.stringify(onclause.value))];
      if outer {
        r := r["outer" := JBool(outer)];
      }
      r := r["~child" := ChildJson(env, child)];
      if f.Some? {
        r := f.value(r);
      }
    }

    /** `MarshalJSON`: the base envelope, with no callback. */
    method MarshalJSON(env: Env) returns (r: Envelope, err: Option<Error>)
      requires onclause.Some?
      ensures err == None
      ensures r == JoinEnvelope(env, outer, alias, onclause.value, child)
    {
      r := MarshalBase(env, None);
      err := None;
    }

    /** `UnmarshalJSON`: decode; reparse a non-empty ON clause; assign
        outer and alias; read the child's `#operator` and build the child
        through the registry. */
    method UnmarshalJSON(env: Env, body: Json) returns (err: Option<Error>)
      modifies this
      ensures JoinOutcome(State(), err) == Unmarshal(env, body, old(State()))
    {
      var decoded := DecodeJoin(body);
      if decoded.Err? {
        return Some(decoded.error);
      }
      var f := decoded.value;
      if f.onclause != "" {
        var parsed := env.parse(f.onclause);
        onclause := ValueOf(parsed);
        if parsed.Err? {
          return Some(parsed.error);
        }
      }
      outer := f.outer;
      alias := f.alias;
      var name := OperatorName(f.child);
      if name.Err? {
        return Some(name.error);
      }
      var made := env.makeOperator(name.value, f.child.value);
      child := ValueOf(made);
      if made.Err? {
        return Some(made.error);
      }
      return None;
    }
  }

  /** The child's envelope names its operator, and the registry rebuilds
      the child from it. */
  predicate Rebuildable(env: Env, c: Operator) {
    var j := env.marshalOperator(c);
    j.JObject? && "#operator" in j.members && j.members["#operator"].JString? &&
    env.makeOperator(j.members["#operator"].s, j) == Ok(c)
  }

  /** A marshalled join decodes to its own outer flag, alias, printed ON
      clause and child envelope. */
  lemma EnvelopeDecodes(env: Env, outer: bool, alias: string, onclause: Expr, child: Option<Operator>)
    ensures DecodeJoin(JObject(JoinEnvelope(env, outer, alias, onclause, child)))
      == Ok(JoinFields(env.stringify(onclause), outer, alias, Some(ChildJson(env, child))))
  {
    var m := JoinEnvelope(env, outer, alias, onclause, child);
    assert BoolField(m, "outer") == Ok(outer);
  }

  /** Outer and alias survive a round trip whenever the printed ON clause
      parses again (or is empty); an omitted `outer` reads back as false. */
  lemma ScalarsRoundTrip(env: Env, outer: bool, alias: string, onclause: Expr, child: Option<Operator>, before: JoinState)
    requires env.stringify(onclause) == "" || env.parse(env.stringify(onclause)).Ok?
    ensures
      var u := Unmarshal(env, JObject(JoinEnvelope(env, outer, alias, onclause, child)), before);
      u.state.outer == outer && u.state.alias == alias
  {
    EnvelopeDecodes(env, outer, alias, onclause, child);
  }

  /** When the parser reads the printed ON clause back as itself and the
      registry rebuilds the child from its envelope, unmarshalling a
      marshalled join restores every field, whatever the receiver held. */
  lemma RoundTrip(env: Env, outer: bool, alias: string, onclause: Expr, c: Operator, before: JoinState)
    requires env.stringify(onclause) != ""
    requires env.parse(env.stringify(onclause)) == Ok(onclause)
    requires Rebuildable(env, c)
    ensures Unmarshal(env, JObject(JoinEnvelope(env, outer, alias, onclause, Some(c))), before)
      == JoinOutcome(JoinState(outer, alias, Some(onclause), Some(c)), None)
  {
    EnvelopeDecodes(env, outer, alias, onclause, Some(c));
  }

  /** An empty ON clause is not parsed and leaves the receiver's clause;
      a non-empty one that fails to parse returns the parser's error
      before outer, alias or child are touched. */
  lemma {:induction false} OnClauseHandling(env: Env, body: Json, before: JoinState)
    requires DecodeJoin(body).Ok?
    ensures var f := DecodeJoin(body).value;
      f.onclause != "" && env.parse(f.onclause).Err? ==>
        Unmarshal(env, body, before) ==
          JoinOutcome(before.(onclause := None), Some(env.parse(f.onclause).error))
    ensures var f := DecodeJoin(body).value;
      f.onclause == "" ==> Unmarshal(env, body, before).state.onclause == before.onclause
  {
  }

  /** Past the ON clause, the child is built by the registry under the
      name the child envelope carries, and that build's error (or the
      error reading the name) is the result. */
  lemma {:induction false} ChildFromRegistry(env: Env, body: Json, before: JoinState)
    requires DecodeJoin(body).Ok?
    requires var f := DecodeJoin(body).value; f.onclause == "" || env.parse(f.onclause).Ok?
    ensures var f := DecodeJoin(body).value; var u := Unmarshal(env, body, before);
      u.state.outer == f.outer && u.state.alias == f.alias &&
      (OperatorName(f.child).Err? ==> u.err == Some(OperatorName(f.child).error) && u.state.child == before.child) &&
      (OperatorName(f.child).Ok? ==>
         var made := env.makeOperator(OperatorName(f.child).value, f.child.value);
         u.state.child == ValueOf(made) && u.err == ErrorOf(made))
  {
  }

  /** An envelope with ON clause `a.id = b.aid`, `outer` true and a Fetch
      child unmarshals into an outer join whose child the registry built
      as a Fetch. */
  lemma OuterJoinOverFetch(env: Env, fetch: map<string, Json>, before: JoinState)
    requires "#operator" in fetch && fetch["#operator"] == JString("Fetch")
    requires env.parse("a.id = b.aid").Ok?
    requires env.makeOperator("Fetch", JObject(fetch)).Ok?
    ensures
      var body := JObject(map["#operator" := JString("AnsiJoin"), "on_clause" := JString("a.id = b.aid"),
                              "outer" := JBool(true), "~child" := JObject(fetch)]);
      var u := Unmarshal(env, body, before);
      u.err == None && u.state.outer &&
      u.state.onclause == Some(env.parse("a.id = b.aid").value) &&
      u.state.child == Some(env.makeOperator("Fetch", JObject(fetch)).value)
  {
    var m := map["#operator" := JString("AnsiJoin"), "on_clause" := JString("a.id = b.aid"),
                 "outer" := JBool(true), "~child" := JObject(fetch)];
    assert StringField(m, "on_clause") == Ok("a.id = b.aid");
    assert BoolField(m, "outer") == Ok(true);
    assert StringField(m, "alias") == Ok("");
    assert RawField(m, "~child") == Some(JObject(fetch));
  }
}
