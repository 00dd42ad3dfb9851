/** The n-ary AND of the query language's three-valued logic: a false
    operand decides the result; otherwise MISSING wins over NULL, and NULL
    wins over TRUE. */
module LogicAnd {
  import opened Common
  import opened Values

  /** `shortCircuit`: an operand that by itself makes the AND false: its
      type ranks above NULL and it is not truthy. */
  predicate ShortCircuit(v: Value) {
    Rank(TypeOf(v)) > Rank(NULL) && !Truth(v)
  }

  predicate SomeShortCircuit(operands: seq<Value>) {
    exists i :: 0 <= i < |operands| && ShortCircuit(operands[i])
  }

  predicate SomeOfType(operands: seq<Value>, t: Type) {
    exists i :: 0 <= i < |operands| && TypeOf(operands[i]) == t
  }

  /** The value an AND over these operand values evaluates to. */
  function AndOf(operands: seq<Value>): Value {
    if SomeShortCircuit(operands) then Bool(false)
    else if SomeOfType(operands, MISSING) then Missing
    else if SomeOfType(operands, NULL) then Null
    else Bool(true)
  }

  /** `evaluate`: one pass over the operands, stopping at the first one
      that short-circuits and otherwise remembering whether a MISSING or a
      NULL operand was seen. It never reports an error. */
  method Evaluate(operands: seq<Value>) returns (r: Value, err: Option<Error>)
    ensures err == None
    ensures r == AndOf(operands)
  {
    var sawMissing := false;
    var sawNull := false;
    for i := 0 to |operands|
      invariant forall j :: 0 <= j < i ==> !ShortCircuit(operands[j])
      invariant sawMissing <==> SomeOfType(operands[..i], MISSING)
      invariant sawNull <==> SomeOfType(operands[..i], NULL)
    {
      var v := operands[i];
      assert operands[..i + 1] == operands[..i] + [v];
      if Rank(TypeOf(v)) > Rank(NULL) {
        if !Truth(v) {
          return Bool(false), None;
        }
      } else if TypeOf(v) == NULL {
        sawNull := true;
      } else if TypeOf(v) == MISSING {
        sawMissing := true;
      }
    }
    assert operands[..|operands|] == operands;
    if sawMissing {
      r := Missing;
    } else if sawNull {
      r := Null;
    } else {
      r := Bool(true);
    }
    return r, None;
  }

  /** `shortCircuit` agrees with `evaluate`: an operand short-circuits
      exactly when it is a non-MISSING, non-NULL value that is not truthy,
      which is exactly when it alone makes the AND false; among booleans,
      only FALSE does. */
  lemma {:induction false} ShortCircuitAgrees(v: Value)
    ensures ShortCircuit(v) <==> TypeOf(v) != MISSING && TypeOf(v) != NULL && !Truth(v)
    ensures ShortCircuit(v) <==> AndOf([v]) == Bool(false)
    ensures forall b: bool :: ShortCircuit(Bool(b)) <==> !b
  {
    if ShortCircuit(v) {
      assert ShortCircuit([v][0]);
    }
  }

  /** The AND is false exactly when some operand short-circuits, whatever
      MISSING or NULL operands stand before or after it. */
  lemma FalseIffShortCircuit(operands: seq<Value>)
    ensures AndOf(operands) == Bool(false) <==> SomeShortCircuit(operands)
    ensures AndOf(operands).Bool? || AndOf(operands) == Missing || AndOf(operands) == Null
  {
  }

  /** With no short-circuit: MISSING if some operand is MISSING, else NULL
      if some operand is NULL, else TRUE; in particular AND() is TRUE. */
  lemma Precedence(operands: seq<Value>)
    requires !SomeShortCircuit(operands)
    ensures SomeOfType(operands, MISSING) ==> AndOf(operands) == Missing
    ensures !SomeOfType(operands, MISSING) && SomeOfType(operands, NULL) ==> AndOf(operands) == Null
    ensures !SomeOfType(operands, MISSING) && !SomeOfType(operands, NULL) ==> AndOf(operands) == Bool(true)
    ensures AndOf([]) == Bool(true)
  {
  }

  /** The truth table of two operands. */
  lemma TruthTable()
    ensures AndOf([Bool(true), Bool(true)]) == Bool(true)
    ensures AndOf([Bool(true), Bool(false)]) == Bool(false)
    ensures AndOf([Missing, Bool(true)]) == Missing
    ensures AndOf([Null, Bool(true)]) == Null
    ensures AndOf([Missing, Null]) == Missing
    ensures AndOf([Bool(false), Missing]) == Bool(false)
  {
    assert ShortCircuit([Bool(true), Bool(false)][1]);
    assert TypeOf([Missing, Bool(true)][0]) == MISSING;
    assert TypeOf([Null, Bool(true)][0]) == NULL;
    assert TypeOf([Missing, Null][0]) == MISSING;
    assert ShortCircuit([Bool(false), Missing][0]);
  }

  /** The result does not depend on the order of the operands. */
  lemma OrderIndependent(a: seq<Value>, b: seq<Value>)
    requires multiset(a) == multiset(b)
    ensures AndOf(a) == AndOf(b)
  {
    forall v | v in a ensures v in b {
      assert v in multiset(a);
    }
    forall v | v in b ensures v in a {
      assert v in multiset(b);
    }
    SameMembersSameAnd(a, b);
  }

  lemma SameMembersSameAnd(a: seq<Value>, b: seq<Value>)
    requires forall v :: v in a <==> v in b
    ensures AndOf(a) == AndOf(b)
  {
    if SomeShortCircuit(a) {
      var i :| 0 <= i < |a| && ShortCircuit(a[i]);
      assert a[i] in b;
    }
    if SomeShortCircuit(b) {
      var i :| 0 <= i < |b| && ShortCircuit(b[i]);
      assert b[i] in a;
    }
    if SomeOfType(a, MISSING) {
      var i :| 0 <= i < |a| && TypeOf(a[i]) == MISSING;
      assert a[i] in b;
    }
    if SomeOfType(b, MISSING) {
      var i :| 0 <= i < |b| && TypeOf(b[i]) == MISSING;
      assert b[i] in a;
    }
    if SomeOfType(a, NULL) {
      var i :| 0 <= i < |a| && TypeOf(a[i]) == NULL;
      assert a[i] in b;
    }
    if SomeOfType(b, NULL) {
      var i :| 0 <= i < |b| && TypeOf(b[i]) == NULL;
      assert b[i] in a;
    }
  }

  /** A reference definition: each operand has one of four logical
      outcomes, ordered FALSE < MISSING < NULL < TRUE, and the AND of a
      list is the least outcome of its operands. */
  datatype Outcome = IsFalse | IsMissing | IsNull | IsTrue

  function Classify(v: Value): Outcome {
    if ShortCircuit(v) then IsFalse
    else if TypeOf(v) == MISSING then IsMissing
    else if TypeOf(v) == NULL then IsNull
    else IsTrue
  }

  function Least(x: Outcome, y: Outcome): Outcome {
    if x.IsFalse? || y.IsFalse? then IsFalse
    else if x.IsMissing? || y.IsMissing? then IsMissing
    else if x.IsNull? || y.IsNull? then IsNull
    else IsTrue
  }

  function Fold(operands: seq<Value>): Outcome {
    if operands == [] then IsTrue else Least(Classify(operands[0]), Fold(operands[1..]))
  }

  function AsValue(o: Outcome): Value {
    match o
    case IsFalse => Bool(false)
    case IsMissing => Missing
    case IsNull => Null
    case IsTrue => Bool(true)
  }

  /** The existence tests split over the first operand. */
  lemma SplitFirst(operands: seq<Value>)
    requires operands != []
    ensures SomeShortCircuit(operands) <==> ShortCircuit(operands[0]) || SomeShortCircuit(operands[1..])
    ensures forall t :: SomeOfType(operands, t) <==> TypeOf(operands[0]) == t || SomeOfType(operands[1..], t)
  {
    var rest := operands[1..];
    if SomeShortCircuit(operands) && !ShortCircuit(operands[0]) {
      var i :| 0 <= i < |operands| && ShortCircuit(operands[i]);
      assert ShortCircuit(rest[i - 1]);
    }
    if SomeShortCircuit(rest) {
      var i :| 0 <= i < |rest| && ShortCircuit(rest[i]);
      assert ShortCircuit(operands[i + 1]);
    }
    forall t ensures SomeOfType(operands, t) <==> TypeOf(operands[0]) == t || SomeOfType(rest, t) {
      if SomeOfType(operands, t) && TypeOf(operands[0]) != t {
        var i :| 0 <= i < |operands| && TypeOf(operands[i]) == t;
        assert TypeOf(rest[i - 1]) == t;
      }
      if SomeOfType(rest, t) {
        var i :| 0 <= i < |rest| && TypeOf(rest[i]) == t;
        assert TypeOf(operands[i + 1]) == t;
      }
    }
  }

  /** AND is the least of the operands' outcomes, as `Fold` computes it
      (nested to the right, with TRUE for the empty list). */
  lemma {:induction false} AndIsLeastOutcome(operands: seq<Value>)
    ensures AndOf(operands) == AsValue(Fold(operands))
  {
    if operands != [] {
      AndIsLeastOutcome(operands[1..]);
      SplitFirst(operands);
    }
  }
}
