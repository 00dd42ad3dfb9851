/** The dynamically typed value model: the type tags with their total
    order, the concrete variants, and the two wrapper variants that defer
    to an inner value. */
module Values {

  /** Type tags, in the order the value package declares them. */
  datatype Type = MISSING | NULL | BOOLEAN | NUMBER | STRING | ARRAY | OBJECT

  /** The integer a tag stands for: its position in the declaration, from 0.
      Tags are compared and subtracted as these integers. */
  function Rank(t: Type): (n: int)
    ensures 0 <= n < 7
  {
    match t
    case MISSING => 0
    case NULL => 1
    case BOOLEAN => 2
    case NUMBER => 3
    case STRING => 4
    case ARRAY => 5
    case OBJECT => 6
  }

  datatype Value =
    | Missing
    | Null
    | Bool(b: bool)
    | Number(n: int)
    | Str(s: string)
    | Array(elems: seq<Value>)
    | Object(fields: map<string, Value>)
    /** A lazily parsed value; `parse()` yields `raw`. */
    | Parsed(raw: Value)
    /** A value carrying annotations; it forwards to `inner`. */
    | Annotated(inner: Value)

  predicate IsWrapper(v: Value) {
    v.Parsed? || v.Annotated?
  }

  /** The concrete value a wrapper forwards to (every wrapper layer removed). */
  function Resolve(v: Value): (r: Value)
    ensures !IsWrapper(r)
    ensures !IsWrapper(v) ==> r == v
  {
    match v
    case Parsed(w) => Resolve(w)
    case Annotated(w) => Resolve(w)
    case _ => v
  }

  /** `Type()`: a wrapper reports the type of the value it forwards to. */
  function TypeOf(v: Value): Type {
    match v
    case Missing => MISSING
    case Null => NULL
    case Bool(_) => BOOLEAN
    case Number(_) => NUMBER
    case Str(_) => STRING
    case Array(_) => ARRAY
    case Object(_) => OBJECT
    case Parsed(w) => TypeOf(w)
    case Annotated(w) => TypeOf(w)
  }

  /** `Truth()`: a boolean is its own truth value; the other variants follow
      the value package's convention (non-zero, non-empty). */
  function Truth(v: Value): bool {
    match v
    case Missing => false
    case Null => false
    case Bool(b) => b
    case Number(n) => n != 0
    case Str(s) => |s| > 0
    case Array(e) => |e| > 0
    case Object(f) => |f| > 0
    case Parsed(w) => Truth(w)
    case Annotated(w) => Truth(w)
  }

  /** Unwrapping changes neither the type nor the truth of a value. */
  lemma {:induction false} ResolvePreserves(v: Value)
    ensures TypeOf(Resolve(v)) == TypeOf(v)
    ensures Truth(Resolve(v)) == Truth(v)
  {
    match v
    case Parsed(w) => ResolvePreserves(w);
    case Annotated(w) => ResolvePreserves(w);
    case _ =>
  }
}
