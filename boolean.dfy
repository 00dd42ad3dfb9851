/** The boolean variant of the value model. Each operation takes the
    receiver `b` (the Go `boolValue`) as its first argument; since the
    receiver is an immutable value, no operation can change it. */
module BooleanValue {
  import opened Common
  import opened Values

  newtype byte = x: int | 0 <= x < 256

  /** The bytes of the JSON literals `true` and `false` (ASCII). */
  const TRUE_BYTES: seq<byte> := [0x74, 0x72, 0x75, 0x65]
  const FALSE_BYTES: seq<byte> := [0x66, 0x61, 0x6c, 0x73, 0x65]

  /** Reads bytes as ASCII text. */
  function Text(bytes: seq<byte>): (s: string)
    ensures |s| == |bytes|
    ensures forall i :: 0 <= i < |bytes| ==> s[i] as int == bytes[i] as int
  {
    if bytes == [] then "" else [bytes[0] as int as char] + Text(bytes[1..])
  }

  /** Reads a JSON boolean literal, if the bytes are one. */
  function ParseLiteral(bytes: seq<byte>): (r: Option<bool>)
    ensures r == Some(true) <==> Text(bytes) == "true"
    ensures r == Some(false) <==> Text(bytes) == "false"
  {
    var s := Text(bytes);
    if s == "true" then Some(true) else if s == "false" then Some(false) else None
  }

  /** `MarshalJSON`: the JSON literal of the boolean; it never fails. */
  function MarshalJSON(b: bool): (r: Result<seq<byte>>)
    ensures r.Ok?
    ensures Text(r.value) == if b then "true" else "false"
  {
    if b then Ok(TRUE_BYTES) else Ok(FALSE_BYTES)
  }

  /** Reading back what `MarshalJSON` wrote gives the boolean. */
  lemma MarshalRoundTrip(b: bool)
    ensures ParseLiteral(MarshalJSON(b).value) == Some(b)
  {
  }

  /** `Type`: always BOOLEAN, the tag of a boolean value. */
  function Type(b: bool): (t: Values.Type)
    ensures t == BOOLEAN
    ensures t == TypeOf(Bool(b))
  {
    BOOLEAN
  }

  /** `Truth`: the underlying boolean, as the value model defines truth. */
  function Truth(b: bool): (r: bool)
    ensures r == b
    ensures r == Values.Truth(Bool(b))
  {
    b
  }

  /** `Equals`: true exactly when the other value, with its wrappers
      removed, is the same boolean. */
  function Equals(b: bool, other: Value): (r: bool)
    ensures r <==> Resolve(other) == Bool(b)
  {
    match other
    case Bool(o) => b == o
    case Parsed(w) => Equals(b, w)
    case Annotated(w) => Equals(b, w)
    case _ => false
  }

  /** `Collate`: false before true among booleans; against any other
      type, the difference of the type tags. */
  function Collate(b: bool, other: Value): (c: int)
    ensures Resolve(other).Bool? ==>
      var o := Resolve(other).b;
      (c == 0 <==> b == o) && (c == -1 <==> !b && o) && (c == 1 <==> b && !o)
    ensures !Resolve(other).Bool? ==> c == Rank(BOOLEAN) - Rank(TypeOf(other))
  {
    match other
    case Bool(o) => if b == o then 0 else if !b then -1 else 1
    case Parsed(w) => Collate(b, w)
    case Annotated(w) => Collate(b, w)
    case _ => Rank(BOOLEAN) - Rank(TypeOf(other))
  }

  /** Collation and equality agree: zero exactly for equal values. */
  lemma {:induction false} CollateZeroIffEquals(b: bool, other: Value)
    ensures Collate(b, other) == 0 <==> Equals(b, other)
  {
    if !Resolve(other).Bool? {
      ResolvePreserves(other);
    }
  }

  /** Among booleans the collation is antisymmetric ... */
  lemma CollateAntisymmetric(a: bool, b: bool)
    ensures Collate(a, Bool(b)) == -Collate(b, Bool(a))
    ensures -1 <= Collate(a, Bool(b)) <= 1
  {
  }

  /** ... and transitive, so it is a total order on booleans. */
  lemma CollateTransitive(a: bool, b: bool, c: bool)
    requires Collate(a, Bool(b)) <= 0 && Collate(b, Bool(c)) <= 0
    ensures Collate(a, Bool(c)) <= 0
  {
  }

  /** Against a value of another type, the sign of the collation follows
      the tag order: booleans sort after MISSING and NULL and before
      NUMBER, STRING, ARRAY and OBJECT. */
  lemma {:induction false} CollateFollowsTypeOrder(b: bool, other: Value)
    requires TypeOf(other) != BOOLEAN
    ensures Collate(b, other) == Rank(BOOLEAN) - Rank(TypeOf(other))
    ensures Collate(b, other) > 0 <==> Rank(TypeOf(other)) < Rank(BOOLEAN)
    ensures Collate(b, other) != 0
  {
    ResolvePreserves(other);
  }

  /** `Copy` and `CopyForUpdate`: the receiver itself, unwrapped, which
      therefore equals and collates equal to the receiver. */
  function Copy(b: bool): (v: Value)
    ensures v == Bool(b)
    ensures Equals(b, v) && Collate(b, v) == 0
  {
    Bool(b)
  }

  function CopyForUpdate(b: bool): (v: Value)
    ensures v == Bool(b)
    ensures Equals(b, v) && Collate(b, v) == 0
  {
    Bool(b)
  }

  /** What a navigation step returns: a value and whether it was found. */
  datatype Lookup = Lookup(value: Value, found: bool)

  /** `Field`, `Index`, `Slice`, `SliceTail`: a boolean has no parts, so
      every lookup yields NULL, not found. */
  function Field(b: bool, field: string): (r: Lookup)
    ensures r.value == Null && !r.found
  {
    Lookup(Null, false)
  }

  function Index(b: bool, index: int): (r: Lookup)
    ensures r.value == Null && !r.found
  {
    Lookup(Null, false)
  }

  function Slice(b: bool, start: int, end: int): (r: Lookup)
    ensures r.value == Null && !r.found
  {
    Lookup(Null, false)
  }

  function SliceTail(b: bool, start: int): (r: Lookup)
    ensures r.value == Null && !r.found
  {
    Lookup(Null, false)
  }

  /** `SetField`, `UnsetField`, `SetIndex`: always an Unsettable error
      naming the field or index that was attempted. */
  function SetField(b: bool, field: string, val: Value): (err: Option<Error>)
    ensures err == Some(Unsettable(FieldKey(field)))
  {
    Some(Unsettable(FieldKey(field)))
  }

  function UnsetField(b: bool, field: string): (err: Option<Error>)
    ensures err == Some(Unsettable(FieldKey(field)))
  {
    Some(Unsettable(FieldKey(field)))
  }

  function SetIndex(b: bool, index: int, val: Value): (err: Option<Error>)
    ensures err == Some(Unsettable(IndexKey(index)))
  {
    Some(Unsettable(IndexKey(index)))
  }

  /** `Descendants`: a boolean adds nothing to the buffer. */
  function Descendants<T>(b: bool, buffer: seq<T>): (r: seq<T>)
    ensures r == buffer
  {
    buffer
  }

  /** `Fields`: a boolean has no fields (a nil map). */
  function Fields(b: bool): (r: Option<map<string, Value>>)
    ensures r.None?
  {
    None
  }
}
