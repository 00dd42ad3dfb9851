# Query engine core: boolean values, AND, two plan operators and the sub-select check

This project models five pieces of a N1QL-style query engine.

- **The boolean value** (`value/boolean.go`, module `BooleanValue`). Its JSON form, type tag, truth,
  equality and collation against any other value, the pass-through of the two wrapper values
  (lazily parsed and annotated), and the navigation and update operations that a scalar refuses.
  The surrounding value model (type tags in their declared order, the concrete variants and
  the wrappers) is in module `Values`.
- **The n-ary AND** of three-valued logic (`algebra/logic_and.go`, module `LogicAnd`).
  `Evaluate` is the one-pass loop of `evaluate`. It is proved equal to a declarative
  definition `AndOf`, and `AndOf` is proved equal to a second reference definition: a fold of
  per-operand outcomes ordered FALSE < MISSING < NULL < TRUE.
- **The Fetch plan operator** (`plan/fetch.go`, module `PlanFetch`, class `Fetch`). Its JSON
  envelope, and the decode-and-rebuild of `UnmarshalJSON` with the parser and the keyspace
  lookup.
- **The AnsiJoin plan operator** (`plan/join_ansi.go`, module `PlanAnsiJoin`, class `AnsiJoin`).
  Its envelope (`MarshalBase` with its optional callback), and `UnmarshalJSON`, which reparses
  the ON clause and rebuilds the child through the operator registry.
- **The semantic checker's visit of a sub-select** (`semantics/semantics_node_select.go`,
  module `Semantics`, class `SemChecker`). It saves the flag mask, clears the WHERE and ON
  flags, visits WITH, FROM, LET, WHERE (with its flag set), GROUP BY and the projection in
  that order, stops at the first error, and restores the mask on every return path.

The state-changing parts are classes:

- `Fetch` and `AnsiJoin` with the Go struct's fields.
- `SemChecker` with its `semFlag` mask and a ghost `trace` of the clause visits made.

Each method is specified by a pure function of the inputs and the old state:

- `FetchEnvelope`, `PlanFetch.Unmarshal`.
- `JoinEnvelope`, `PlanAnsiJoin.Unmarshal`.
- `Plan`, `Perform`, `Outcome`.

The properties are proved about those functions: round trips, error paths, visiting order,
the flags each clause sees, and where the check stops.

Collaborators whose code is not part of this model are parameters:

- The expression parser and stringer.
- `datastore.GetKeyspace`.
- `MakeOperator` and the child operator's own `MarshalJSON`.
  All of the above are fields of `PlanCommon.Env`.
- The clause visitors (`Semantics.Visitors`).

Each is a function value, so the model says nothing about what they compute beyond what
each lemma's `requires` assumes. `encoding/json` is modelled at the level of decoded JSON
trees (`PlanCommon.Json`). `DecodeObject`, `StringField`, `BoolField`, `RawField` and
`OperatorName` give Go's struct-decoding rules: an absent or `null` member leaves the
zero value, and a member of the wrong type is an error.

Where the behaviour of the code differs from a plain reading of its design, the model
follows the code:

- `Fetch.UnmarshalJSON` assigns the rebuilt term before it looks the keyspace up
  (`plan/fetch.go:93-98`). A failed lookup therefore returns its error with the new term
  already in place. It is not an all-or-nothing update. The keyspace field receives
  whatever the lookup returned next to its error (`plan/fetch.go:96`). Under the nil-on-error
  assumption below, that is nil.
- `AnsiJoin.UnmarshalJSON` assigns the fields one after the other (`plan/join_ansi.go:98-121`):
  - A non-empty ON clause that fails to parse overwrites the ON clause with the parser's
    value (`plan/join_ansi.go:99`). Under the nil-on-error assumption, that is nil.
  - An error reading the child's operator name comes after `outer` and `alias` are assigned.
  - A registry failure overwrites the child with the registry's value
    (`plan/join_ansi.go:118`). Under the nil-on-error assumption, that is nil.
- `Fetch.UnmarshalJSON` parses the keyspace *name* (the `keyspace` member) as the keys
  expression (`plan/fetch.go:88-94`). `PlanFetch.RoundTrip` states this: the rebuilt term's
  keys are the parsed keyspace name, not the original keys.

## Model

| member | source | states |
|---|---|---|
| BooleanValue.MarshalJSON | value/boolean.go:19-28 | never fails; the bytes spell `true` for true and `false` for false |
| BooleanValue.MarshalRoundTrip | value/boolean.go:19-28 | reading the marshalled bytes back as a JSON literal gives the original boolean |
| BooleanValue.Type | value/boolean.go:30 | the tag is BOOLEAN, the tag the value model gives a boolean |
| BooleanValue.Truth | value/boolean.go:69-71 | the truth of a boolean is the boolean, in agreement with the value model's truth |
| BooleanValue.Equals | value/boolean.go:36-47 | true exactly when the other value, with every parsed or annotated wrapper removed, is the same boolean |
| BooleanValue.Collate | value/boolean.go:49-67 | against a (wrapped) boolean: 0 iff equal, -1 iff false vs true, 1 iff true vs false; against any other type: the difference of the type tags |
| BooleanValue.CollateZeroIffEquals | value/boolean.go:36-67 | collation is zero exactly when Equals holds, for every other value |
| BooleanValue.CollateAntisymmetric | value/boolean.go:51-58 | among booleans, swapping the operands negates the result, which lies in -1..1 |
| BooleanValue.CollateTransitive | value/boolean.go:51-58 | among booleans, "collates at or before" is transitive |
| BooleanValue.CollateFollowsTypeOrder | value/boolean.go:63-64 | against a non-boolean, the result is the tag difference, positive exactly for MISSING and NULL, never zero |
| BooleanValue.Copy | value/boolean.go:73-75 | the copy is the receiver itself (an unwrapped boolean), so it equals and collates equal to the receiver |
| BooleanValue.CopyForUpdate | value/boolean.go:77-79 | the copy is the receiver itself (an unwrapped boolean), so it equals and collates equal to the receiver |
| BooleanValue.Field | value/boolean.go:81-83 | a field lookup yields NULL, not found |
| BooleanValue.SetField | value/boolean.go:85-87 | always an Unsettable error naming the field |
| BooleanValue.UnsetField | value/boolean.go:89-91 | always an Unsettable error naming the field |
| BooleanValue.Index | value/boolean.go:93-95 | an index lookup yields NULL, not found |
| BooleanValue.SetIndex | value/boolean.go:97-99 | always an Unsettable error naming the index |
| BooleanValue.Slice | value/boolean.go:101-103 | a slice yields NULL, not found |
| BooleanValue.SliceTail | value/boolean.go:105-107 | a tail slice yields NULL, not found |
| BooleanValue.Descendants | value/boolean.go:109-111 | the buffer comes back unchanged |
| BooleanValue.Fields | value/boolean.go:113-115 | there is no field map (nil) |
| LogicAnd.Evaluate | algebra/logic_and.go:28-50 | never reports an error; the result is AndOf: FALSE if some operand short-circuits, else MISSING if one is MISSING, else NULL if one is NULL, else TRUE |
| LogicAnd.ShortCircuitAgrees | algebra/logic_and.go:52-54 | an operand short-circuits iff it is neither MISSING nor NULL and not truthy, iff it alone makes the AND false; among booleans only FALSE does |
| LogicAnd.FalseIffShortCircuit | algebra/logic_and.go:31-35 | the AND is FALSE exactly when some operand short-circuits, wherever MISSING or NULL operands stand; the result is always a boolean, MISSING or NULL |
| LogicAnd.Precedence | algebra/logic_and.go:43-49 | with no short-circuit, MISSING wins over NULL and NULL over TRUE; the AND of no operands is TRUE |
| LogicAnd.TruthTable | algebra/logic_and.go:28-50 | the two-operand cases: T∧T, T∧F, MISSING∧T, NULL∧T, MISSING∧NULL, F∧MISSING |
| LogicAnd.OrderIndependent | algebra/logic_and.go:28-50 | operand lists that are permutations of each other give the same AND |
| LogicAnd.SameMembersSameAnd | algebra/logic_and.go:28-50 | lists with the same members, whatever their multiplicities, give the same AND |
| LogicAnd.AndIsLeastOutcome | algebra/logic_and.go:28-50 | the AND equals the least of the operands' outcomes under FALSE < MISSING < NULL < TRUE, folded (nested to the right) with TRUE for no operands |
| PlanCommon.DecodeObject | plan/fetch.go:73-76 | an object decodes to its members, null to no members, anything else is a type-mismatch error |
| PlanCommon.StringField | plan/fetch.go:65-76 | a string member gives its text; an absent or null member gives ""; any other JSON type is an error naming the member |
| PlanCommon.BoolField | plan/join_ansi.go:85-96 | a boolean member gives its value; an absent or null member gives false; any other JSON type is an error naming the member |
| PlanCommon.RawField | plan/join_ansi.go:90 | the raw member is present exactly when the member is, and is the member's JSON |
| PlanCommon.OperatorName | plan/join_ansi.go:108-116 | no input at all is an end-of-input error; null gives the empty name; an object gives its `#operator` string; any other JSON is a type-mismatch error |
| PlanFetch.FetchEnvelope | plan/fetch.go:51-62 | always `#operator` "Fetch", the namespace and the keyspace; `projection` present iff the term has one (as printed); `as` present iff the alias is non-empty; no other members |
| PlanFetch.Fetch.constructor | plan/fetch.go:28-33 | the new Fetch holds the given keyspace and term |
| PlanFetch.Fetch.New | plan/fetch.go:39-41 | the new Fetch holds no keyspace and no term |
| PlanFetch.Fetch.Keyspace | plan/fetch.go:43-45 | returns the keyspace field as the constructor or UnmarshalJSON left it |
| PlanFetch.Fetch.Term | plan/fetch.go:47-49 | returns the term field as the constructor or UnmarshalJSON left it |
| PlanFetch.Fetch.MarshalJSON | plan/fetch.go:51-62 | never fails; the result is the term's envelope |
| PlanFetch.Fetch.UnmarshalJSON | plan/fetch.go:64-99 | a decode, parse or non-path error is returned with both fields unchanged; otherwise the term is the rebuilt one, and the keyspace and the returned error are those of the lookup |
| PlanFetch.EnvelopeDecodes | plan/fetch.go:51-76 | a marshalled Fetch decodes to its printed projection (or "" without one), namespace, keyspace and alias |
| PlanFetch.ScalarsRoundTrip | plan/fetch.go:93-96 | whenever unmarshalling a marshalled Fetch rebuilds a term, namespace, keyspace name and alias are the originals, and the lookup is made under those names |
| PlanFetch.RoundTrip | plan/fetch.go:51-99 | with a path projection that reparses as itself and a keyspace name that parses, the round trip rebuilds the term exactly, except that its keys are the parsed keyspace name |
| PlanFetch.UnmarshalOutcomes | plan/fetch.go:73-96 | decoder errors and both parse errors (projection, then keys) are passed on unchanged; a non-path projection gives the "cannot resolve path expression" error; a term is rebuilt exactly when all of these succeed, and it holds a path projection, the parsed keys and exactly the decoded names |
| PlanAnsiJoin.JoinEnvelope | plan/join_ansi.go:67-82 | always `#operator` "AnsiJoin", the alias, the printed ON clause and the child (null when nil); `outer` present iff the join is outer, and then true; no other members |
| PlanAnsiJoin.AnsiJoin.constructor | plan/join_ansi.go:28-37 | outer, alias and ON clause come from the algebra join; the child is the one given |
| PlanAnsiJoin.AnsiJoin.New | plan/join_ansi.go:43-45 | the new AnsiJoin has every field at its zero value |
| PlanAnsiJoin.AnsiJoin.Outer | plan/join_ansi.go:47-49 | returns the outer flag of the join's current state |
| PlanAnsiJoin.AnsiJoin.Alias | plan/join_ansi.go:51-53 | returns the alias of the join's current state |
| PlanAnsiJoin.AnsiJoin.Onclause | plan/join_ansi.go:55-57 | returns the ON clause of the join's current state |
| PlanAnsiJoin.AnsiJoin.Child | plan/join_ansi.go:59-61 | returns the child of the join's current state |
| PlanAnsiJoin.AnsiJoin.MarshalBase | plan/join_ansi.go:67-82 | without a callback, the result is the join's envelope; with one, the callback receives the complete base envelope and its result is returned |
| PlanAnsiJoin.AnsiJoin.MarshalJSON | plan/join_ansi.go:63-65 | never fails; the result is the base envelope with no callback |
| PlanAnsiJoin.AnsiJoin.UnmarshalJSON | plan/join_ansi.go:84-124 | the new fields and the returned error are exactly those of `Unmarshal` on the old fields: the step-by-step assignment, including the partial updates before each error |
| PlanAnsiJoin.EnvelopeDecodes | plan/join_ansi.go:67-96 | a marshalled join decodes to its printed ON clause, outer flag, alias and child envelope |
| PlanAnsiJoin.ScalarsRoundTrip | plan/join_ansi.go:105-106 | outer and alias survive a round trip whenever the printed ON clause is empty or parses; an omitted `outer` reads back as false |
| PlanAnsiJoin.RoundTrip | plan/join_ansi.go:63-124 | when the ON clause reparses as itself and the registry rebuilds the child from its envelope, the round trip restores every field with no error, whatever the receiver held |
| PlanAnsiJoin.OnClauseHandling | plan/join_ansi.go:98-103 | an empty ON clause is not parsed and keeps the receiver's; a failed parse returns the parser's error with a nil ON clause, before anything else is assigned |
| PlanAnsiJoin.ChildFromRegistry | plan/join_ansi.go:105-123 | past the ON clause, outer and alias are the decoded ones; a name error leaves the old child; otherwise the child and the error are the registry's for the envelope's `#operator` |
| PlanAnsiJoin.OuterJoinOverFetch | plan/join_ansi.go:84-124 | an envelope with ON clause `a.id = b.aid`, `outer` true and a Fetch child yields an outer join with the parsed clause and the registry-built Fetch, and no error |
| Semantics.PerformAppend | semantics/semantics_node_select.go:24-59 | the visits of two step lists in sequence: the second list is reached exactly when every visit of the first succeeded |
| Semantics.ClearedFlags | semantics/semantics_node_select.go:23-45 | clearing WHERE and ON turns both bits off and keeps every other bit; setting WHERE on top turns only WHERE on |
| Semantics.ClauseOrder | semantics/semantics_node_select.go:24-57 | the clauses are visited in the order WITH, FROM, LET, WHERE, GROUP BY, projection, each at most once, and the projection is always last |
| Semantics.ClauseFlags | semantics/semantics_node_select.go:23-57 | WHERE is visited with the WHERE bit set and ON clear; every other clause with both clear and the caller's other bits |
| Semantics.FirstErrorStops | semantics/semantics_node_select.go:24-59 | the visits are the steps in order up to the first failure: every visit but the last succeeded, and the check ends early only at a failure |
| Semantics.SubselectOutcome | semantics/semantics_node_select.go:20-60 | the returned error is the last visit's; no error means every clause was visited, the projection last; a result is returned only when FROM failed |
| Semantics.UnsetAfterSet | semantics/semantics_node_select.go:43-45 | unsetting a bit just set restores a mask that did not have it |
| Semantics.SemChecker.SetSemFlag | semantics/semantics_node_select.go:43 | the mask gains the given bits |
| Semantics.SemChecker.UnsetSemFlag | semantics/semantics_node_select.go:23 | the mask loses the given bits |
| Semantics.SemChecker.VisitStage | semantics/semantics_node_select.go:24-57 | a missing clause is skipped; a present one is visited under the current mask and recorded; a failure ends the check with that clause's outcome |
| Semantics.SemChecker.VisitSelectTerm | semantics/semantics_node_select.go:16-18 | the result is the inner select's acceptance by this checker under its current mask |
| Semantics.SemChecker.VisitSubselect | semantics/semantics_node_select.go:20-60 | the mask is restored on every path; the visits made are the plan's up to the first failure; the result is that run's outcome |
| Semantics.SemChecker.CheckClauses | semantics/semantics_node_select.go:23-59 | starting from cleared WHERE and ON, performs the whole plan and returns its outcome |
| Semantics.SemChecker.CheckSources | semantics/semantics_node_select.go:24-40 | WITH, FROM and LET in order; a failure returns FROM's result only for FROM, and nil otherwise |
| Semantics.SemChecker.CheckFilters | semantics/semantics_node_select.go:42-59 | WHERE under its flag (unset again whether it fails or not), then GROUP BY and the projection; the mask is unchanged |

## Left out

- Byte-level JSON encoding and decoding: envelopes are JSON trees. Go's case-insensitive
  member matching and its exact error messages are not modelled. Neither is the order in
  which `encoding/json` reports the first of several mistyped members. The model reports
  them in struct-field order.
- `MarshalJSON` of the plan operators yields the envelope map rather than its bytes. A
  failure of the child's own marshaller inside `json.Marshal` is not modelled.
- The parser, the expression stringer, `datastore.GetKeyspace`, `MakeOperator`, the clause
  visitors and `setSemFlag`/`unsetSemFlag` are not part of this model beyond their
  signatures. The first five are function parameters, and the last two are plain bit
  operations.
- The parser, `datastore.GetKeyspace` and `MakeOperator` are assumed to return nil together
  with any error, as is the Go convention. They are typed as results that carry either a
  value or an error, never both. Values that one of them returns alongside an error are
  therefore not modelled. Where the code stores such a value, the model stores nil (`None`):
  the ON clause, the keyspace and the child.
- The clause visitors receive the checker and could change its mask. The model assumes they
  leave it as it is, and gives them the mask as an argument.
- The values of `_SEM_WHERE` and `_SEM_ON` are not part of this model. Two distinct
  single-bit masks of a 32-bit mask stand in for them: the values 4 and 8, which are bits 2
  and 3. The flag lemmas (`ClearedFlags`, `ClauseFlags`) are proved for these two constants
  only.
- `Accept`, `Actual` and the `readonly` embedding: visitor dispatch and conversion to Go
  values carry no logic here.
- `NewValue`, `FALSE_VALUE`, `TRUE_VALUE` and the value package's other variants: numbers are
  unbounded integers. The truth of non-boolean values follows the value package's usual
  convention (non-zero, non-empty). That package's source is not part of this model.
- PlanFetch.Fetch.MarshalJSON: requires a term, and PlanAnsiJoin.AnsiJoin.MarshalBase
  requires an ON clause, because the code dereferences them.
- PlanAnsiJoin.AnsiJoin.MarshalBase: Go's callback mutates the map in place. The model
  passes the envelope to a function and returns that function's result.
- PlanFetch.RoundTrip: states the round trip only for a path projection that reparses as
  itself. A Fetch without a projection marshals no `projection` member, and unmarshalling
  then parses the empty string. What that gives depends on the parser, which is not part of
  this model.
