/** The semantics checker's visit of a sub-select: it saves the clause
    flags, clears the WHERE and ON flags, checks the clauses in a fixed
    order, stops at the first error, and restores the flags on every
    way out. */
module Semantics {
  import opened Common

  /** The checker's bitmask of clause flags. */
  type Flags = bv32

  /** The flag set while a WHERE clause is checked, and the one set while
      an ON clause is checked (two distinct bits). */
  const SEM_WHERE: Flags := 4
  const SEM_ON: Flags := 8

  /** `setSemFlag` and `unsetSemFlag`. */
  function SetFlags(mask: Flags, bits: Flags): Flags {
    mask | bits
  }

  function UnsetFlags(mask: Flags, bits: Flags): Flags {
    mask & !bits
  }

  /** A clause of a sub-select, or a select statement; the core does not
      look inside. */
  datatype Clause = Clause(id: nat)

  /** A non-error result of a visit; the core does not look inside. */
  datatype Opaque = Opaque(id: nat)

  datatype Subselect = Subselect(
    withClause: Option<Clause>,
    fromTerm: Option<Clause>,
    letClause: Option<Clause>,
    whereExpr: Option<Clause>,
    groupClause: Option<Clause>,
    projection: Clause)

  datatype SelectTerm = SelectTerm(select: Clause)

  datatype ClauseKind = With | From | Let | Where | Group | Projection

  /** The position of a clause in the checking order. */
  function Order(k: ClauseKind): nat {
    match k
    case With => 0
    case From => 1
    case Let => 2
    case Where => 3
    case Group => 4
    case Projection => 5
  }

  /** What a visit gives back: Go's `(interface{}, error)` pair. */
  datatype Visited = Visited(result: Option<Opaque>, err: Option<Error>)

  /** The clause visitors, which receive the checker and so see its
      current flags: `MapExpressions` of WITH, LET, GROUP BY and the
      projection, `Accept` of FROM, `Map` of WHERE, and `Accept` of a
      select statement. */
  datatype Visitors = Visitors(
    visit: (ClauseKind, Clause, Flags) -> Visited,
    acceptSelect: (Clause, Flags) -> Visited)

  /** One clause visit as it happened: which clause, under which flags,
      and what it returned. */
  datatype Visit = Visit(kind: ClauseKind, flags: Flags, result: Option<Opaque>, err: Option<Error>)

  /** A clause the checker will visit, with the flags it will hold. */
  datatype Step = Step(kind: ClauseKind, clause: Clause, flags: Flags)

  function StepIf(kind: ClauseKind, c: Option<Clause>, flags: Flags): seq<Step> {
    if c.Some? then [Step(kind, c.value, flags)] else []
  }

  /** The clauses of `node` in checking order, nil ones left out, each
      with the flags in force when it is checked, starting from `mask`. */
  function Plan(node: Subselect, mask: Flags): seq<Step> {
    var cleared := UnsetFlags(mask, SEM_WHERE | SEM_ON);
    Sources(node, cleared) + Filters(node, cleared)
  }

  /** WITH, FROM and LET, all checked under the same flags. */
  function Sources(node: Subselect, flags: Flags): seq<Step> {
    StepIf(With, node.withClause, flags) + StepIf(From, node.fromTerm, flags) + StepIf(Let, node.letClause, flags)
  }

  /** WHERE under the flags with WHERE set; then GROUP BY and the
      projection, under the flags with WHERE unset again. */
  function Filters(node: Subselect, flags: Flags): seq<Step> {
    var after := if node.whereExpr.Some? then UnsetFlags(SetFlags(flags, SEM_WHERE), SEM_WHERE) else flags;
    StepIf(Where, node.whereExpr, SetFlags(flags, SEM_WHERE)) +
    StepIf(Group, node.groupClause, after) + [Step(Projection, node.projection, after)]
  }

  function VisitOf(v: Visitors, s: Step): Visit {
    var out := v.visit(s.kind, s.clause, s.flags);
    Visit(s.kind, s.flags, out.result, out.err)
  }

  /** Visits the steps in order, up to and including the first that
      fails. */
  function Perform(v: Visitors, steps: seq<Step>): seq<Visit> {
    if steps == [] then []
    else
      var x := VisitOf(v, steps[0]);
      if x.err.Some? then [x] else [x] + Perform(v, steps[1..])
  }

  /** What VisitSubselect returns after the given visits: the last
      visit's error, with FROM's result only when FROM is the one that
      failed. */
  function Outcome(visits: seq<Visit>): Visited
    requires visits != []
  {
    var last := visits[|visits| - 1];
    if last.kind == From && last.err.Some? then Visited(last.result, last.err)
    else Visited(None, last.err)
  }

  predicate AllSucceeded(visits: seq<Visit>) {
    forall i :: 0 <= i < |visits| ==> visits[i].err.None?
  }

  /** Performing two lists of steps one after the other: the second is
      reached only when every visit of the first succeeded. */
  lemma {:induction false} PerformAppend(v: Visitors, a: seq<Step>, b: seq<Step>)
    ensures AllSucceeded(Perform(v, a)) ==> Perform(v, a + b) == Perform(v, a) + Perform(v, b)
    ensures !AllSucceeded(Perform(v, a)) ==> Perform(v, a + b) == Perform(v, a)
  {
    if a != [] {
      assert (a + b)[0] == a[0];
      assert (a + b)[1..] == a[1..] + b;
      PerformAppend(v, a[1..], b);
      var x := VisitOf(v, a[0]);
      if x.err.None? {
        var tail := Perform(v, a[1..]);
        assert Perform(v, a) == [x] + tail;
        if AllSucceeded(Perform(v, a)) {
          assert forall i :: 0 <= i < |tail| ==> tail[i] == Perform(v, a)[i + 1];
          assert AllSucceeded(tail);
          calc {
            Perform(v, a + b);
            [x] + Perform(v, a[1..] + b);
            [x] + (tail + Perform(v, b));
            ([x] + tail) + Perform(v, b);
          }
        } else {
          var i :| 0 <= i < |Perform(v, a)| && Perform(v, a)[i].err.Some?;
          assert tail[i - 1].err.Some?;
        }
      } else {
        assert Perform(v, a) == [x] && Perform(v, a + b) == [x];
        assert !AllSucceeded(Perform(v, a)) by { assert Perform(v, a)[0].err.Some?; }
      }
    } else {
      assert a + b == b;
    }
  }

  /** The plan, split after the LET clause. */
  lemma PlanParts(node: Subselect, mask: Flags)
    ensures Plan(node, mask) == Sources(node, UnsetFlags(mask, SEM_WHERE | SEM_ON)) + Filters(node, UnsetFlags(mask, SEM_WHERE | SEM_ON))
  {
  }

  /** Clearing WHERE and ON leaves both bits off and every other bit as
      it was; setting WHERE on top of that turns WHERE on and leaves ON
      off. */
  lemma ClearedFlags(mask: Flags)
    ensures UnsetFlags(mask, SEM_WHERE | SEM_ON) & SEM_WHERE == 0
    ensures UnsetFlags(mask, SEM_WHERE | SEM_ON) & SEM_ON == 0
    ensures UnsetFlags(mask, SEM_WHERE | SEM_ON) & !(SEM_WHERE | SEM_ON) == mask & !(SEM_WHERE | SEM_ON)
    ensures SetFlags(UnsetFlags(mask, SEM_WHERE | SEM_ON), SEM_WHERE) & SEM_WHERE == SEM_WHERE
    ensures SetFlags(UnsetFlags(mask, SEM_WHERE | SEM_ON), SEM_WHERE) & SEM_ON == 0
  {
  }

  /** The clauses are checked in the fixed order WITH, FROM, LET, WHERE,
      GROUP BY, projection, each at most once, and the projection always
      comes last. */
  lemma ClauseOrder(node: Subselect, mask: Flags)
    ensures var plan := Plan(node, mask);
      plan != [] && plan[|plan| - 1].kind == Projection &&
      plan[|plan| - 1].clause == node.projection &&
      forall i, j :: 0 <= i < j < |plan| ==> Order(plan[i].kind) < Order(plan[j].kind)
  {
  }

  /** Every clause but WHERE is checked with the WHERE and ON bits off
      and the other bits as the caller had them; WHERE is checked with
      its bit on and ON off. */
  lemma ClauseFlags(node: Subselect, mask: Flags)
    ensures var plan := Plan(node, mask); var cleared := UnsetFlags(mask, SEM_WHERE | SEM_ON);
      forall i :: 0 <= i < |plan| ==>
        (plan[i].kind != Where ==> plan[i].flags == cleared) &&
        (plan[i].kind == Where ==> plan[i].flags == SetFlags(cleared, SEM_WHERE))
  {
    var cleared := UnsetFlags(mask, SEM_WHERE | SEM_ON);
    ClearedFlags(mask);
    UnsetAfterSet(cleared, SEM_WHERE);
    var src := Sources(node, cleared);
    var flt := Filters(node, cleared);
    assert forall i :: 0 <= i < |src| ==> src[i].flags == cleared && src[i].kind != Where;
    assert forall i :: 0 <= i < |flt| ==>
      (flt[i].kind != Where ==> flt[i].flags == cleared) &&
      (flt[i].kind == Where ==> flt[i].flags == SetFlags(cleared, SEM_WHERE));
    var plan := src + flt;
    assert forall i :: 0 <= i < |plan| ==> plan[i] == if i < |src| then src[i] else flt[i - |src|];
  }

  /** The visits made are the steps, in order, up to the first that
      fails: every visit but the last succeeded, and the check stops
      short of the end only at a failure. */
  lemma {:induction false} FirstErrorStops(v: Visitors, steps: seq<Step>)
    ensures var done := Perform(v, steps);
      |done| <= |steps| &&
      (forall i :: 0 <= i < |done| ==> done[i] == VisitOf(v, steps[i])) &&
      (forall i :: 0 <= i < |done| - 1 ==> done[i].err.None?) &&
      (|done| < |steps| ==> done != [] && done[|done| - 1].err.Some?) &&
      (steps != [] ==> done != [])
  {
    if steps != [] {
      FirstErrorStops(v, steps[1..]);
      var x := VisitOf(v, steps[0]);
      if x.err.None? {
        var tail := Perform(v, steps[1..]);
        assert Perform(v, steps) == [x] + tail;
        assert forall i :: 0 < i < |tail| + 1 ==> ([x] + tail)[i] == tail[i - 1];
      }
    }
  }

  /** What a sub-select check returns: the error of the clause it
      stopped at (nil when every clause, the projection last, passed);
      a non-nil result only when FROM is the clause that failed. */
  lemma SubselectOutcome(v: Visitors, node: Subselect, mask: Flags)
    ensures var done := Perform(v, Plan(node, mask)); var out := Outcome(done);
      done != [] && out.err == done[|done| - 1].err &&
      (out.err.None? ==> |done| == |Plan(node, mask)| && done[|done| - 1].kind == Projection) &&
      (out.result.Some? ==> done[|done| - 1].kind == From && out.err.Some?)
  {
    FirstErrorStops(v, Plan(node, mask));
    ClauseOrder(node, mask);
    var plan := Plan(node, mask);
    var done := Perform(v, plan);
    if Outcome(done).err.None? {
      assert done[|done| - 1] == VisitOf(v, plan[|done| - 1]);
    }
  }

  /** Unsetting a bit just set gives back a mask that did not have it. */
  lemma UnsetAfterSet(mask: Flags, bit: Flags)
    requires mask & bit == 0
    ensures UnsetFlags(SetFlags(mask, bit), bit) == mask
  {
  }

  /** One stage of the check: after the visits `done`, performing `x`
      either fails (and the check ends there) or succeeds (and the check
      goes on with `rest`). */
  lemma Advance(v: Visitors, total: seq<Visit>, done: seq<Visit>, x: seq<Step>, rest: seq<Step>)
    requires total == done + Perform(v, x + rest)
    requires AllSucceeded(done)
    ensures AllSucceeded(Perform(v, x)) ==>
      total == (done + Perform(v, x)) + Perform(v, rest) && AllSucceeded(done + Perform(v, x))
    ensures !AllSucceeded(Perform(v, x)) ==> total == done + Perform(v, x)
  {
    PerformAppend(v, x, rest);
  }

  /** The check's outcome when it ends at the one step of `x`. */
  lemma StopsAt(v: Visitors, done: seq<Visit>, x: seq<Step>)
    requires |x| == 1
    ensures Perform(v, x) == [VisitOf(v, x[0])]
    ensures Outcome(done + Perform(v, x)) ==
      var last := VisitOf(v, x[0]);
      if last.kind == From && last.err.Some? then Visited(last.result, last.err) else Visited(None, last.err)
  {
    assert x[1..] == [];
  }

  class SemChecker {
    var semFlag: Flags
    /** The clause visits made so far, for stating the visiting order. */
    ghost var trace: seq<Visit>

    constructor (mask: Flags)
      ensures semFlag == mask && trace == []
    {
      semFlag := mask;
      trace := [];
    }

    method SetSemFlag(bits: Flags)
      modifies this`semFlag
      ensures semFlag == SetFlags(old(semFlag), bits)
    {
      semFlag := semFlag | bits;
    }

    method UnsetSemFlag(bits: Flags)
      modifies this`semFlag
      ensures semFlag == UnsetFlags(old(semFlag), bits)
    {
      semFlag := semFlag & !bits;
    }

    /** Hands a clause, if the sub-select has one, to its visitor under
        the current flags. Ghost parameters: the visits the whole check
        makes (`total`), those made so far (`done`, all successful) and
        the steps after this one (`rest`). */
    method VisitStage(v: Visitors, kind: ClauseKind, c: Option<Clause>,
                      ghost start: seq<Visit>, ghost total: seq<Visit>, ghost done: seq<Visit>, ghost rest: seq<Step>)
      returns (out: Visited, ghost done': seq<Visit>)
      requires total == done + Perform(v, StepIf(kind, c, semFlag) + rest)
      requires AllSucceeded(done) && trace == start + done
      modifies this`trace
      ensures c.None? ==> out.err.None?
      ensures c.Some? ==> out == v.visit(kind, c.value, semFlag)
      ensures out.err.Some? ==> trace == start + total
      ensures out.err.Some? ==>
        Outcome(total) == if kind == From then Visited(out.result, out.err) else Visited(None, out.err)
      ensures out.err.None? ==>
        total == done' + Perform(v, rest) && AllSucceeded(done') && trace == start + done'
    {
      ghost var x := StepIf(kind, c, semFlag);
      Advance(v, total, done, x, rest);
      out := Visited(None, None);
      done' := done;
      if c.Some? {
        out := v.visit(kind, c.value, semFlag);
        trace := trace + [Visit(kind, semFlag, out.result, out.err)];
        StopsAt(v, done, x);
        done' := done + Perform(v, x);
      } else {
        assert x == [] && x + rest == rest;
      }
    }

    /** `VisitSelectTerm`: the inner select accepts this same checker. */
    method VisitSelectTerm(v: Visitors, node: SelectTerm) returns (r: Option<Opaque>, err: Option<Error>)
      ensures Visited(r, err) == v.acceptSelect(node.select, semFlag)
    {
      var out := v.acceptSelect(node.select, semFlag);
      r, err := out.result, out.err;
    }

    /** `VisitSubselect`: saves the flags and restores them on the way
        out, whichever clause the check ends at (the deferred restore). */
    method VisitSubselect(v: Visitors, node: Subselect) returns (r: Option<Opaque>, err: Option<Error>)
      modifies this`semFlag, this`trace
      ensures semFlag == old(semFlag)
      ensures trace == old(trace) + Perform(v, Plan(node, old(semFlag)))
      ensures Visited(r, err) == Outcome(Perform(v, Plan(node, old(semFlag))))
    {
      var saveSemFlag := semFlag;
      r, err := CheckClauses(v, node);
      semFlag := saveSemFlag;
    }

    /** The body of `VisitSubselect` up to its returns: clear WHERE and
        ON, then check each clause present, returning at the first error. */
    method CheckClauses(v: Visitors, node: Subselect) returns (r: Option<Opaque>, err: Option<Error>)
      modifies this`semFlag, this`trace
      ensures trace == old(trace) + Perform(v, Plan(node, old(semFlag)))
      ensures Visited(r, err) == Outcome(Perform(v, Plan(node, old(semFlag))))
      ensures semFlag == UnsetFlags(old(semFlag), SEM_WHERE | SEM_ON)
    {
      ghost var start := trace;
      ghost var mask0 := semFlag;
      ghost var cleared := UnsetFlags(semFlag, SEM_WHERE | SEM_ON);
      ghost var total := Perform(v, Plan(node, semFlag));
      ghost var rest := Filters(node, cleared);
      PlanParts(node, semFlag);
      assert total == [] + Perform(v, Sources(node, cleared) + rest);
      assert trace == start + [];
      UnsetSemFlag(SEM_WHERE | SEM_ON);
      var stopped: bool;
      ghost var done: seq<Visit>;
      stopped, r, err, done := CheckSources(v, node, start, total, rest);
      if stopped {
        return r, err;
      }
      ClearedFlags(mask0);
      r, err := CheckFilters(v, node, start, total, done);
    }

    /** The WITH, FROM and LET clauses, under the cleared flags. */
    method CheckSources(v: Visitors, node: Subselect, ghost start: seq<Visit>, ghost total: seq<Visit>, ghost rest: seq<Step>)
      returns (stopped: bool, r: Option<Opaque>, err: Option<Error>, ghost done: seq<Visit>)
      requires total == [] + Perform(v, Sources(node, semFlag) + rest)
      requires trace == start
      modifies this`trace
      ensures stopped ==> total != [] && trace == start + total && Visited(r, err) == Outcome(total)
      ensures !stopped ==> total == done + Perform(v, rest) && AllSucceeded(done) && trace == start + done
    {
      ghost var b := StepIf(From, node.fromTerm, semFlag);
      ghost var c := StepIf(Let, node.letClause, semFlag);
      assert Sources(node, semFlag) + rest == StepIf(With, node.withClause, semFlag) + (b + (c + rest));
      assert trace == start + [];
      var out;
      out, done := VisitStage(v, With, node.withClause, start, total, [], b + (c + rest));
      if out.err.Some? {
        return true, None, out.err, done;
      }
      out, done := VisitStage(v, From, node.fromTerm, start, total, done, c + rest);
      if out.err.Some? {
        return true, out.result, out.err, done;
      }
      out, done := VisitStage(v, Let, node.letClause, start, total, done, rest);
      if out.err.Some? {
        return true, None, out.err, done;
      }
      return false, None, None, done;
    }

    /** WHERE with its flag set, then GROUP BY and the projection. */
    method CheckFilters(v: Visitors, node: Subselect, ghost start: seq<Visit>, ghost total: seq<Visit>, ghost done: seq<Visit>)
      returns (r: Option<Opaque>, err: Option<Error>)
      requires total == done + Perform(v, Filters(node, semFlag)) && AllSucceeded(done) && trace == start + done
      modifies this`semFlag, this`trace
      requires semFlag & SEM_WHERE == 0
      ensures total != [] && trace == start + total && Visited(r, err) == Outcome(total)
      ensures semFlag == old(semFlag)
    {
      UnsetAfterSet(semFlag, SEM_WHERE);
      ghost var after := if node.whereExpr.Some? then UnsetFlags(SetFlags(semFlag, SEM_WHERE), SEM_WHERE) else semFlag;
      ghost var f := [Step(Projection, node.projection, after)];
      ghost var e := StepIf(Group, node.groupClause, after);
      assert Filters(node, semFlag) == StepIf(Where, node.whereExpr, SetFlags(semFlag, SEM_WHERE)) + (e + f);
      var out;
      ghost var done' := done;
      if node.whereExpr.Some? {
        SetSemFlag(SEM_WHERE);
        out, done' := VisitStage(v, Where, node.whereExpr, start, total, done, e + f);
        UnsetSemFlag(SEM_WHERE);
        if out.err.Some? {
          return None, out.err;
        }
      }
      out, done' := VisitStage(v, Group, node.groupClause, start, total, done', f);
      if out.err.Some? {
        return None, out.err;
      }
      assert f == StepIf(Projection, Some(node.projection), semFlag) + [];
      out, done' := VisitStage(v, Projection, Some(node.projection), start, total, done', []);
      if out.err.Some? {
        return None, out.err;
      }
      assert total == done' && Perform(v, f) == [VisitOf(v, f[0])];
      return None, out.err;
    }
  }
}
