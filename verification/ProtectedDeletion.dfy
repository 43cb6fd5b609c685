/** Deleting rows together with everything that refers to them, although some references
    forbid it: referrers that protect a row are deleted first, recursively. */
module ProtectedDeletion {

  datatype Id = Id(model: nat, pk: nat)

  /** The rows when the deletion starts, and the references between them: (x, y) means that
      x refers to y. A cascading reference lets x go with y, a protecting one forbids to
      delete y while x exists. */
  datatype References = References(nodes: set<Id>, cascades: set<(Id, Id)>, protects: set<(Id, Id)>)

  type Graph = g: References | forall e :: e in g.cascades + g.protects ==> e.0 in g.nodes && e.1 in g.nodes
    witness References({}, {}, {})

  predicate Refers(g: Graph, x: Id, y: Id) {
    (x, y) in g.cascades || (x, y) in g.protects
  }

  // ----- paths -----

  predicate IsPath(g: Graph, p: seq<Id>) {
    p != [] && p[0] in g.nodes && forall i :: 0 <= i < |p| - 1 ==> Refers(g, p[i], p[i + 1])
  }

  predicate Joins(g: Graph, p: seq<Id>, x: Id, y: Id) {
    IsPath(g, p) && p[0] == x && p[|p| - 1] == y
  }

  /** A path that uses a protecting reference at position i. */
  predicate ProtectsAt(g: Graph, p: seq<Id>, i: nat) {
    i + 1 < |p| && (p[i], p[i + 1]) in g.protects
  }

  ghost predicate Reaches(g: Graph, x: Id, y: Id) {
    exists p :: Joins(g, p, x, y)
  }

  ghost predicate ReachesAny(g: Graph, x: Id, targets: set<Id>) {
    exists t :: t in targets && Reaches(g, x, t)
  }

  /** The row guards some row of the set. */
  ghost predicate GuardsAny(g: Graph, x: Id, targets: set<Id>) {
    exists t :: t in targets && Guards(g, x, t)
  }

  ghost predicate Guards(g: Graph, x: Id, y: Id) {
    exists p, i: nat :: Joins(g, p, x, y) && ProtectsAt(g, p, i)
  }

  /** A circular dependency that no order of deletions can resolve: the last row of the path
      protects the first. */
  predicate IsKnot(g: Graph, p: seq<Id>) {
    IsPath(g, p) && (p[|p| - 1], p[0]) in g.protects
  }

  ghost predicate KnotReaches(g: Graph, targets: set<Id>) {
    exists p :: IsKnot(g, p) && ReachesAny(g, p[0], targets)
  }

  lemma Concat(g: Graph, p: seq<Id>, q: seq<Id>)
    requires IsPath(g, p) && IsPath(g, q) && p[|p| - 1] == q[0]
    ensures Joins(g, p + q[1..], p[0], q[|q| - 1])
    ensures forall i: nat :: ProtectsAt(g, p, i) ==> ProtectsAt(g, p + q[1..], i)
    ensures forall i: nat :: ProtectsAt(g, q, i) ==> ProtectsAt(g, p + q[1..], |p| - 1 + i)
  {
  }

  lemma ReachesTwice(g: Graph, x: Id, y: Id, z: Id)
    requires Reaches(g, x, y) && Reaches(g, y, z)
    ensures Reaches(g, x, z)
  {
    var p :| Joins(g, p, x, y);
    var q :| Joins(g, q, y, z);
    Concat(g, p, q);
  }

  lemma GuardsTwice(g: Graph, x: Id, y: Id, z: Id)
    requires Guards(g, x, y) && Reaches(g, y, z)
    ensures Guards(g, x, z)
  {
    var p, i: nat :| Joins(g, p, x, y) && ProtectsAt(g, p, i);
    var q :| Joins(g, q, y, z);
    Concat(g, p, q);
    assert ProtectsAt(g, p + q[1..], i);
  }

  lemma GuardsReaches(g: Graph, x: Id, y: Id)
    requires Guards(g, x, y)
    ensures Reaches(g, x, y)
  {
  }

  lemma ReachesItself(g: Graph, x: Id)
    requires x in g.nodes
    ensures Reaches(g, x, x)
  {
    assert Joins(g, [x], x, x);
  }

  lemma OneStep(g: Graph, x: Id, y: Id)
    requires Refers(g, x, y)
    ensures Reaches(g, x, y) && ((x, y) in g.protects ==> Guards(g, x, y))
  {
    assert Joins(g, [x, y], x, y);
    if (x, y) in g.protects { assert ProtectsAt(g, [x, y], 0); }
  }

  /** A row that guards itself lies on a knot. */
  lemma ClosedPathIsKnot(g: Graph, x: Id)
    requires Guards(g, x, x)
    ensures exists p :: IsKnot(g, p) && Reaches(g, p[0], x)
  {
    var p, i: nat :| Joins(g, p, x, x) && ProtectsAt(g, p, i);
    var front, back := p[i + 1..], p[1..i + 1];
    var q := front + back;
    assert forall j :: 0 <= j < |front| ==> q[j] == p[i + 1 + j];
    assert forall j :: |front| <= j < |q| ==> q[j] == p[j - |front| + 1];
    assert q[|q| - 1] == p[i];
    assert IsPath(g, front);
    forall j | 0 <= j < |q| - 1 ensures Refers(g, q[j], q[j + 1]) {
      if j == |front| - 1 { assert q[j] == p[|p| - 1] == p[0] && q[j + 1] == p[1]; }
    }
    assert IsKnot(g, q);
    assert Joins(g, front, q[0], x);
  }

  lemma GuardedBy(g: Graph, x: Id, targets: set<Id>) returns (y: Id)
    requires GuardsAny(g, x, targets)
    ensures y in targets && Guards(g, x, y)
  {
    y :| y in targets && Guards(g, x, y);
  }

  lemma GuardsOne(g: Graph, x: Id, y: Id, targets: set<Id>)
    requires y in targets && Guards(g, x, y)
    ensures GuardsAny(g, x, targets)
  {
  }

  /** If every row of a finite set guards a row of the set, one of them guards itself. */
  lemma {:induction false} SomeRowGuardsItself(g: Graph, rows: set<Id>) returns (x: Id)
    requires rows != {} && forall r :: r in rows ==> GuardsAny(g, r, rows)
    ensures x in rows && Guards(g, x, x)
    decreases rows
  {
    hide Guards, Reaches, GuardsAny;
    x :| x in rows;
    if !Guards(g, x, x) {
      var y := GuardedBy(g, x, rows);
      var rest := rows - {x};
      forall r | r in rest ensures GuardsAny(g, r, rest) {
        var s := GuardedBy(g, r, rows);
        if s == x {
          GuardsReaches(g, x, y);
          GuardsTwice(g, r, x, y);
          GuardsOne(g, r, y, rest);
        } else {
          GuardsOne(g, r, s, rest);
        }
      }
      assert y in rest;
      x := SomeRowGuardsItself(g, rest);
    }
  }

  // ----- what the collector does -----

  /** The rows on protecting cycles are all still there. */
  ghost predicate KnotsStay(g: Graph, rows: set<Id>) {
    forall p, i :: IsKnot(g, p) && 0 <= i < |p| ==> p[i] in rows
  }

  /** No row refers to a row that is gone. */
  predicate IsConsistent(g: Graph, rows: set<Id>) {
    && rows <= g.nodes
    && forall e :: e in g.cascades + g.protects && e.0 in rows ==> e.1 in rows
  }

  lemma {:induction false} GoneTogether(g: Graph, rows: set<Id>, p: seq<Id>)
    requires IsConsistent(g, rows) && IsPath(g, p) && p[|p| - 1] !in rows
    ensures p[0] !in rows
    decreases |p|
  {
    if |p| > 1 {
      GoneTogether(g, rows, p[1..]);
      assert Refers(g, p[0], p[1]);
      assert (p[0], p[1]) in g.cascades + g.protects;
    }
  }

  /** Removing a set that is closed under cascades and that nothing protects unties no knot. */
  lemma KnotsSurvive(g: Graph, rows: set<Id>, gone: set<Id>)
    requires KnotsStay(g, rows)
    requires forall e :: e in g.cascades && e.0 in rows && e.1 in gone ==> e.0 in gone
    requires forall e :: e in g.protects && e.0 in rows ==> e.1 !in gone
    ensures KnotsStay(g, rows - gone)
  {
    forall p, i | IsKnot(g, p) && 0 <= i < |p| ensures p[i] in rows - gone {
      KnotIsUntouched(g, rows, gone, p, i);
    }
  }

  lemma {:induction false} KnotIsUntouched(g: Graph, rows: set<Id>, gone: set<Id>, p: seq<Id>, i: nat)
    requires KnotsStay(g, rows) && IsKnot(g, p) && i < |p|
    requires forall e :: e in g.cascades && e.0 in rows && e.1 in gone ==> e.0 in gone
    requires forall e :: e in g.protects && e.0 in rows ==> e.1 !in gone
    ensures p[i] in rows - gone
  {
    if i == 0 {
      assert (p[|p| - 1], p[0]) in g.protects;
    } else {
      KnotIsUntouched(g, rows, gone, p, i - 1);
      assert Refers(g, p[i - 1], p[i]);
    }
  }

  /** A knot that reaches a row keeps that row in place. */
  lemma KnotBlocks(g: Graph, rows: set<Id>, targets: set<Id>)
    requires IsConsistent(g, rows) && KnotsStay(g, rows) && targets !! rows
    ensures !KnotReaches(g, targets)
  {
    if KnotReaches(g, targets) {
      var p :| IsKnot(g, p) && ReachesAny(g, p[0], targets);
      var t :| t in targets && Reaches(g, p[0], t);
      var q :| Joins(g, q, p[0], t);
      GoneTogether(g, rows, q);
      KnotHead(g, rows, p);
      assert false;
    }
  }

  lemma KnotHead(g: Graph, rows: set<Id>, p: seq<Id>)
    requires KnotsStay(g, rows) && IsKnot(g, p)
    ensures p[0] in rows
  {
  }

  // ----- markers of the recursion -----

  /** All subsets of a set: the markers that can ever be active. */
  ghost function Subsets(s: set<Id>): (r: set<set<Id>>)
    ensures forall t :: t <= s ==> t in r
  {
    if s == {} then
      assert forall t: set<Id> :: t <= s ==> t == {};
      {{}}
    else
      var x :| x in s;
      var without := Subsets(s - {x});
      SubsetsCover(s, x, without);
      without + (set t | t in without :: t + {x})
  }

  lemma SubsetsCover(s: set<Id>, x: Id, without: set<set<Id>>)
    requires x in s && forall t :: t <= s - {x} ==> t in without
    ensures forall t :: t <= s ==> t in without + (set u | u in without :: u + {x})
  {
    forall t | t <= s ensures t in without + (set u | u in without :: u + {x}) {
      if x in t {
        assert t - {x} in without && t == t - {x} + {x};
      } else {
        assert t <= s - {x};
      }
    }
  }

  /** Each row guards a row of every marker under which the recursion works. */
  ghost predicate Under(g: Graph, targets: set<Id>, active: set<set<Id>>) {
    forall m, x :: m in active && x in targets ==> GuardsAny(g, x, m)
  }

  ghost predicate AllGuard(g: Graph, blockers: set<Id>, targets: set<Id>) {
    forall b :: b in blockers ==> GuardsAny(g, b, targets)
  }

  lemma GuardsFurther(g: Graph, b: Id, targets: set<Id>, m: set<Id>)
    requires GuardsAny(g, b, targets) && forall t :: t in targets ==> GuardsAny(g, t, m)
    ensures GuardsAny(g, b, m)
  {
    hide Guards, Reaches, GuardsAny;
    var t := GuardedBy(g, b, targets);
    var y := GuardedBy(g, t, m);
    GuardsReaches(g, t, y);
    GuardsTwice(g, b, t, y);
    GuardsOne(g, b, y, m);
  }

  lemma UnderMore(g: Graph, targets: set<Id>, active: set<set<Id>>, blockers: set<Id>)
    requires Under(g, targets, active) && AllGuard(g, blockers, targets)
    ensures Under(g, blockers, active + {targets})
  {
    hide GuardsAny;
    forall m, b | m in active + {targets} && b in blockers ensures GuardsAny(g, b, m) {
      if m != targets { GuardsFurther(g, b, targets, m); }
    }
  }

  /** Meeting an active marker again means that there is a knot. */
  lemma MarkerRepeats(g: Graph, targets: set<Id>, active: set<set<Id>>)
    requires targets != {} && targets in active && Under(g, targets, active)
    ensures KnotReaches(g, targets)
  {
    hide Guards, Reaches, GuardsAny;
    var x := SomeRowGuardsItself(g, targets);
    ClosedPathIsKnot(g, x);
    var p :| IsKnot(g, p) && Reaches(g, p[0], x);
    assert ReachesAny(g, p[0], targets);
  }

  lemma ReachesFurther(g: Graph, x: Id, blockers: set<Id>, targets: set<Id>)
    requires ReachesAny(g, x, blockers) && AllGuard(g, blockers, targets)
    ensures ReachesAny(g, x, targets)
  {
    hide Guards, Reaches, GuardsAny;
    var b :| b in blockers && Reaches(g, x, b);
    var t := GuardedBy(g, b, targets);
    GuardsReaches(g, b, t);
    ReachesTwice(g, x, b, t);
  }

  lemma KnotReachesFurther(g: Graph, blockers: set<Id>, targets: set<Id>)
    requires KnotReaches(g, blockers) && AllGuard(g, blockers, targets)
    ensures KnotReaches(g, targets)
  {
    hide Reaches, GuardsAny, ReachesAny, AllGuard;
    var p :| IsKnot(g, p) && ReachesAny(g, p[0], blockers);
    ReachesFurther(g, p[0], blockers, targets);
  }

  lemma ReachesAnyStep(g: Graph, x: Id, y: Id, targets: set<Id>)
    requires Refers(g, x, y) && ReachesAny(g, y, targets)
    ensures ReachesAny(g, x, targets)
    ensures (x, y) in g.protects ==> GuardsAny(g, x, targets)
  {
    hide Reaches, Guards;
    OneStep(g, x, y);
    var t :| t in targets && Reaches(g, y, t);
    ReachesTwice(g, x, y, t);
    if (x, y) in g.protects { GuardsTwice(g, x, y, t); }
  }

  lemma ReachesMore(g: Graph, x: Id, some: set<Id>, targets: set<Id>)
    requires some <= targets && ReachesAny(g, x, some)
    ensures ReachesAny(g, x, targets)
  {
  }

  lemma TargetReaches(g: Graph, x: Id, targets: set<Id>)
    requires x in targets && x in g.nodes
    ensures ReachesAny(g, x, targets)
  {
    ReachesItself(g, x);
  }

  // ----- the deletion -----

  class Deletion {
    const g: Graph
    var rows: set<Id>
    var active: set<set<Id>>

    constructor (g: Graph)
      ensures this.g == g && rows == g.nodes && active == {} && Valid()
    {
      this.g, rows, active := g, g.nodes, {};
      new;
      forall p, i | IsKnot(g, p) && 0 <= i < |p| ensures p[i] in g.nodes {
        if i > 0 { assert Refers(g, p[i - 1], p[i]); }
      }
    }

    ghost predicate Valid()
      reads this
    {
      IsConsistent(g, rows) && KnotsStay(g, rows)
    }

    /** The rows that go with the targets by cascades. */
    method Collect(targets: set<Id>) returns (closure: set<Id>)
      requires targets <= rows && Valid()
      ensures targets <= closure <= rows
      ensures forall e :: e in g.cascades && e.0 in rows && e.1 in closure ==> e.0 in closure
      ensures forall x :: x in closure ==> ReachesAny(g, x, targets)
    {
      hide ReachesAny, KnotsStay;
      closure := targets;
      forall x | x in targets ensures ReachesAny(g, x, targets) { TargetReaches(g, x, targets); }
      var more := set x | x in rows && x !in closure && exists e :: e in g.cascades && e.0 == x && e.1 in closure;
      while more != {}
        invariant targets <= closure <= rows && more <= rows && more !! closure
        invariant more == set x | x in rows && x !in closure && exists e :: e in g.cascades && e.0 == x && e.1 in closure
        invariant forall x :: x in closure ==> ReachesAny(g, x, targets)
        decreases rows - closure
      {
        forall x | x in more ensures ReachesAny(g, x, targets) {
          var e :| e in g.cascades && e.0 == x && e.1 in closure;
          assert e == (x, e.1);
          ReachesAnyStep(g, x, e.1, targets);
        }
        closure := closure + more;
        more := set x | x in rows && x !in closure && exists e :: e in g.cascades && e.0 == x && e.1 in closure;
      }
      forall e | e in g.cascades && e.0 in rows && e.1 in closure ensures e.0 in closure {
        assert e.0 !in more;
      }
    }

    /** Delete the targets that still exist with all that cascades from them, or change nothing
        and report the rows that protect one of these. */
    method DeleteOrReport(targets: set<Id>) returns (blockers: set<Id>)
      requires Valid() && targets <= g.nodes
      modifies this`rows
      ensures Valid() && blockers <= rows <= old(rows)
      ensures blockers != {} ==> rows == old(rows)
      ensures blockers == {} ==> targets !! rows
      ensures forall x :: x in old(rows) - rows ==> ReachesAny(g, x, targets)
      ensures AllGuard(g, blockers, targets)
    {
      hide ReachesAny, GuardsAny, KnotsStay;
      var closure := Collect(targets * rows);
      blockers := set x | x in rows && exists e :: e in g.protects && e.0 == x && e.1 in closure;
      forall x | x in closure ensures ReachesAny(g, x, targets) {
        ReachesMore(g, x, targets * rows, targets);
      }
      forall b | b in blockers ensures GuardsAny(g, b, targets) {
        var e :| e in g.protects && e.0 == b && e.1 in closure;
        assert e == (b, e.1);
        ReachesAnyStep(g, b, e.1, targets);
      }
      if blockers == {} {
        forall e | e in g.protects && e.0 in rows ensures e.1 !in closure {
          assert e.0 !in blockers;
        }
        KnotsSurvive(g, rows, closure);
        rows := rows - closure;
      }
    }

    /** Delete rows of one model. The result is false when the deletion was given up because a
        marker came up again below itself. */
    method DeleteModelRows(targets: set<Id>) returns (ok: bool)
      requires Valid() && targets <= g.nodes && Under(g, targets, active)
      modifies this
      ensures Valid() && active == old(active) && rows <= old(rows)
      ensures ok ==> targets !! rows
      ensures forall x :: x in old(rows) - rows ==> ReachesAny(g, x, targets)
      ensures !ok ==> KnotReaches(g, targets)
      decreases Subsets(g.nodes) - active, 0
    {
      hide GuardsAny, ReachesAny, KnotReaches, KnotsStay;
      if targets == {} { return true; }
      if targets in active {
        MarkerRepeats(g, targets, active);
        return false;
      }
      active := active + {targets};
      ok := ClearAndDelete(targets);
      active := active - {targets};
    }

    /** Try the deletion again and again, each time deleting the reported rows first, model by
        model. No report ever comes up twice. */
    method ClearAndDelete(targets: set<Id>) returns (ok: bool)
      requires Valid() && targets <= g.nodes && targets != {}
      requires targets in active && Under(g, targets, active - {targets})
      modifies this
      ensures Valid() && active == old(active) && rows <= old(rows)
      ensures ok ==> targets !! rows
      ensures forall x :: x in old(rows) - rows ==> ReachesAny(g, x, targets)
      ensures !ok ==> KnotReaches(g, targets)
      decreases Subsets(g.nodes) - active, 1
    {
      hide GuardsAny, ReachesAny, KnotReaches, KnotsStay;
      var seen: set<set<Id>> := {};
      var blockers := DeleteOrReport(targets);
      while blockers != {}
        invariant Valid() && active == old(active) && blockers <= rows <= old(rows)
        invariant AllGuard(g, blockers, targets)
        invariant forall s :: s in seen ==> s != {} && s !! rows
        invariant blockers == {} ==> targets !! rows
        invariant forall x :: x in old(rows) - rows ==> ReachesAny(g, x, targets)
        decreases rows
      {
        if blockers in seen {
          assert false;
          return false;
        }
        seen := seen + {blockers};
        ghost var signature, start := blockers, rows;
        UnderMore(g, targets, active - {targets}, blockers);
        assert active - {targets} + {targets} == active;
        var left := blockers;
        while left != {}
          invariant Valid() && active == old(active) && rows <= start && left <= blockers
          invariant (blockers - left) !! rows
          invariant forall x :: x in old(rows) - rows ==> ReachesAny(g, x, targets)
          decreases left
        {
          var some :| some in left;
          var group := set b | b in left && b.model == some.model;
          assert some in group;
          ghost var before := rows;
          ok := DeleteModelRows(group);
          if !ok {
            KnotReachesFurther(g, group, targets);
            forall x | x in before - rows ensures ReachesAny(g, x, targets) { ReachesFurther(g, x, group, targets); }
            return false;
          }
          forall x | x in before - rows ensures ReachesAny(g, x, targets) { ReachesFurther(g, x, group, targets); }
          left := left - group;
        }
        assert signature !! rows;
        blockers := DeleteOrReport(targets);
      }
      return true;
    }

    /** The whole deletion in one transaction. It succeeds exactly when no protecting cycle
        reaches a target; then all targets are gone, only rows that reach a target went with
        them, and no remaining row refers to a missing one. Otherwise nothing has changed. */
    method DeleteWithProtectedRelations(targets: set<Id>) returns (ok: bool)
      requires Valid() && targets <= rows && active == {}
      modifies this
      ensures Valid() && active == {}
      ensures ok <==> !KnotReaches(g, targets)
      ensures !ok ==> rows == old(rows)
      ensures ok ==> forall x :: x in old(rows) ==> (x !in rows <==> ReachesAny(g, x, targets))
    {
      var saved := rows;
      ok := DeleteModelRows(targets);
      if ok {
        KnotBlocks(g, rows, targets);
        forall x | x in old(rows) && ReachesAny(g, x, targets) ensures x !in rows {
          var t :| t in targets && Reaches(g, x, t);
          var q :| Joins(g, q, x, t);
          GoneTogether(g, rows, q);
        }
      } else {
        rows := saved;
      }
    }
  }
}
