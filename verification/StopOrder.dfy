/** The order in which services are stopped at shutdown, on the table alone. */
module StopOrder {
  import opened Types
  import opened Propagation

  /** What is still to be stopped when shutdown begins. */
  predicate Listed(svcs: seq<Service>, i: nat) {
    i < |svcs| && svcs[i].active && (svcs[i].state == Running || svcs[i].state == Stopping)
  }

  ghost function Snapshot(svcs: seq<Service>): (r: set<nat>)
    ensures forall i :: i in r <==> Listed(svcs, i)
  {
    set i: nat | i < |svcs| && Listed(svcs, i)
  }

  /** Every slot comes after the members of `r` that it hard-depends on. */
  ghost predicate DependenciesFirst(svcs: seq<Service>, r: set<nat>, order: seq<nat>) {
    forall p, k: nat :: 0 <= p < |order| && k in r && Needs(svcs, order[p], k) ==> k in Members(order[..p])
  }

  ghost predicate NeedsSome(svcs: seq<Service>, i: nat, x: set<nat>) {
    exists k :: k in x && Needs(svcs, i, k)
  }

  /** Each member hard-depends on a member. */
  ghost predicate Knot(svcs: seq<Service>, x: set<nat>) {
    forall i {:trigger NeedsSome(svcs, i, x)} :: i in x ==> NeedsSome(svcs, i, x)
  }

  /** What shutdown must emit: distinct slots of `r`, dependencies first, and only a knot left over. */
  ghost predicate StopsInOrder(svcs: seq<Service>, r: set<nat>, order: seq<nat>) {
    && Distinct(order) && Members(order) <= r
    && DependenciesFirst(svcs, r, order)
    && Knot(svcs, r - Members(order))
  }

  lemma EmitOne(svcs: seq<Service>, r: set<nat>, order: seq<nat>, i: nat)
    requires Distinct(order) && Members(order) <= r && DependenciesFirst(svcs, r, order)
    requires i in r - Members(order) && forall k :: k in r && Needs(svcs, i, k) ==> k in Members(order)
    ensures var o := order + [i];
            && Distinct(o) && Members(o) == Members(order) + {i} && Members(o) <= r
            && DependenciesFirst(svcs, r, o)
  {
    hide Needs;
    var o := order + [i];
    forall p, k: nat | 0 <= p < |o| && k in r && Needs(svcs, o[p], k) ensures k in Members(o[..p]) {
      if p < |order| {
        assert o[..p] == order[..p];
      } else {
        assert o[..p] == order;
      }
    }
  }

  /** No part of a knot is ever emitted. */
  lemma {:induction false} KnotsRemain(svcs: seq<Service>, r: set<nat>, order: seq<nat>, x: set<nat>, p: nat)
    requires DependenciesFirst(svcs, r, order) && x <= r && Knot(svcs, x) && p <= |order|
    ensures x !! Members(order[..p])
  {
    hide Needs;
    if p > 0 {
      KnotsRemain(svcs, r, order, x, p - 1);
      assert order[..p] == order[..p - 1] + [order[p - 1]];
      assert Members(order[..p]) == Members(order[..p - 1]) + {order[p - 1]};
      assert order[p - 1] in x ==> NeedsSome(svcs, order[p - 1], x);
    }
  }

  /** The leftover is the greatest knot: a knot itself, and every knot of the snapshot lies in it. */
  lemma LeftoverIsGreatest(svcs: seq<Service>, r: set<nat>, order: seq<nat>, x: set<nat>)
    requires StopsInOrder(svcs, r, order) && x <= r && Knot(svcs, x)
    ensures x <= r - Members(order)
  {
    hide Needs;
    KnotsRemain(svcs, r, order, x, |order|);
    assert order[..|order|] == order;
  }

  // ---------------------------------------------------------------- cycles

  /** A walk along hard dependencies that stays in `x`. */
  ghost predicate Walk(svcs: seq<Service>, x: set<nat>, p: seq<nat>) {
    && p != [] && (forall j :: 0 <= j < |p| ==> p[j] in x)
    && forall j :: 0 <= j < |p| - 1 ==> Needs(svcs, p[j], p[j + 1])
  }

  ghost predicate Cycle(svcs: seq<Service>, x: set<nat>, c: seq<nat>) {
    Walk(svcs, x, c) && Needs(svcs, c[|c| - 1], c[0])
  }

  lemma {:induction false} LongWalk(svcs: seq<Service>, x: set<nat>, n: nat) returns (p: seq<nat>)
    requires x != {} && Knot(svcs, x)
    ensures Walk(svcs, x, p) && |p| == n + 1
  {
    hide Needs;
    if n == 0 {
      var i :| i in x;
      p := [i];
    } else {
      var q := LongWalk(svcs, x, n - 1);
      assert NeedsSome(svcs, q[|q| - 1], x);
      var k :| k in x && Needs(svcs, q[|q| - 1], k);
      p := q + [k];
      forall j | 0 <= j < |p| - 1 ensures Needs(svcs, p[j], p[j + 1]) {
        assert j < |q| - 1 ==> Needs(svcs, q[j], q[j + 1]);
      }
    }
  }

  lemma SubsetSize(a: set<nat>, b: set<nat>)
    requires a <= b
    ensures |a| <= |b|
  {
    assert b == a + (b - a);
  }

  /** A knot that is not empty contains a cycle: a walk longer than the knot visits some slot twice. */
  lemma KnotHasCycle(svcs: seq<Service>, x: set<nat>) returns (c: seq<nat>)
    requires x != {} && Knot(svcs, x)
    ensures Cycle(svcs, x, c)
  {
    hide Needs;
    var p := LongWalk(svcs, x, |x|);
    if Distinct(p) {
      DistinctSize(p);
      SubsetSize(Members(p), x);
    }
    var i, j :| 0 <= i < j < |p| && p[i] == p[j];
    c := p[i..j];
    forall m | 0 <= m < |c| - 1 ensures Needs(svcs, c[m], c[m + 1]) {
      assert Needs(svcs, p[i + m], p[i + m + 1]);
    }
    assert Needs(svcs, p[j - 1], p[j - 1 + 1]);
  }

  lemma CycleIsKnot(svcs: seq<Service>, x: set<nat>, c: seq<nat>)
    requires Cycle(svcs, x, c)
    ensures Members(c) != {} && Members(c) <= x && Knot(svcs, Members(c))
  {
    hide Needs;
    assert c[0] in Members(c);
    forall i | i in Members(c) ensures NeedsSome(svcs, i, Members(c)) {
      var j :| 0 <= j < |c| && c[j] == i;
      if j < |c| - 1 {
        assert Needs(svcs, c[j], c[j + 1]) && c[j + 1] in Members(c);
      } else {
        assert Needs(svcs, c[j], c[0]);
      }
    }
  }

  /** Something is left over exactly when the snapshot contains a cycle of hard dependencies. */
  lemma LeftoverIffCycle(svcs: seq<Service>, r: set<nat>, order: seq<nat>)
    requires StopsInOrder(svcs, r, order)
    ensures r != Members(order) <==> exists c :: Cycle(svcs, r, c)
  {
    hide Needs;
    if r != Members(order) {
      var i :| (i in r) != (i in Members(order));
      assert i in r - Members(order);
      var c := KnotHasCycle(svcs, r - Members(order));
      assert Cycle(svcs, r, c);
    }
    if c :| Cycle(svcs, r, c) {
      CycleIsKnot(svcs, r, c);
      LeftoverIsGreatest(svcs, r, order, Members(c));
      var i :| i in Members(c);
      assert i in r && i !in Members(order);
    }
  }
}
