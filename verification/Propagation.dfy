/**
 What stopping along hard dependencies must achieve, stated on the table alone: the services that are left
 behind, as the ends of dependency paths and as a least fixpoint.
 */
module Propagation {
  import opened Types
  import opened Machine
  import opened Ledger

  ghost predicate Lifecycle(svcs: seq<Service>) {
    forall i :: 0 <= i < |svcs| ==> SlotOk(svcs[i])
  }

  predicate On(svcs: seq<Service>, i: int) {
    0 <= i < |svcs| && svcs[i].state == Running
  }

  /** Slot `i` hard-depends on the service in slot `k`. */
  ghost predicate Needs(svcs: seq<Service>, i: nat, k: nat) {
    i < |svcs| && exists d :: d in svcs[i].deps && !d.soft && FindByName(svcs, d.name) == Some(k)
  }

  /** Slot `i` hard-depends on a service that is not registered. */
  ghost predicate NeedsMissing(svcs: seq<Service>, i: nat) {
    i < |svcs| && exists d :: d in svcs[i].deps && !d.soft && FindByName(svcs, d.name) == None
  }

  /** A path of running services, each needing the next, the last needing one that is missing or not running. */
  ghost predicate PathDown(svcs: seq<Service>, p: seq<nat>) {
    && p != []
    && (forall j :: 0 <= j < |p| ==> On(svcs, p[j]))
    && (forall j :: 0 <= j < |p| - 1 ==> Needs(svcs, p[j], p[j + 1]))
    && !DepsSatisfied(svcs[p[|p| - 1]], svcs)
  }

  ghost predicate Doomed(svcs: seq<Service>, i: nat) {
    exists p :: PathDown(svcs, p) && p[0] == i
  }

  /** No running service lacks a hard dependency. */
  ghost predicate Closed(svcs: seq<Service>) {
    forall i :: On(svcs, i) ==> DepsSatisfied(svcs[i], svcs)
  }

  /** The table after the services in `gone` have been told to stop. */
  ghost function Marked(svcs: seq<Service>, gone: set<nat>): (t: seq<Service>)
    ensures |t| == |svcs|
    ensures forall i :: 0 <= i < |svcs| ==> t[i] == if i in gone then Stopped(svcs[i]) else svcs[i]
  {
    seq(|svcs|, i requires 0 <= i < |svcs| => if i in gone then Stopped(svcs[i]) else svcs[i])
  }

  lemma MarkedNames(svcs: seq<Service>, gone: set<nat>, name: Text)
    ensures FindByName(Marked(svcs, gone), name) == FindByName(svcs, name)
  {
    FindByNameSame(svcs, Marked(svcs, gone), name);
  }

  lemma MarkedMore(svcs: seq<Service>, gone: set<nat>, i: nat)
    requires i < |svcs|
    ensures Marked(svcs, gone)[i := Stopped(Marked(svcs, gone)[i])] == Marked(svcs, gone + {i})
  {
  }

  lemma DoomedByPath(svcs: seq<Service>, i: nat, k: nat)
    requires On(svcs, i) && Needs(svcs, i, k) && Doomed(svcs, k)
    ensures Doomed(svcs, i)
  {
    var p :| PathDown(svcs, p) && p[0] == k;
    var q := [i] + p;
    assert q[1..] == p;
    forall j | 0 <= j < |q| - 1 ensures Needs(svcs, q[j], q[j + 1]) {
      assert j > 0 ==> Needs(svcs, p[j - 1], p[j - 1 + 1]);
    }
    assert PathDown(svcs, q);
  }

  /** A service stranded after some doomed ones were stopped was doomed from the beginning. */
  lemma StrandedIsDoomed(svcs: seq<Service>, gone: set<nat>, i: nat)
    requires i < |svcs| && Stranded(Marked(svcs, gone), i)
    requires forall k :: k in gone ==> k < |svcs| && Doomed(svcs, k)
    ensures i !in gone && On(svcs, i) && Doomed(svcs, i)
  {
    var t := Marked(svcs, gone);
    var d :| d in t[i].deps && !Up(t, d);
    MarkedNames(svcs, gone, d.name);
    var k := FindByName(svcs, d.name);
    if k.Some? && k.value in gone {
      assert Needs(svcs, i, k.value);
      DoomedByPath(svcs, i, k.value);
    } else {
      assert !Up(svcs, d);
      assert PathDown(svcs, [i]);
    }
  }

  lemma PathTail(svcs: seq<Service>, p: seq<nat>)
    requires PathDown(svcs, p) && |p| > 1
    ensures PathDown(svcs, p[1..]) && Needs(svcs, p[0], p[1])
  {
    hide Needs;
    var q := p[1..];
    forall j | 0 <= j < |q| - 1 ensures Needs(svcs, q[j], q[j + 1]) {
      assert Needs(svcs, p[j + 1], p[j + 1 + 1]);
    }
    assert Needs(svcs, p[0], p[0 + 1]);
  }

  /** As long as the head of a path has not been stopped, somebody on the path is stranded. */
  lemma {:induction false} PathStrands(svcs: seq<Service>, gone: set<nat>, p: seq<nat>) returns (i: nat)
    requires Lifecycle(svcs) && PathDown(svcs, p) && p[0] !in gone
    ensures i < |svcs| && Stranded(Marked(svcs, gone), i)
    decreases |p|
  {
    if |p| == 1 {
      i := p[0];
      assert SlotOk(svcs[i]);
      var d :| d in svcs[i].deps && !Up(svcs, d);
      MarkedNames(svcs, gone, d.name);
      assert !Up(Marked(svcs, gone), d);
    } else {
      PathTail(svcs, p);
      if p[1] !in gone {
        i := PathStrands(svcs, gone, p[1..]);
      } else {
        i := p[0];
        assert SlotOk(svcs[i]) && On(svcs, p[1]);
        var d :| d in svcs[i].deps && !d.soft && FindByName(svcs, d.name) == Some(p[1]);
        MarkedNames(svcs, gone, d.name);
        assert !Up(Marked(svcs, gone), d);
      }
    }
  }

  /** So the services stopped are exactly the doomed ones, and the rest is closed. */
  lemma NobodyStranded(svcs: seq<Service>, gone: set<nat>)
    requires Lifecycle(svcs)
    requires forall k :: k in gone ==> k < |svcs| && Doomed(svcs, k)
    requires forall i :: 0 <= i < |svcs| ==> !Stranded(Marked(svcs, gone), i)
    ensures forall i :: i in gone <==> Doomed(svcs, i)
    ensures Closed(Marked(svcs, gone))
  {
    forall i | Doomed(svcs, i) ensures i in gone {
      var p :| PathDown(svcs, p) && p[0] == i;
      if i !in gone {
        var k := PathStrands(svcs, gone, p);
        assert false;
      }
    }
    var t := Marked(svcs, gone);
    forall i | On(t, i) ensures DepsSatisfied(t[i], t) {
      assert SlotOk(svcs[i]) && !Stranded(t, i);
    }
  }

  function Terminations(victims: seq<nat>, cause: Cause): (es: seq<Event>)
    ensures |es| == |victims|
  {
    seq(|victims|, k requires 0 <= k < |victims| => Do(victims[k], Terminate(cause)))
  }

  predicate Distinct(xs: seq<nat>) {
    forall i, j :: 0 <= i < j < |xs| ==> xs[i] != xs[j]
  }

  ghost function Members(xs: seq<nat>): set<nat> {
    set x | x in xs
  }

  /** Some of the doomed services, each listed once. */
  ghost predicate SomeDoomed(svcs: seq<Service>, xs: seq<nat>) {
    Distinct(xs) && forall k :: 0 <= k < |xs| ==> On(svcs, xs[k]) && Doomed(svcs, xs[k])
  }

  /** All the doomed services, each listed once. */
  ghost predicate AllDoomed(svcs: seq<Service>, xs: seq<nat>) {
    SomeDoomed(svcs, xs) && forall i :: Doomed(svcs, i) ==> i in xs
  }

  lemma OneMoreDoomed(svcs: seq<Service>, xs: seq<nat>, i: nat)
    requires i < |svcs| && SomeDoomed(svcs, xs) && Stranded(Marked(svcs, Members(xs)), i)
    ensures SomeDoomed(svcs, xs + [i])
    ensures i !in xs
  {
    StrandedIsDoomed(svcs, Members(xs), i);
  }

  lemma SomeIsAll(svcs: seq<Service>, xs: seq<nat>)
    requires Lifecycle(svcs) && SomeDoomed(svcs, xs)
    requires forall i :: 0 <= i < |svcs| ==> !Stranded(Marked(svcs, Members(xs)), i)
    ensures AllDoomed(svcs, xs) && Closed(Marked(svcs, Members(xs)))
  {
    NobodyStranded(svcs, Members(xs));
  }

  lemma NoneDoomed(svcs: seq<Service>)
    ensures SomeDoomed(svcs, []) && svcs == Marked(svcs, Members([]))
  {
  }

  /** A list of distinct slots is no longer than the table. */
  lemma SomeBound(svcs: seq<Service>, xs: seq<nat>)
    requires SomeDoomed(svcs, xs)
    ensures |xs| <= |svcs|
  {
    DistinctBound(xs, |svcs|);
  }

  lemma {:induction false} DistinctBound(xs: seq<nat>, n: nat)
    requires Distinct(xs) && forall k :: 0 <= k < |xs| ==> xs[k] < n
    ensures |xs| <= n
  {
    DistinctSize(xs);
    SetBound(Members(xs), n);
  }

  lemma {:induction false} DistinctSize(xs: seq<nat>)
    requires Distinct(xs)
    ensures |Members(xs)| == |xs|
  {
    if xs != [] {
      var ys, y := xs[..|xs| - 1], xs[|xs| - 1];
      DistinctSize(ys);
      assert xs == ys + [y];
      assert Members(xs) == Members(ys) + {y};
    }
  }

  lemma {:induction false} SetBound(s: set<nat>, n: nat)
    requires forall x :: x in s ==> x < n
    ensures |s| <= n
  {
    if n == 0 {
      assert s == {};
    } else {
      SetBound(s - {n - 1}, n - 1);
      assert s <= (s - {n - 1}) + {n - 1};
      if n - 1 in s {
        assert s == (s - {n - 1}) + {n - 1};
      } else {
        assert s == s - {n - 1};
      }
    }
  }

  /** A set of slots that contains every running service left behind by it. */
  ghost predicate ClosedUnderLoss(svcs: seq<Service>, v: set<nat>) {
    forall i: nat :: On(svcs, i) && (!DepsSatisfied(svcs[i], svcs) || exists k :: k in v && Needs(svcs, i, k)) ==>
      i in v
  }

  /** The doomed services are the least set closed under losing a hard dependency. */
  lemma DoomedIsLeast(svcs: seq<Service>, doomed: set<nat>)
    requires forall i :: i in doomed <==> Doomed(svcs, i)
    ensures ClosedUnderLoss(svcs, doomed)
    ensures forall v :: ClosedUnderLoss(svcs, v) ==> doomed <= v
  {
    forall i: nat | On(svcs, i) && (!DepsSatisfied(svcs[i], svcs) || exists k :: k in doomed && Needs(svcs, i, k))
      ensures i in doomed
    {
      if !DepsSatisfied(svcs[i], svcs) {
        assert PathDown(svcs, [i]);
      } else {
        var k :| k in doomed && Needs(svcs, i, k);
        DoomedByPath(svcs, i, k);
      }
    }
    forall v | ClosedUnderLoss(svcs, v) ensures doomed <= v {
      forall i | i in doomed ensures i in v {
        var p :| PathDown(svcs, p) && p[0] == i;
        PathInClosed(svcs, v, p);
      }
    }
  }

  lemma {:induction false} PathInClosed(svcs: seq<Service>, v: set<nat>, p: seq<nat>)
    requires ClosedUnderLoss(svcs, v) && PathDown(svcs, p)
    ensures p[0] in v
    decreases |p|
  {
    if |p| > 1 {
      PathTail(svcs, p);
      PathInClosed(svcs, v, p[1..]);
    }
  }
}
