/** Walks and cycles of a finite relation. */
module Graphs {
  type Relation<!T> = (T, T) -> bool

  ghost predicate Walk<T>(r: Relation<T>, p: seq<T>) {
    p != [] && forall i :: 0 <= i < |p| - 1 ==> r(p[i], p[i + 1])
  }

  ghost predicate Joins<T>(r: Relation<T>, p: seq<T>, a: T, b: T) {
    Walk(r, p) && |p| >= 2 && p[0] == a && p[|p| - 1] == b
  }

  /** A walk of at least one edge leads from `a` to `b`. */
  ghost predicate Reaches<T(!new)>(r: Relation<T>, a: T, b: T) {
    exists p :: Joins(r, p, a, b)
  }

  ghost predicate Acyclic<T(!new)>(r: Relation<T>) {
    forall a :: !Reaches(r, a, a)
  }

  lemma EdgeReaches<T(!new)>(r: Relation<T>, a: T, b: T)
    requires r(a, b)
    ensures Reaches(r, a, b)
  {
    assert Joins(r, [a, b], a, b);
  }

  lemma ReachesTransitive<T(!new)>(r: Relation<T>, a: T, b: T, c: T)
    requires Reaches(r, a, b) && Reaches(r, b, c)
    ensures Reaches(r, a, c)
  {
    var p :| Joins(r, p, a, b);
    var q :| Joins(r, q, b, c);
    var w := p + q[1..];
    forall i | 0 <= i < |w| - 1
      ensures r(w[i], w[i + 1])
    {
      if i < |p| - 1 {
        assert r(p[i], p[i + 1]);
      } else {
        assert w[i] == q[i - |p| + 1];
        assert r(q[i - |p| + 1], q[i - |p| + 1 + 1]);
      }
    }
    assert Joins(r, w, a, c);
  }

  /** If every edge of `s` is a walk of `r`, so is every walk of `s`. */
  lemma {:induction false} WalkExpands<T(!new)>(r: Relation<T>, s: Relation<T>, p: seq<T>)
    requires forall a, b :: s(a, b) ==> Reaches(r, a, b)
    requires Walk(s, p) && |p| >= 2
    ensures Reaches(r, p[0], p[|p| - 1])
  {
    assert s(p[0], p[1]);
    if |p| <= 2 {
    } else {
      var rest := p[1..];
      forall i | 0 <= i < |rest| - 1
        ensures s(rest[i], rest[i + 1])
      {
        assert s(p[i + 1], p[i + 1 + 1]);
      }
      WalkExpands(r, s, rest);
      ReachesTransitive(r, p[0], p[1], p[|p| - 1]);
    }
  }

  lemma ReachesExpands<T(!new)>(r: Relation<T>, s: Relation<T>, a: T, b: T)
    requires forall x, y :: s(x, y) ==> Reaches(r, x, y)
    requires Reaches(s, a, b)
    ensures Reaches(r, a, b)
  {
    var p :| Joins(s, p, a, b);
    WalkExpands(r, s, p);
  }

  /** Along a walk whose edges raise `rank`, the rank rises by at least the number of edges. */
  lemma {:induction false} RankRises<T(!new)>(r: Relation<T>, rank: T -> int, p: seq<T>)
    requires forall a, b :: r(a, b) ==> rank(a) < rank(b)
    requires Walk(r, p)
    ensures rank(p[0]) + |p| - 1 <= rank(p[|p| - 1])
  {
    if |p| <= 1 {
    } else {
      var front := p[..|p| - 1];
      forall i | 0 <= i < |front| - 1
        ensures r(front[i], front[i + 1])
      {
        assert r(p[i], p[i + 1]);
      }
      RankRises(r, rank, front);
      assert r(p[|p| - 2], p[|p| - 2 + 1]);
    }
  }

  lemma RankedIsAcyclic<T(!new)>(r: Relation<T>, rank: T -> int)
    requires forall a, b :: r(a, b) ==> rank(a) < rank(b)
    ensures Acyclic(r)
  {
    forall a
      ensures !Reaches(r, a, a)
    {
      if p :| Joins(r, p, a, a) {
        RankRises(r, rank, p);
      }
    }
  }

  /** More positions than members: some member is met twice. */
  lemma {:induction false} Pigeonhole<T(!new)>(w: seq<T>, members: set<T>)
    requires |w| > |members| && forall x :: x in w ==> x in members
    ensures exists i, j :: 0 <= i < j < |w| && w[i] == w[j]
    decreases |w|
  {
    var last := |w| - 1;
    if i :| 0 <= i < last && w[i] == w[last] {
    } else {
      forall x | x in w[..last]
        ensures x in members - {w[last]}
      {
      }
      assert w[last] in members;
      Pigeonhole(w[..last], members - {w[last]});
      var i, j :| 0 <= i < j < last && w[..last][i] == w[..last][j];
      assert w[i] == w[j];
    }
  }

  ghost predicate Preceded<T(!new)>(r: Relation<T>, members: set<T>, v: T) {
    exists u :: u in members && r(u, v)
  }

  ghost predicate AllPreceded<T(!new)>(r: Relation<T>, members: set<T>) {
    forall v {:trigger Preceded(r, members, v)} :: v in members ==> Preceded(r, members, v)
  }

  /** Every member of `stuck` has a predecessor in it: walk backwards as far as you like. */
  lemma {:induction false} BackwardWalk<T(!new)>(r: Relation<T>, stuck: set<T>, c: T, k: nat) returns (w: seq<T>)
    requires c in stuck && AllPreceded(r, stuck)
    ensures |w| == k + 1 && Walk(r, w) && w[k] == c && forall x :: x in w ==> x in stuck
  {
    if k == 0 {
      w := [c];
    } else {
      var rest := BackwardWalk(r, stuck, c, k - 1);
      assert rest[0] in stuck && Preceded(r, stuck, rest[0]);
      var u :| u in stuck && r(u, rest[0]);
      w := [u] + rest;
      forall i | 0 <= i < |w| - 1
        ensures r(w[i], w[i + 1])
      {
        if i > 0 {
          assert r(rest[i - 1], rest[i - 1 + 1]);
        }
      }
    }
  }

  lemma SubWalk<T(!new)>(r: Relation<T>, w: seq<T>, i: nat, j: nat)
    requires Walk(r, w) && i < j < |w|
    ensures Reaches(r, w[i], w[j])
  {
    var p := w[i..j + 1];
    forall k | 0 <= k < |p| - 1
      ensures r(p[k], p[k + 1])
    {
      assert r(w[i + k], w[i + k + 1]);
    }
    assert Joins(r, p, w[i], w[j]);
  }

  /** Each member of such a set has a cycle among its ancestors (and need not lie on one). */
  lemma StuckHasCycle<T(!new)>(r: Relation<T>, stuck: set<T>, c: T) returns (x: T)
    requires c in stuck && AllPreceded(r, stuck)
    ensures Reaches(r, x, x) && Reaches(r, x, c)
  {
    var w := BackwardWalk(r, stuck, c, |stuck|);
    var i, j := Repeat(w, stuck);
    SubWalk(r, w, i, j);
    SubWalk(r, w, i, |w| - 1);
    x := w[i];
  }

  lemma Repeat<T(!new)>(w: seq<T>, members: set<T>) returns (i: nat, j: nat)
    requires |w| > |members| && forall x :: x in w ==> x in members
    ensures i < j < |w| && w[i] == w[j]
  {
    Pigeonhole(w, members);
    i, j :| 0 <= i < j < |w| && w[i] == w[j];
  }

  /** Walks are carried along a map that carries edges. */
  lemma ReachesMaps<A(!new), B(!new)>(r: Relation<A>, s: Relation<B>, f: A -> B, a: A, b: A)
    requires forall x, y :: r(x, y) ==> s(f(x), f(y))
    requires Reaches(r, a, b)
    ensures Reaches(s, f(a), f(b))
  {
    var p :| Joins(r, p, a, b);
    var q := seq(|p|, i requires 0 <= i < |p| => f(p[i]));
    forall i | 0 <= i < |q| - 1
      ensures s(q[i], q[i + 1])
    {
      assert r(p[i], p[i + 1]);
    }
    assert Joins(s, q, f(a), f(b));
  }

  ghost predicate Distinct<T>(s: seq<T>) {
    forall i, j :: 0 <= i < j < |s| ==> s[i] != s[j]
  }

  /** A closed walk that meets no node twice. */
  ghost predicate SimpleCycle<T>(r: Relation<T>, w: seq<T>) {
    Walk(r, w) && |w| >= 2 && w[0] == w[|w| - 1] && Distinct(w[..|w| - 1])
  }

  /** Every closed walk contains a simple cycle. */
  lemma {:induction false} CutToSimple<T(!new)>(r: Relation<T>, p: seq<T>) returns (w: seq<T>)
    requires Walk(r, p) && |p| >= 2 && p[0] == p[|p| - 1]
    ensures SimpleCycle(r, w)
    decreases |p|
  {
    var front := p[..|p| - 1];
    if Distinct(front) {
      w := p;
    } else {
      var i, j :| 0 <= i < j < |front| && front[i] == front[j];
      var part := p[i..j + 1];
      forall k | 0 <= k < |part| - 1
        ensures r(part[k], part[k + 1])
      {
        assert r(p[i + k], p[i + k + 1]);
      }
      w := CutToSimple(r, part);
    }
  }

  /** Edges lead forward only. */
  ghost predicate Forward<T>(r: Relation<T>, order: seq<T>) {
    forall i, j :: 0 <= i < |order| && 0 <= j < |order| && r(order[i], order[j]) ==> i < j
  }

  lemma OneMoreElement<T(!new)>(v: T, rest: seq<T>, members: set<T>)
    requires (set x | x in rest) == members
    ensures (set x | x in [v] + rest) == {v} + members
    ensures forall x :: x in rest <==> x in members
  {
    forall x
      ensures x in rest <==> x in members
    {
      assert x in rest <==> x in (set y | y in rest);
    }
    assert forall x :: x in [v] + rest <==> x == v || x in rest;
  }

  /** A finite set can be put into an order along an acyclic relation. */
  lemma {:induction false} Topological<T(!new)>(r: Relation<T>, members: set<T>) returns (order: seq<T>)
    requires Acyclic(r)
    ensures (set x | x in order) == members && Distinct(order) && Forward(r, order)
    decreases |members|
  {
    if members == {} {
      order := [];
    } else {
      var v := Source(r, members);
      var rest := Topological(r, members - {v});
      order := [v] + rest;
      OneMoreElement(v, rest, members - {v});
      assert members == {v} + (members - {v});
      forall x | x in order
        ensures !r(x, v)
      {
        assert x in members;
        assert r(x, v) ==> Preceded(r, members, v);
      }
      forall i, j | 0 <= i < |order| && 0 <= j < |order| && r(order[i], order[j])
        ensures i < j
      {
        if i > 0 && j > 0 {
          assert order[i] == rest[i - 1] && order[j] == rest[j - 1];
        }
      }
    }
  }

  lemma Source<T(!new)>(r: Relation<T>, members: set<T>) returns (v: T)
    requires Acyclic(r) && members != {}
    ensures v in members && !Preceded(r, members, v)
  {
    if AllPreceded(r, members) {
      var c :| c in members;
      var x := StuckHasCycle(r, members, c);
      assert false;
    }
    v :| v in members && !Preceded(r, members, v);
  }

  lemma {:induction false} Listed<T(!new)>(members: set<T>) returns (order: seq<T>)
    ensures (set x | x in order) == members && Distinct(order)
    decreases |members|
  {
    if members == {} {
      order := [];
    } else {
      var v :| v in members;
      var rest := Listed(members - {v});
      order := [v] + rest;
      OneMoreElement(v, rest, members - {v});
      assert members == {v} + (members - {v});
    }
  }
}
