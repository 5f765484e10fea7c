/** What the verdict of the dependency check owes to the order of its input. Events of one producer with
    one sequence number are ordered by their first occurrence (anvil_events/dependency_graph.py:45-51);
    here is, for every consistent set of events, exactly when that decides the verdict. */
module DependencyTies {
  import opened Graphs
  import opened DependencyGraph

  type Group = (string, int)

  function GroupOf(e: Event): Group {
    (e.producer, e.number)
  }

  ghost predicate Linked(members: set<Event>, g: Group, h: Group) {
    exists a, b :: EventDepends(members)(a, b) && GroupOf(a) == g && GroupOf(b) == h
  }

  /** The dependencies with the events of one producer and sequence number merged. A cause within such
      a group is a loop. */
  ghost function Contraction(members: set<Event>): Relation<Group> {
    (g, h) => Linked(members, g, h)
  }

  /** The verdict on consistent events. */
  ghost predicate SoundOrder(events: seq<Event>) {
    Acyclic(Depends(Unique(events)))
  }

  lemma {:induction false} UniqueOfDistinct(events: seq<Event>)
    requires DistinctIds(events)
    ensures Unique(events) == events
  {
    if events == [] {
    } else {
      var front, last := events[..|events| - 1], events[|events| - 1];
      forall i | 0 <= i < |front|
        ensures front[i] == events[i] && front[i].id != last.id
      {
      }
      UniqueOfDistinct(front);
      assert !HasId(front, last.id);
      assert events == front + [last];
    }
  }

  lemma DistinctEventsHaveDistinctIds(events: seq<Event>)
    requires Distinct(events) && ConsistentSet(Members(events))
    ensures DistinctIds(events)
  {
    forall i, j | 0 <= i < j < |events|
      ensures events[i].id != events[j].id
    {
      assert events[i] in Members(events) && events[j] in Members(events);
    }
  }

  // ---------------------------------------------------------------------------------
  // Some order is sound
  // ---------------------------------------------------------------------------------

  lemma SoundOrderIsAcyclic(events: seq<Event>)
    requires Consistent(events) && SoundOrder(events)
    ensures Acyclic(EventDepends(Members(events)))
  {
    var u := Unique(events);
    var weak := EventDepends(Members(events));
    var index: Event -> int := e => IndexAt(u, e);
    forall a, b | weak(a, b)
      ensures Depends(u)(index(a), index(b))
    {
      EventsMapToIndexes(events, a, b);
    }
    forall e | Reaches(weak, e, e)
      ensures Reaches(Depends(u), index(e), index(e))
    {
      ReachesMaps(weak, Depends(u), index, e, e);
    }
  }

  /** A topological order of the set is judged sound. */
  lemma TopologicalIsSound(members: set<Event>) returns (events: seq<Event>)
    requires ConsistentSet(members) && Acyclic(EventDepends(members))
    ensures Members(events) == members && SoundOrder(events)
  {
    var weak := EventDepends(members);
    events := Topological(weak, members);
    DistinctEventsHaveDistinctIds(events);
    UniqueOfDistinct(events);
    forall a, b | Depends(events)(a, b)
      ensures a < b
    {
      assert events[a] in members && events[b] in members;
      if events[a].producer == events[b].producer && events[a].number == events[b].number && !Causes(events, a, b) {
      } else {
        assert weak(events[a], events[b]);
      }
    }
    RankedIsAcyclic(Depends(events), (i: int) => i);
  }

  lemma SomeOrderIsSound(members: set<Event>)
    requires ConsistentSet(members)
    ensures (exists events :: Members(events) == members && SoundOrder(events)) <==> Acyclic(EventDepends(members))
  {
    if events :| Members(events) == members && SoundOrder(events) {
      ConsistencyOfSet(events);
      SoundOrderIsAcyclic(events);
    }
    if Acyclic(EventDepends(members)) {
      var events := TopologicalIsSound(members);
    }
  }

  // ---------------------------------------------------------------------------------
  // Every order is sound
  // ---------------------------------------------------------------------------------

  /** Along dependencies one goes on in the contraction, or stays in a group and moves to the right. */
  ghost predicate GoesOn(u: seq<Event>, members: set<Event>, a: int, b: int) {
    && 0 <= a < |u| && 0 <= b < |u|
    && (Reaches(Contraction(members), GroupOf(u[a]), GroupOf(u[b])) || (GroupOf(u[a]) == GroupOf(u[b]) && a < b))
  }

  lemma EdgeGoesOn(u: seq<Event>, members: set<Event>, a: int, b: int)
    requires (forall e :: e in u ==> e in members) && Depends(u)(a, b)
    ensures GoesOn(u, members, a, b)
  {
    assert u[a] in members && u[b] in members;
    if EventDepends(members)(u[a], u[b]) {
      assert Linked(members, GroupOf(u[a]), GroupOf(u[b]));
      EdgeReaches(Contraction(members), GroupOf(u[a]), GroupOf(u[b]));
    }
  }

  lemma GoesOnAgain(u: seq<Event>, members: set<Event>, a: int, b: int, c: int)
    requires GoesOn(u, members, a, b) && GoesOn(u, members, b, c)
    ensures GoesOn(u, members, a, c)
  {
    var r := Contraction(members);
    if Reaches(r, GroupOf(u[a]), GroupOf(u[b])) && Reaches(r, GroupOf(u[b]), GroupOf(u[c])) {
      ReachesTransitive(r, GroupOf(u[a]), GroupOf(u[b]), GroupOf(u[c]));
    }
  }

  lemma {:induction false} WalkGoesOn(u: seq<Event>, members: set<Event>, p: seq<int>)
    requires (forall e :: e in u ==> e in members) && Walk(Depends(u), p) && |p| >= 2
    ensures GoesOn(u, members, p[0], p[|p| - 1])
  {
    assert Depends(u)(p[0], p[1]);
    EdgeGoesOn(u, members, p[0], p[1]);
    if |p| == 2 {
    } else {
      var rest := p[1..];
      forall i | 0 <= i < |rest| - 1
        ensures Depends(u)(rest[i], rest[i + 1])
      {
        assert Depends(u)(p[i + 1], p[i + 1 + 1]);
      }
      WalkGoesOn(u, members, rest);
      GoesOnAgain(u, members, p[0], p[1], p[|p| - 1]);
    }
  }

  lemma AcyclicContractionIsSound(events: seq<Event>)
    requires Consistent(events) && Acyclic(Contraction(Members(events)))
    ensures SoundOrder(events)
  {
    UniqueFacts(events);
    var u := Unique(events);
    forall a
      ensures !Reaches(Depends(u), a, a)
    {
      if p :| Joins(Depends(u), p, a, a) {
        WalkGoesOn(u, Members(events), p);
      }
    }
  }

  // ---------------------------------------------------------------------------------
  // An order that is not sound
  // ---------------------------------------------------------------------------------

  /** `from[i]` and `to[i]` are the ends of a dependency behind the `i`th edge of a cycle of groups. */
  ghost predicate Ends(members: set<Event>, w: seq<Group>, from: seq<Event>, to: seq<Event>) {
    && |from| == |to| == |w| - 1
    && forall i :: 0 <= i < |from| ==>
         EventDepends(members)(from[i], to[i]) && GroupOf(from[i]) == w[i] && GroupOf(to[i]) == w[i + 1]
  }

  lemma {:induction false} FindEnds(members: set<Event>, w: seq<Group>) returns (from: seq<Event>, to: seq<Event>)
    requires Walk(Contraction(members), w)
    ensures Ends(members, w, from, to)
  {
    if |w| == 1 {
      from, to := [], [];
    } else {
      var front := w[..|w| - 1];
      forall i | 0 <= i < |front| - 1
        ensures Contraction(members)(front[i], front[i + 1])
      {
        assert Contraction(members)(w[i], w[i + 1]);
      }
      var from', to' := FindEnds(members, front);
      assert Contraction(members)(w[|w| - 2], w[|w| - 2 + 1]);
      var a, b :| EventDepends(members)(a, b) && GroupOf(a) == w[|w| - 2] && GroupOf(b) == w[|w| - 1];
      from, to := from' + [a], to' + [b];
    }
  }

  /** With all `to[i]` in front, each is ordered before the `from` of its group. */
  lemma TiesClose(members: set<Event>, w: seq<Group>, from: seq<Event>, to: seq<Event>, order: seq<Event>, j: int, i: int)
    requires SimpleCycle(Contraction(members), w) && Ends(members, w, from, to)
    requires 0 <= j < |to| && 0 <= i < |from| && w[i] == w[j + 1]
    requires |to| <= |order| && order[..|to|] == to && (forall e :: e in members ==> e in order)
    ensures Reaches(Depends(order), j, i)
  {
    var f :| 0 <= f < |order| && order[f] == from[i];
    assert order[j] == to[j] && order[i] == to[i];
    assert Causes(order, f, i) || Precedes(order, f, i);
    EdgeReaches(Depends(order), f, i);
    if f == j {
    } else {
      if f < |to| {
        assert to[f] == from[i] && w[f + 1] == w[j + 1];
        OneVisit(w, f, j);
      }
      assert Precedes(order, j, f);
      EdgeReaches(Depends(order), j, f);
      ReachesTransitive(Depends(order), j, f, i);
    }
  }

  /** A simple cycle comes to a node once. */
  lemma OneVisit(w: seq<Group>, i: int, j: int)
    requires |w| >= 2 && w[0] == w[|w| - 1] && Distinct(w[..|w| - 1])
    requires 0 <= i < |w| - 1 && 0 <= j < |w| - 1 && w[i + 1] == w[j + 1]
    ensures i == j
  {
    var front := w[..|w| - 1];
    var x, y := if i + 1 == |w| - 1 then 0 else i + 1, if j + 1 == |w| - 1 then 0 else j + 1;
    assert front[x] == w[i + 1] && front[y] == w[j + 1];
    assert x == y;
  }

  lemma {:induction false} CycleCloses(members: set<Event>, w: seq<Group>, from: seq<Event>, to: seq<Event>, order: seq<Event>, i: nat)
    requires SimpleCycle(Contraction(members), w) && Ends(members, w, from, to) && i < |to|
    requires |to| <= |order| && order[..|to|] == to && (forall e :: e in members ==> e in order)
    ensures Reaches(Depends(order), |to| - 1, i)
  {
    if i == 0 {
      TiesClose(members, w, from, to, order, |to| - 1, 0);
    } else {
      CycleCloses(members, w, from, to, order, i - 1);
      TiesClose(members, w, from, to, order, i - 1, i);
      ReachesTransitive(Depends(order), |to| - 1, i - 1, i);
    }
  }

  /** The members in an order that begins with `to`. */
  lemma Behind(members: set<Event>, to: seq<Event>) returns (events: seq<Event>)
    requires Distinct(to) && forall e :: e in to ==> e in members
    ensures Members(events) == members && Distinct(events) && |to| <= |events| && events[..|to|] == to
  {
    var rest := Listed(members - Members(to));
    events := to + rest;
    forall e
      ensures e in rest <==> e in members && e !in to
    {
      assert e in rest <==> e in Members(rest);
      assert e in to <==> e in Members(to);
    }
    forall e
      ensures e in Members(events) <==> e in members
    {
      assert e in events <==> e in to || e in rest;
    }
    forall i, j | 0 <= i < j < |events|
      ensures events[i] != events[j]
    {
      if i < |to| <= j {
        assert events[i] in to && events[j] in rest;
      }
    }
  }

  /** If the contraction has a cycle, some order is judged cyclic. */
  lemma CyclicContractionHasBadOrder(members: set<Event>) returns (events: seq<Event>)
    requires ConsistentSet(members) && !Acyclic(Contraction(members))
    ensures Members(events) == members && !SoundOrder(events)
  {
    var g :| Reaches(Contraction(members), g, g);
    var p :| Joins(Contraction(members), p, g, g);
    var w := CutToSimple(Contraction(members), p);
    var from, to := FindEnds(members, w);
    forall i, j | 0 <= i < j < |to|
      ensures to[i] != to[j]
    {
      if to[i] == to[j] {
        OneVisit(w, i, j);
      }
    }
    events := Behind(members, to);
    DistinctEventsHaveDistinctIds(events);
    UniqueOfDistinct(events);
    assert events[..|to|] == to;
    CycleCloses(members, w, from, to, events, |to| - 1);
  }

  lemma EveryOrderIsSound(members: set<Event>)
    requires ConsistentSet(members)
    ensures (forall events :: Members(events) == members ==> SoundOrder(events)) <==> Acyclic(Contraction(members))
  {
    if Acyclic(Contraction(members)) {
      forall events | Members(events) == members
        ensures SoundOrder(events)
      {
        ConsistencyOfSet(events);
        AcyclicContractionIsSound(events);
      }
    } else {
      var events := CyclicContractionHasBadOrder(members);
    }
  }

  // ---------------------------------------------------------------------------------
  // When order matters
  // ---------------------------------------------------------------------------------

  ghost predicate OrderFree(members: set<Event>) {
    forall one, other :: Members(one) == members && Members(other) == members ==> (SoundOrder(one) <==> SoundOrder(other))
  }

  /** The verdict on a consistent set of events is the same in every order if and only if the
      dependencies without ties have a cycle, or not even those between merged groups have one. */
  lemma OrderMattersExactly(members: set<Event>)
    requires ConsistentSet(members)
    ensures OrderFree(members) <==> !Acyclic(EventDepends(members)) || Acyclic(Contraction(members))
  {
    SomeOrderIsSound(members);
    EveryOrderIsSound(members);
    if Acyclic(EventDepends(members)) && !Acyclic(Contraction(members)) {
      var one := TopologicalIsSound(members);
      var other := CyclicContractionHasBadOrder(members);
    }
  }
}
