/** The dependency-graph checker (anvil_events/dependency_graph.py): deduplication, edges from
    explicit causes and producer order, and Kahn's algorithm over in-place indegrees. */
module DependencyGraph {
  import opened Basics
  import opened Graphs

  /** `rest` stands for the fields of the envelope that the checker never looks at. Two events
      have the same canonical JSON exactly when they are equal. */
  datatype Event = Event(id: string, producer: string, number: int, causes: seq<string>, rest: string)

  datatype Verdict = Sound | ConflictingEnvelopes(id: string) | DependencyCycle(id: string)

  // ---------------------------------------------------------------------------------
  // What the verdict is about
  // ---------------------------------------------------------------------------------

  /** No event id has two different envelopes. */
  ghost predicate Consistent(events: seq<Event>) {
    forall i, j :: 0 <= i < |events| && 0 <= j < |events| && events[i].id == events[j].id ==> events[i] == events[j]
  }

  predicate HasId(events: seq<Event>, id: string) {
    exists i :: 0 <= i < |events| && events[i].id == id
  }

  /** The first event of each id, in order of first occurrence. */
  function Unique(events: seq<Event>): seq<Event> {
    if events == [] then []
    else
      var front := Unique(events[..|events| - 1]);
      var e := events[|events| - 1];
      if HasId(front, e.id) then front else front + [e]
  }

  /** `a` is an explicit cause of `b`. */
  ghost predicate Causes(u: seq<Event>, a: int, b: int) {
    0 <= a < |u| && 0 <= b < |u| && u[a].id in u[b].causes
  }

  /** `a` precedes `b` in the order of their common producer; first occurrence breaks ties. */
  ghost predicate Precedes(u: seq<Event>, a: int, b: int) {
    && 0 <= a < |u| && 0 <= b < |u| && u[a].producer == u[b].producer
    && (u[a].number < u[b].number || (u[a].number == u[b].number && a < b))
  }

  ghost function Depends(u: seq<Event>): Relation<int> {
    (a, b) => Causes(u, a, b) || Precedes(u, a, b)
  }

  // ---------------------------------------------------------------------------------
  // Deduplication
  // ---------------------------------------------------------------------------------

  ghost predicate DistinctIds(u: seq<Event>) {
    forall i, j :: 0 <= i < j < |u| ==> u[i].id != u[j].id
  }

  lemma {:induction false} UniqueFacts(events: seq<Event>)
    ensures DistinctIds(Unique(events))
    ensures forall e :: e in Unique(events) ==> e in events
    ensures forall e :: e in events ==> HasId(Unique(events), e.id)
  {
    if events == [] {
    } else {
      var front := events[..|events| - 1];
      var last := events[|events| - 1];
      UniqueFacts(front);
      forall e | e in events
        ensures HasId(Unique(events), e.id)
      {
        var u := Unique(front);
        if e in front {
          var i :| 0 <= i < |u| && u[i].id == e.id;
          assert Unique(events)[i].id == e.id;
        } else {
          assert e == last;
          if !HasId(u, e.id) {
            assert Unique(events)[|u|].id == e.id;
          }
        }
      }
    }
  }

  /** Without conflicts, deduplication keeps exactly the events there are. */
  lemma UniqueKeeps(events: seq<Event>)
    requires Consistent(events)
    ensures forall e :: e in Unique(events) <==> e in events
  {
    UniqueFacts(events);
    var u := Unique(events);
    forall e | e in events
      ensures e in u
    {
      var i :| 0 <= i < |u| && u[i].id == e.id;
      assert u[i] in events;
    }
  }

  ghost predicate IndexOf(byId: map<string, int>, u: seq<Event>) {
    && (forall id :: id in byId ==> 0 <= byId[id] < |u| && u[byId[id]].id == id)
    && (forall i :: 0 <= i < |u| ==> u[i].id in byId && byId[u[i].id] == i)
  }

  /** A repeated event adds nothing; a new id adds one event; anything else is a conflict. */
  lemma ExtendSeen(seen: seq<Event>, event: Event)
    requires Consistent(seen)
    ensures if event in seen then Consistent(seen + [event]) && Unique(seen + [event]) == Unique(seen)
            else if HasId(Unique(seen), event.id) then
              exists i :: 0 <= i < |seen| && seen[i].id == event.id && seen[i] != event
            else Consistent(seen + [event]) && Unique(seen + [event]) == Unique(seen) + [event]
  {
    var all := seen + [event];
    assert all[..|all| - 1] == seen;
    UniqueFacts(seen);
    if event !in seen && HasId(Unique(seen), event.id) {
      var u := Unique(seen);
      var i :| 0 <= i < |u| && u[i].id == event.id;
      assert u[i] in seen;
    }
  }

  lemma Conflicts(events: seq<Event>, i: nat, j: nat)
    requires i < |events| && j < |events| && events[i].id == events[j].id && events[i] != events[j]
    ensures !Consistent(events)
  {
  }

  lemma TwoEnvelopes(events: seq<Event>, k: nat, first: Event)
    requires k < |events| && first in events[..k] && first.id == events[k].id && first != events[k]
    ensures !Consistent(events)
    ensures exists i, j :: 0 <= i < j < |events| && events[i].id == events[j].id == first.id && events[i] != events[j]
  {
    var at :| 0 <= at < k && events[..k][at] == first;
    assert events[at] == first;
    Conflicts(events, at, k);
  }

  /** The first `k` events are consistent, and `unique` holds their first occurrences. */
  ghost predicate Deduplicated(events: seq<Event>, k: nat, unique: seq<Event>, byId: map<string, int>) {
    k <= |events| && Consistent(events[..k]) && unique == Unique(events[..k]) && IndexOf(byId, unique)
  }

  /** The event that an index names is one of those read. */
  lemma KnownId(events: seq<Event>, k: nat, unique: seq<Event>, byId: map<string, int>, id: string)
    requires Deduplicated(events, k, unique, byId) && id in byId
    ensures 0 <= byId[id] < |unique| && unique[byId[id]].id == id && unique[byId[id]] in events[..k]
  {
    UniqueFacts(events[..k]);
  }

  lemma RepeatedEvent(events: seq<Event>, k: nat, unique: seq<Event>, byId: map<string, int>)
    requires Deduplicated(events, k, unique, byId) && k < |events| && events[k] in events[..k]
    ensures Deduplicated(events, k + 1, unique, byId)
  {
    assert events[..k + 1] == events[..k] + [events[k]];
    ExtendSeen(events[..k], events[k]);
  }

  lemma NewEvent(events: seq<Event>, k: nat, unique: seq<Event>, byId: map<string, int>)
    requires Deduplicated(events, k, unique, byId) && k < |events| && events[k].id !in byId
    ensures Deduplicated(events, k + 1, unique + [events[k]], byId[events[k].id := |unique|])
  {
    assert events[..k + 1] == events[..k] + [events[k]];
    ExtendSeen(events[..k], events[k]);
    UniqueFacts(events[..k]);
    assert !HasId(unique, events[k].id);
  }

  method Deduplicate(events: seq<Event>) returns (conflict: Option<string>, unique: seq<Event>, byId: map<string, int>)
    ensures conflict.None? <==> Consistent(events)
    ensures conflict.None? ==> unique == Unique(events) && IndexOf(byId, unique)
    ensures conflict.Some? ==>
      exists i, j :: 0 <= i < j < |events| && events[i].id == events[j].id == conflict.value && events[i] != events[j]
  {
    unique, byId := [], map[];
    for k := 0 to |events|
      invariant Deduplicated(events, k, unique, byId)
    {
      var event := events[k];
      if event.id in byId {
        KnownId(events, k, unique, byId, event.id);
        if unique[byId[event.id]] != event {
          TwoEnvelopes(events, k, unique[byId[event.id]]);
          conflict := Some(event.id);
          return;
        }
        RepeatedEvent(events, k, unique, byId);
      } else {
        NewEvent(events, k, unique, byId);
        byId := byId[event.id := |unique|];
        unique := unique + [event];
      }
    }
    assert events[..|events|] == events;
    conflict := None;
  }

  // ---------------------------------------------------------------------------------
  // Edges
  // ---------------------------------------------------------------------------------

  ghost function Edges(adjacency: seq<set<int>>): Relation<int> {
    (a, b) => 0 <= a < |adjacency| && b in adjacency[a]
  }

  /** The sources of the edges into `b`, leaving out those in `done`. */
  ghost function Sources(adjacency: seq<set<int>>, done: set<int>, b: int): set<int> {
    set a | 0 <= a < |adjacency| && a !in done && b in adjacency[a]
  }

  ghost predicate Counted(adjacency: seq<set<int>>, indegree: seq<int>) {
    && |adjacency| == |indegree|
    && (forall a, b :: 0 <= a < |adjacency| && b in adjacency[a] ==> 0 <= b < |adjacency|)
    && (forall b :: 0 <= b < |indegree| ==> indegree[b] == |Sources(adjacency, {}, b)|)
  }

  method AddEdge(adjacency: array<set<int>>, indegree: array<int>, a: int, b: int)
    requires adjacency.Length == indegree.Length && 0 <= a < adjacency.Length && 0 <= b < adjacency.Length
    requires Counted(adjacency[..], indegree[..])
    modifies adjacency, indegree
    ensures Counted(adjacency[..], indegree[..])
    ensures adjacency[..] == old(adjacency[..])[a := old(adjacency[a]) + {b}]
  {
    if b !in adjacency[a] {
      ghost var was := adjacency[..];
      adjacency[a] := adjacency[a] + {b};
      indegree[b] := indegree[b] + 1;
      forall v | 0 <= v < adjacency.Length
        ensures indegree[v] == |Sources(adjacency[..], {}, v)|
      {
        if v == b {
          assert Sources(adjacency[..], {}, v) == Sources(was, {}, v) + {a};
        } else {
          assert Sources(adjacency[..], {}, v) == Sources(was, {}, v);
        }
      }
    } else {
      assert adjacency[a] + {b} == adjacency[a];
    }
  }

  /** Sequence number and index of an event, ordered as tuples are. */
  type Key = (int, int)

  predicate Less(x: Key, y: Key) {
    x.0 < y.0 || (x.0 == y.0 && x.1 < y.1)
  }

  ghost predicate Ascending(s: seq<Key>) {
    forall i, j :: 0 <= i < j < |s| ==> !Less(s[j], s[i])
  }

  function Insert(x: Key, s: seq<Key>): seq<Key> {
    if s == [] || !Less(s[0], x) then [x] + s else [s[0]] + Insert(x, s[1..])
  }

  /** The library sort. */
  function Sort(s: seq<Key>): seq<Key> {
    if s == [] then [] else Insert(s[0], Sort(s[1..]))
  }

  lemma {:induction false} InsertSorts(x: Key, s: seq<Key>)
    requires Ascending(s)
    ensures Ascending(Insert(x, s)) && multiset(Insert(x, s)) == multiset(s) + multiset{x}
  {
    if s == [] || !Less(s[0], x) {
      assert multiset([x] + s) == multiset(s) + multiset{x};
    } else {
      InsertSorts(x, s[1..]);
      assert s == [s[0]] + s[1..];
      var rest := Insert(x, s[1..]);
      forall j | 0 <= j < |rest|
        ensures !Less(rest[j], s[0])
      {
        assert rest[j] in multiset(rest);
        assert rest[j] == x || rest[j] in s[1..];
      }
    }
  }

  lemma {:induction false} Sorts(s: seq<Key>)
    ensures Ascending(Sort(s)) && multiset(Sort(s)) == multiset(s)
  {
    if s == [] {
    } else {
      Sorts(s[1..]);
      InsertSorts(s[0], Sort(s[1..]));
      assert s == [s[0]] + s[1..];
    }
  }

  /** The keys of the events of one producer among the first `k`. */
  function Keys(u: seq<Event>, producer: string, k: nat): seq<Key>
    requires k <= |u|
  {
    if k == 0 then []
    else if u[k - 1].producer == producer then Keys(u, producer, k - 1) + [(u[k - 1].number, k - 1)]
    else Keys(u, producer, k - 1)
  }

  lemma {:induction false} KeysFacts(u: seq<Event>, producer: string, k: nat)
    requires k <= |u|
    ensures forall x :: x in Keys(u, producer, k) <==>
              0 <= x.1 < k && u[x.1].producer == producer && x.0 == u[x.1].number
    ensures forall i, j :: 0 <= i < j < |Keys(u, producer, k)| ==> Keys(u, producer, k)[i].1 < Keys(u, producer, k)[j].1
  {
    if k == 0 {
    } else {
      KeysFacts(u, producer, k - 1);
      var front := Keys(u, producer, k - 1);
      var last := (u[k - 1].number, k - 1);
      forall x
        ensures x in Keys(u, producer, k) <==>
                  0 <= x.1 < k && u[x.1].producer == producer && x.0 == u[x.1].number
      {
        assert x in front + [last] <==> x in front || x == last;
        assert x.1 == k - 1 && x.0 == u[k - 1].number ==> x == last;
      }
    }
  }

  /** The events of one producer in its order. */
  function Chain(u: seq<Event>, producer: string): seq<Key> {
    Sort(Keys(u, producer, |u|))
  }

  lemma {:induction false} DistinctMultiset(s: seq<Key>)
    requires forall i, j :: 0 <= i < j < |s| ==> s[i] != s[j]
    ensures forall x :: multiset(s)[x] <= 1
  {
    if s == [] {
    } else {
      var front := s[..|s| - 1];
      DistinctMultiset(front);
      assert s == front + [s[|s| - 1]];
    }
  }

  lemma CountedTwice(s: seq<Key>, i: nat, j: nat)
    requires i < j < |s| && s[i] == s[j]
    ensures multiset(s)[s[i]] >= 2
  {
    assert s == s[..j] + s[j..];
    assert s[i] in s[..j] && s[j] in s[j..];
    assert multiset(s) == multiset(s[..j]) + multiset(s[j..]);
  }

  lemma ChainFacts(u: seq<Event>, producer: string)
    ensures forall x :: x in Chain(u, producer) <==>
              0 <= x.1 < |u| && u[x.1].producer == producer && x.0 == u[x.1].number
    ensures forall i, j :: 0 <= i < j < |Chain(u, producer)| ==> Less(Chain(u, producer)[i], Chain(u, producer)[j])
  {
    var keys, chain := Keys(u, producer, |u|), Chain(u, producer);
    KeysFacts(u, producer, |u|);
    Sorts(keys);
    forall x
      ensures x in chain <==> x in keys
    {
      assert x in chain <==> x in multiset(chain);
      assert x in keys <==> x in multiset(keys);
    }
    DistinctMultiset(keys);
    forall i, j | 0 <= i < j < |chain|
      ensures Less(chain[i], chain[j])
    {
      if chain[i] == chain[j] {
        CountedTwice(chain, i, j);
      }
      assert chain[i] in keys && chain[j] in keys;
      assert !Less(chain[j], chain[i]);
    }
  }

  /** Consecutive members of the chain are joined by edges. */
  ghost predicate Chained(adjacency: seq<set<int>>, chain: seq<Key>, upTo: int) {
    forall k :: 0 <= k < upTo && k + 1 < |chain| ==> Edges(adjacency)(chain[k].1, chain[k + 1].1)
  }

  lemma {:induction false} ChainReaches(adjacency: seq<set<int>>, chain: seq<Key>, i: nat, j: nat)
    requires Chained(adjacency, chain, |chain|) && i < j < |chain|
    ensures Reaches(Edges(adjacency), chain[i].1, chain[j].1)
    decreases j - i
  {
    assert Edges(adjacency)(chain[i].1, chain[i + 1].1);
    EdgeReaches(Edges(adjacency), chain[i].1, chain[i + 1].1);
    if i + 1 < j {
      ChainReaches(adjacency, chain, i + 1, j);
      ReachesTransitive(Edges(adjacency), chain[i].1, chain[i + 1].1, chain[j].1);
    }
  }

  /** Chaining every producer's events yields the whole order of that producer. */
  lemma PrecedesReaches(u: seq<Event>, adjacency: seq<set<int>>, a: int, b: int)
    requires Precedes(u, a, b) && Chained(adjacency, Chain(u, u[a].producer), |Chain(u, u[a].producer)|)
    ensures Reaches(Edges(adjacency), a, b)
  {
    var chain := Chain(u, u[a].producer);
    ChainFacts(u, u[a].producer);
    assert (u[a].number, a) in chain && (u[b].number, b) in chain;
    var i :| 0 <= i < |chain| && chain[i] == (u[a].number, a);
    var j :| 0 <= j < |chain| && chain[j] == (u[b].number, b);
    ChainReaches(adjacency, chain, i, j);
  }

  ghost predicate SoundEdges(u: seq<Event>, adjacency: seq<set<int>>) {
    forall a, b :: Edges(adjacency)(a, b) ==> Depends(u)(a, b)
  }

  ghost predicate CausesInto(u: seq<Event>, adjacency: seq<set<int>>, upTo: int) {
    forall a, b :: Causes(u, a, b) && b < upTo ==> Edges(adjacency)(a, b)
  }

  /** Edges are only ever added. */
  ghost predicate Grows(before: seq<set<int>>, after: seq<set<int>>) {
    |before| == |after| && forall a :: 0 <= a < |before| ==> before[a] <= after[a]
  }

  method AddCauses(u: seq<Event>, byId: map<string, int>, index: int, adjacency: array<set<int>>, indegree: array<int>)
    requires IndexOf(byId, u) && 0 <= index < |u|
    requires adjacency.Length == indegree.Length == |u| && Counted(adjacency[..], indegree[..])
    requires SoundEdges(u, adjacency[..]) && CausesInto(u, adjacency[..], index)
    modifies adjacency, indegree
    ensures Counted(adjacency[..], indegree[..]) && SoundEdges(u, adjacency[..])
    ensures CausesInto(u, adjacency[..], index + 1)
  {
    var causes := u[index].causes;
    for c := 0 to |causes|
      invariant Counted(adjacency[..], indegree[..]) && SoundEdges(u, adjacency[..])
      invariant CausesInto(u, adjacency[..], index)
      invariant forall a :: 0 <= a < |u| && u[a].id in causes[..c] ==> Edges(adjacency[..])(a, index)
    {
      ghost var was := adjacency[..];
      if causes[c] in byId {
        var cause := byId[causes[c]];
        assert Depends(u)(cause, index);
        AddEdge(adjacency, indegree, cause, index);
        assert forall a, b :: Edges(was)(a, b) ==> Edges(adjacency[..])(a, b);
        assert forall a, b :: Edges(adjacency[..])(a, b) ==> Edges(was)(a, b) || (a == cause && b == index);
      }
      assert causes[..c + 1] == causes[..c] + [causes[c]];
    }
    assert causes[..|causes|] == causes;
  }

  method AddChain(ghost u: seq<Event>, ghost producer: string, keys: seq<Key>, adjacency: array<set<int>>, indegree: array<int>)
    requires keys == Keys(u, producer, |u|)
    requires adjacency.Length == indegree.Length == |u| && Counted(adjacency[..], indegree[..])
    requires SoundEdges(u, adjacency[..])
    modifies adjacency, indegree
    ensures Counted(adjacency[..], indegree[..]) && SoundEdges(u, adjacency[..])
    ensures Grows(old(adjacency[..]), adjacency[..])
    ensures Chained(adjacency[..], Chain(u, producer), |Chain(u, producer)|)
  {
    var chain := Sort(keys);
    ChainFacts(u, producer);
    var k := 0;
    while k + 1 < |chain|
      invariant 0 <= k
      invariant Counted(adjacency[..], indegree[..]) && SoundEdges(u, adjacency[..])
      invariant Grows(old(adjacency[..]), adjacency[..])
      invariant Chained(adjacency[..], chain, k)
    {
      ghost var was := adjacency[..];
      assert chain[k] in chain && chain[k + 1] in chain && Less(chain[k], chain[k + 1]);
      assert Depends(u)(chain[k].1, chain[k + 1].1);
      AddEdge(adjacency, indegree, chain[k].1, chain[k + 1].1);
      assert Grows(was, adjacency[..]);
      assert forall a, b :: Edges(adjacency[..])(a, b) ==> Edges(was)(a, b) || (a == chain[k].1 && b == chain[k + 1].1);
      assert forall a, b :: Edges(was)(a, b) ==> Edges(adjacency[..])(a, b);
      k := k + 1;
    }
  }

  /** The edges of the checker reach exactly what the dependencies reach. */
  ghost predicate Faithful(u: seq<Event>, adjacency: seq<set<int>>) {
    && SoundEdges(u, adjacency)
    && forall a, b :: Depends(u)(a, b) ==> Reaches(Edges(adjacency), a, b)
  }

  ghost predicate AllChained(u: seq<Event>, adjacency: seq<set<int>>) {
    forall a :: 0 <= a < |u| ==> Chained(adjacency, Chain(u, u[a].producer), |Chain(u, u[a].producer)|)
  }

  lemma ChainedGrows(before: seq<set<int>>, after: seq<set<int>>, chain: seq<Key>)
    requires Grows(before, after) && Chained(before, chain, |chain|)
    ensures Chained(after, chain, |chain|)
  {
    forall k | 0 <= k && k + 1 < |chain|
      ensures Edges(after)(chain[k].1, chain[k + 1].1)
    {
      assert Edges(before)(chain[k].1, chain[k + 1].1);
    }
  }

  lemma FaithfulWhenChained(u: seq<Event>, adjacency: seq<set<int>>)
    requires SoundEdges(u, adjacency) && CausesInto(u, adjacency, |u|) && AllChained(u, adjacency)
    ensures Faithful(u, adjacency)
  {
    forall a, b | Depends(u)(a, b)
      ensures Reaches(Edges(adjacency), a, b)
    {
      if Causes(u, a, b) {
        EdgeReaches(Edges(adjacency), a, b);
      } else {
        PrecedesReaches(u, adjacency, a, b);
      }
    }
  }

  method CollectEdges(u: seq<Event>, byId: map<string, int>, adjacency: array<set<int>>, indegree: array<int>)
    returns (byProducer: map<string, seq<Key>>)
    requires IndexOf(byId, u)
    requires adjacency.Length == indegree.Length == |u|
    requires forall a :: 0 <= a < |u| ==> adjacency[a] == {} && indegree[a] == 0
    modifies adjacency, indegree
    ensures Counted(adjacency[..], indegree[..]) && SoundEdges(u, adjacency[..])
    ensures CausesInto(u, adjacency[..], |u|)
    ensures forall p :: p in byProducer ==> byProducer[p] == Keys(u, p, |u|)
    ensures forall a :: 0 <= a < |u| ==> u[a].producer in byProducer
  {
    byProducer := map[];
    assert forall b :: Sources(adjacency[..], {}, b) == {};
    for index := 0 to |u|
      invariant Counted(adjacency[..], indegree[..]) && SoundEdges(u, adjacency[..])
      invariant CausesInto(u, adjacency[..], index)
      invariant forall p :: p in byProducer ==> byProducer[p] == Keys(u, p, index)
      invariant forall p :: p !in byProducer ==> Keys(u, p, index) == []
      invariant forall a :: 0 <= a < index ==> u[a].producer in byProducer
    {
      var producer := u[index].producer;
      var sofar := if producer in byProducer then byProducer[producer] else [];
      byProducer := byProducer[producer := sofar + [(u[index].number, index)]];
      AddCauses(u, byId, index, adjacency, indegree);
    }
  }

  method AddChains(u: seq<Event>, byProducer: map<string, seq<Key>>, adjacency: array<set<int>>, indegree: array<int>)
    requires adjacency.Length == indegree.Length == |u|
    requires Counted(adjacency[..], indegree[..]) && SoundEdges(u, adjacency[..])
    requires CausesInto(u, adjacency[..], |u|)
    requires forall p :: p in byProducer ==> byProducer[p] == Keys(u, p, |u|)
    requires forall a :: 0 <= a < |u| ==> u[a].producer in byProducer
    modifies adjacency, indegree
    ensures Counted(adjacency[..], indegree[..]) && Faithful(u, adjacency[..])
  {
    var todo := byProducer.Keys;
    while todo != {}
      invariant todo <= byProducer.Keys
      invariant Counted(adjacency[..], indegree[..]) && SoundEdges(u, adjacency[..])
      invariant CausesInto(u, adjacency[..], |u|)
      invariant forall p :: p in byProducer && p !in todo ==> Chained(adjacency[..], Chain(u, p), |Chain(u, p)|)
      decreases todo
    {
      var producer :| producer in todo;
      ghost var was := adjacency[..];
      AddChain(u, producer, byProducer[producer], adjacency, indegree);
      forall p | p in byProducer && p !in todo
        ensures Chained(adjacency[..], Chain(u, p), |Chain(u, p)|)
      {
        ChainedGrows(was, adjacency[..], Chain(u, p));
      }
      assert forall a, b :: Edges(was)(a, b) ==> Edges(adjacency[..])(a, b);
      todo := todo - {producer};
    }
    FaithfulWhenChained(u, adjacency[..]);
  }

  // ---------------------------------------------------------------------------------
  // Kahn's algorithm
  // ---------------------------------------------------------------------------------

  ghost function Elements(s: seq<int>): set<int> {
    set x | x in s
  }

  /** `ordered` and `queue` hold distinct nodes whose sources have all been ordered before. */
  ghost predicate Ordered(adjacency: seq<set<int>>, ordered: seq<int>, queue: seq<int>) {
    && (forall i, j :: 0 <= i < j < |ordered + queue| ==> (ordered + queue)[i] != (ordered + queue)[j])
    && (forall v :: v in ordered + queue ==> 0 <= v < |adjacency| && Sources(adjacency, Elements(ordered), v) == {})
    && (forall k :: 0 <= k < |ordered| ==> Sources(adjacency, Elements(ordered[..k]), ordered[k]) == {})
  }

  /** The indegrees count the sources still to be ordered; `current` is being taken out, and its
      targets in `todo` have not been told yet. */
  ghost predicate Degrees(adjacency: seq<set<int>>, indegree: seq<int>, done: set<int>, current: set<int>, todo: set<int>) {
    && |adjacency| == |indegree|
    && forall v :: 0 <= v < |indegree| ==>
         indegree[v] == |Sources(adjacency, if v in todo then done else done + current, v)|
  }

  /** A node outside `ordered` and `queue` still has a source to wait for. */
  ghost predicate Waiting(indegree: seq<int>, ordered: seq<int>, queue: seq<int>) {
    forall v :: 0 <= v < |indegree| && v !in ordered && v !in queue ==> indegree[v] > 0
  }

  lemma OneSourceLess(adjacency: seq<set<int>>, done: set<int>, current: int, v: int)
    requires 0 <= current < |adjacency| && current !in done && v in adjacency[current]
    ensures |Sources(adjacency, done, v)| == |Sources(adjacency, done + {current}, v)| + 1
  {
    assert Sources(adjacency, done, v) == Sources(adjacency, done + {current}, v) + {current};
  }

  lemma SameSources(adjacency: seq<set<int>>, done: set<int>, current: int, v: int)
    requires 0 <= current < |adjacency| && v !in adjacency[current]
    ensures Sources(adjacency, done, v) == Sources(adjacency, done + {current}, v)
  {
  }

  lemma TakeInOrder(adjacency: seq<set<int>>, ordered: seq<int>, current: int, queue: seq<int>)
    requires Ordered(adjacency, ordered, [current] + queue)
    ensures Ordered(adjacency, ordered + [current], queue)
  {
    var all := ordered + ([current] + queue);
    assert all == ordered + [current] + queue;
    assert Elements(ordered + [current]) == Elements(ordered) + {current};
    forall v | v in ordered + [current] + queue
      ensures Sources(adjacency, Elements(ordered + [current]), v) == {}
    {
      assert v in all && Sources(adjacency, Elements(ordered), v) == {};
      assert Sources(adjacency, Elements(ordered + [current]), v) <= Sources(adjacency, Elements(ordered), v);
    }
    forall k | 0 <= k < |ordered + [current]|
      ensures Sources(adjacency, Elements((ordered + [current])[..k]), (ordered + [current])[k]) == {}
    {
      assert (ordered + [current])[..k] == ordered[..k];
      if k == |ordered| {
        assert ordered[..k] == ordered && all[k] == current;
      }
    }
  }

  /** What is taken or queued is no target of `current`, which is taken for the first time. */
  lemma NoTargetBehind(adjacency: seq<set<int>>, ordered: seq<int>, current: int, queue: seq<int>)
    requires Ordered(adjacency, ordered, [current] + queue)
    ensures current !in ordered && 0 <= current < |adjacency|
    ensures forall v :: v in ordered || v == current || v in queue ==> v !in adjacency[current]
  {
    var all := ordered + ([current] + queue);
    assert all[|ordered|] == current && current in all;
    forall i | 0 <= i < |ordered|
      ensures ordered[i] != current
    {
      assert all[i] == ordered[i];
    }
    assert current !in Elements(ordered);
    forall v | v in ordered || v == current || v in queue
      ensures v !in adjacency[current]
    {
      assert v in all && current !in Sources(adjacency, Elements(ordered), v);
    }
  }

  lemma TakeCurrent(adjacency: seq<set<int>>, indegree: seq<int>, ordered: seq<int>, current: int, queue: seq<int>)
    requires Ordered(adjacency, ordered, [current] + queue)
    requires Degrees(adjacency, indegree, Elements(ordered), {}, {})
    ensures current !in ordered && 0 <= current < |adjacency|
    ensures Ordered(adjacency, ordered + [current], queue)
    ensures Degrees(adjacency, indegree, Elements(ordered), {current}, adjacency[current])
    ensures forall v :: v in ordered || v == current || v in queue ==> v !in adjacency[current]
  {
    TakeInOrder(adjacency, ordered, current, queue);
    NoTargetBehind(adjacency, ordered, current, queue);
    forall v | 0 <= v < |indegree|
      ensures indegree[v] == |Sources(adjacency, if v in adjacency[current] then Elements(ordered) else Elements(ordered) + {current}, v)|
    {
      assert Elements(ordered) + {} == Elements(ordered);
      if v !in adjacency[current] {
        SameSources(adjacency, Elements(ordered), current, v);
      }
    }
  }

  lemma Enqueue(adjacency: seq<set<int>>, ordered: seq<int>, queue: seq<int>, v: int)
    requires Ordered(adjacency, ordered, queue) && v !in ordered && v !in queue
    requires 0 <= v < |adjacency| && Sources(adjacency, Elements(ordered), v) == {}
    ensures Ordered(adjacency, ordered, queue + [v])
  {
    assert ordered + (queue + [v]) == ordered + queue + [v];
  }

  lemma TellTarget(adjacency: seq<set<int>>, indegree: seq<int>, done: set<int>, current: int, todo: set<int>, target: int)
    requires 0 <= current < |adjacency| && current !in done && target in todo && todo <= adjacency[current]
    requires 0 <= target < |adjacency| && Degrees(adjacency, indegree, done, {current}, todo)
    ensures indegree[target] > 0
    ensures Degrees(adjacency, indegree[target := indegree[target] - 1], done, {current}, todo - {target})
    ensures indegree[target] == 1 ==> Sources(adjacency, done + {current}, target) == {}
  {
    OneSourceLess(adjacency, done, current, target);
  }

  /** `current` is taken out, and its targets in `todo` are still to be told. */
  ghost predicate Telling(adjacency: seq<set<int>>, indegree: seq<int>, ordered: seq<int>, current: int, todo: set<int>, queue: seq<int>) {
    && 0 <= current < |adjacency| && current !in Elements(ordered) && todo <= adjacency[current]
    && (forall v :: v in todo ==> 0 <= v < |adjacency|)
    && Degrees(adjacency, indegree, Elements(ordered), {current}, todo)
    && Ordered(adjacency, ordered + [current], queue)
    && Waiting(indegree, ordered + [current], queue)
    && forall v :: v in queue || v in ordered || v == current ==> v !in todo
  }

  lemma StartsTelling(adjacency: seq<set<int>>, indegree: seq<int>, ordered: seq<int>, current: int, waiting: seq<int>)
    requires forall a, b :: 0 <= a < |adjacency| && b in adjacency[a] ==> 0 <= b < |adjacency|
    requires Ordered(adjacency, ordered, [current] + waiting)
    requires Degrees(adjacency, indegree, Elements(ordered), {}, {})
    requires Waiting(indegree, ordered, [current] + waiting)
    ensures 0 <= current < |adjacency| && Telling(adjacency, indegree, ordered, current, adjacency[current], waiting)
  {
    TakeCurrent(adjacency, indegree, ordered, current, waiting);
  }

  lemma AllTold(adjacency: seq<set<int>>, indegree: seq<int>, ordered: seq<int>, current: int, queue: seq<int>)
    requires Telling(adjacency, indegree, ordered, current, {}, queue)
    ensures Degrees(adjacency, indegree, Elements(ordered + [current]), {}, {})
  {
    assert Elements(ordered + [current]) == Elements(ordered) + {current};
    assert Elements(ordered) + {current} + {} == Elements(ordered) + {current};
  }

  /** Take `current` out: tell its targets and queue those with nothing left to wait for. */
  method Relax(adjacency: array<set<int>>, indegree: array<int>, ghost ordered: seq<int>, current: int, waiting: seq<int>)
    returns (queue: seq<int>)
    requires adjacency.Length == indegree.Length
    requires forall a, b :: 0 <= a < adjacency.Length && b in adjacency[a] ==> 0 <= b < adjacency.Length
    requires Ordered(adjacency[..], ordered, [current] + waiting)
    requires Degrees(adjacency[..], indegree[..], Elements(ordered), {}, {})
    requires Waiting(indegree[..], ordered, [current] + waiting)
    modifies indegree
    ensures Ordered(adjacency[..], ordered + [current], queue)
    ensures Degrees(adjacency[..], indegree[..], Elements(ordered + [current]), {}, {})
    ensures Waiting(indegree[..], ordered + [current], queue)
  {
    ghost var edges := adjacency[..];
    StartsTelling(edges, indegree[..], ordered, current, waiting);
    queue := waiting;
    var todo := adjacency[current];
    while todo != {}
      invariant Telling(edges, indegree[..], ordered, current, todo, queue)
      decreases todo
    {
      var target :| target in todo;
      queue := Tell(edges, indegree, ordered, current, todo, target, queue);
      todo := todo - {target};
    }
    AllTold(edges, indegree[..], ordered, current, queue);
  }

  /** One source of `target` less to wait for. */
  method Tell(ghost adjacency: seq<set<int>>, indegree: array<int>, ghost ordered: seq<int>, ghost current: int,
              ghost todo: set<int>, target: int, waiting: seq<int>) returns (queue: seq<int>)
    requires Telling(adjacency, indegree[..], ordered, current, todo, waiting) && target in todo
    modifies indegree
    ensures Telling(adjacency, indegree[..], ordered, current, todo - {target}, queue)
  {
    TellTarget(adjacency, indegree[..], Elements(ordered), current, todo, target);
    ghost var was := indegree[..];
    indegree[target] := indegree[target] - 1;
    assert indegree[..] == was[target := was[target] - 1];
    queue := waiting;
    if indegree[target] == 0 {
      assert Elements(ordered + [current]) == Elements(ordered) + {current};
      Enqueue(adjacency, ordered + [current], queue, target);
      queue := queue + [target];
    }
  }

  /** Every node left out of the order waits for another one left out. */
  ghost predicate Stuck(adjacency: seq<set<int>>, ordered: seq<int>) {
    AllPreceded(Edges(adjacency), LeftOut(adjacency, ordered))
  }

  ghost function LeftOut(adjacency: seq<set<int>>, ordered: seq<int>): set<int> {
    set v | 0 <= v < |adjacency| && v !in ordered
  }

  /** The nodes without a source. */
  method Roots(adjacency: array<set<int>>, indegree: array<int>) returns (queue: seq<int>)
    requires Counted(adjacency[..], indegree[..])
    ensures Ordered(adjacency[..], [], queue)
    ensures Waiting(indegree[..], [], queue)
  {
    queue := [];
    assert Elements([]) == {};
    for index := 0 to indegree.Length
      invariant Ordered(adjacency[..], [], queue)
      invariant forall v :: v in queue <==> 0 <= v < index && indegree[v] == 0
    {
      if indegree[index] == 0 {
        assert Sources(adjacency[..], {}, index) == {};
        Enqueue(adjacency[..], [], queue, index);
        queue := queue + [index];
      }
    }
    forall v | 0 <= v < indegree.Length && v !in queue
      ensures indegree[v] > 0
    {
      assert indegree[v] == |Sources(adjacency[..], {}, v)|;
    }
  }

  lemma NobodyTold(adjacency: seq<set<int>>, indegree: seq<int>)
    requires Counted(adjacency, indegree)
    ensures Degrees(adjacency, indegree, Elements([]), {}, {})
  {
    assert Elements([]) + {} == {};
  }

  lemma NobodyServed(adjacency: seq<set<int>>, indegree: seq<int>, ordered: seq<int>)
    requires Degrees(adjacency, indegree, Elements(ordered), {}, {}) && Waiting(indegree, ordered, [])
    ensures Stuck(adjacency, ordered)
  {
    var left := LeftOut(adjacency, ordered);
    forall v | v in left
      ensures Preceded(Edges(adjacency), left, v)
    {
      assert Elements(ordered) + {} == Elements(ordered);
      var sources := Sources(adjacency, Elements(ordered), v);
      assert |sources| > 0;
      var a :| a in sources;
      assert a in left && Edges(adjacency)(a, v);
    }
  }

  method Kahn(adjacency: array<set<int>>, indegree: array<int>) returns (ordered: seq<int>)
    requires Counted(adjacency[..], indegree[..])
    modifies indegree
    ensures Ordered(adjacency[..], ordered, []) && Stuck(adjacency[..], ordered)
  {
    var queue := Roots(adjacency, indegree);
    NobodyTold(adjacency[..], indegree[..]);
    ordered := [];
    ghost var remaining := set v | 0 <= v < indegree.Length && v !in ordered;
    while queue != []
      invariant Ordered(adjacency[..], ordered, queue)
      invariant Degrees(adjacency[..], indegree[..], Elements(ordered), {}, {})
      invariant Waiting(indegree[..], ordered, queue)
      invariant remaining == set v | 0 <= v < indegree.Length && v !in ordered
      decreases remaining
    {
      var current := queue[0];
      assert queue == [current] + queue[1..];
      TakeCurrent(adjacency[..], indegree[..], ordered, current, queue[1..]);
      queue := Relax(adjacency, indegree, ordered, current, queue[1..]);
      ordered := ordered + [current];
      assert current in remaining;
      remaining := remaining - {current};
    }
    NobodyServed(adjacency[..], indegree[..], ordered);
  }

  // ---------------------------------------------------------------------------------
  // The checker
  // ---------------------------------------------------------------------------------

  function Position(ordered: seq<int>, v: int): int {
    if i :| 0 <= i < |ordered| && ordered[i] == v && forall j :: 0 <= j < i ==> ordered[j] != v then i else -1
  }

  /** A complete order is a rank that every edge raises. */
  lemma CompleteIsAcyclic(adjacency: seq<set<int>>, ordered: seq<int>)
    requires Ordered(adjacency, ordered, [])
    requires forall v :: 0 <= v < |adjacency| ==> v in ordered
    requires forall a, b :: 0 <= a < |adjacency| && b in adjacency[a] ==> 0 <= b < |adjacency|
    ensures Acyclic(Edges(adjacency))
  {
    var rank: int -> int := v => Position(ordered, v);
    forall a, b | Edges(adjacency)(a, b)
      ensures rank(a) < rank(b)
    {
      assert ordered + [] == ordered;
      assert b in ordered;
      var k :| 0 <= k < |ordered| && ordered[k] == b;
      assert a !in Sources(adjacency, Elements(ordered[..k]), b);
      var i :| 0 <= i < k && ordered[i] == a;
      assert Position(ordered, b) == k && Position(ordered, a) == i;
    }
    RankedIsAcyclic(Edges(adjacency), rank);
  }

  /** A node that was never ordered has a cycle among its ancestors. */
  ghost predicate BehindCycle(u: seq<Event>, c: int) {
    exists x :: Reaches(Depends(u), x, x) && Reaches(Depends(u), x, c)
  }

  lemma AcyclicTransfers(u: seq<Event>, adjacency: seq<set<int>>)
    requires Faithful(u, adjacency) && Acyclic(Edges(adjacency))
    ensures Acyclic(Depends(u))
  {
    forall a
      ensures !Reaches(Depends(u), a, a)
    {
      if Reaches(Depends(u), a, a) {
        ReachesExpands(Edges(adjacency), Depends(u), a, a);
      }
    }
  }

  lemma SoundReaches(u: seq<Event>, adjacency: seq<set<int>>, a: int, b: int)
    requires SoundEdges(u, adjacency) && Reaches(Edges(adjacency), a, b)
    ensures Reaches(Depends(u), a, b)
  {
    forall x, y | Edges(adjacency)(x, y)
      ensures Reaches(Depends(u), x, y)
    {
      EdgeReaches(Depends(u), x, y);
    }
    ReachesExpands(Depends(u), Edges(adjacency), a, b);
  }

  lemma StuckIsBehindCycle(u: seq<Event>, adjacency: seq<set<int>>, ordered: seq<int>, c: int)
    requires SoundEdges(u, adjacency) && Stuck(adjacency, ordered) && 0 <= c < |adjacency| && c !in ordered
    ensures BehindCycle(u, c) && !Acyclic(Depends(u))
  {
    var x := StuckHasCycle(Edges(adjacency), LeftOut(adjacency, ordered), c);
    SoundReaches(u, adjacency, x, x);
    SoundReaches(u, adjacency, x, c);
  }

  /** Order the graph; the first node left out, if any, is to blame. */
  method Blame(u: seq<Event>, adjacency: array<set<int>>, indegree: array<int>) returns (cycle: int)
    requires |u| == adjacency.Length && Counted(adjacency[..], indegree[..]) && Faithful(u, adjacency[..])
    modifies indegree
    ensures 0 <= cycle <= |u|
    ensures cycle == |u| ==> Acyclic(Depends(u))
    ensures cycle < |u| ==> BehindCycle(u, cycle) && !Acyclic(Depends(u))
  {
    var ordered := Kahn(adjacency, indegree);
    cycle := 0;
    while cycle < |u| && cycle in ordered
      invariant 0 <= cycle <= |u|
      invariant forall v :: 0 <= v < cycle ==> v in ordered
    {
      cycle := cycle + 1;
    }
    if cycle < |u| {
      StuckIsBehindCycle(u, adjacency[..], ordered, cycle);
    } else {
      CompleteIsAcyclic(adjacency[..], ordered);
      AcyclicTransfers(u, adjacency[..]);
    }
  }

  method Check(events: seq<Event>) returns (verdict: Verdict)
    ensures verdict.Sound? <==> Consistent(events) && Acyclic(Depends(Unique(events)))
    ensures verdict.ConflictingEnvelopes? <==> !Consistent(events)
    ensures verdict.ConflictingEnvelopes? ==>
      exists i, j :: 0 <= i < j < |events| && events[i].id == events[j].id == verdict.id && events[i] != events[j]
    ensures verdict.DependencyCycle? ==>
      exists c :: 0 <= c < |Unique(events)| && Unique(events)[c].id == verdict.id && BehindCycle(Unique(events), c)
  {
    var conflict, unique, byId := Deduplicate(events);
    if conflict.Some? {
      return ConflictingEnvelopes(conflict.value);
    }
    var adjacency := new set<int>[|unique|](_ => {});
    var indegree := new int[|unique|](_ => 0);
    var byProducer := CollectEdges(unique, byId, adjacency, indegree);
    AddChains(unique, byProducer, adjacency, indegree);
    var cycle := Blame(unique, adjacency, indegree);
    verdict := if cycle < |unique| then DependencyCycle(unique[cycle].id) else Sound;
  }

  // ---------------------------------------------------------------------------------
  // Independence of order and repetition
  // ---------------------------------------------------------------------------------

  ghost function Members(events: seq<Event>): set<Event> {
    set e | e in events
  }

  /** The dependencies of a set of events, with no reference to positions. */
  ghost function EventDepends(members: set<Event>): Relation<Event> {
    (a, b) => a in members && b in members &&
      (a.id in b.causes || (a.producer == b.producer && a.number < b.number))
  }

  /** No two events share producer and sequence number, as holds of validated envelopes. */
  ghost predicate DistinctNumbers(members: set<Event>) {
    forall a, b :: a in members && b in members && a.producer == b.producer && a.number == b.number ==> a == b
  }

  ghost predicate ConsistentSet(members: set<Event>) {
    forall a, b :: a in members && b in members && a.id == b.id ==> a == b
  }

  lemma ConsistencyOfSet(events: seq<Event>)
    ensures Consistent(events) <==> ConsistentSet(Members(events))
  {
    if ConsistentSet(Members(events)) {
      forall i, j | 0 <= i < |events| && 0 <= j < |events| && events[i].id == events[j].id
        ensures events[i] == events[j]
      {
        assert events[i] in Members(events) && events[j] in Members(events);
      }
    }
    if Consistent(events) {
      forall a, b | a in Members(events) && b in Members(events) && a.id == b.id
        ensures a == b
      {
        var i :| 0 <= i < |events| && events[i] == a;
        var j :| 0 <= j < |events| && events[j] == b;
      }
    }
  }

  function EventAt(u: seq<Event>, i: int): Event {
    if 0 <= i < |u| then u[i] else Event("", "", 0, [], "")
  }

  function IndexAt(u: seq<Event>, e: Event): int {
    if i :| 0 <= i < |u| && u[i] == e && forall j :: 0 <= j < i ==> u[j] != e then i else -1
  }

  lemma {:induction false} IndexAtFinds(u: seq<Event>, e: Event, n: nat)
    requires n <= |u| && e in u[..n]
    ensures 0 <= IndexAt(u, e) < |u| && u[IndexAt(u, e)] == e
  {
    if e in u[..n - 1] {
      IndexAtFinds(u, e, n - 1);
    } else {
      assert u[n - 1] == e && forall j :: 0 <= j < n - 1 ==> u[j] != e;
    }
  }

  lemma IndexIsUnique(u: seq<Event>, e: Event)
    requires e in u
    ensures 0 <= IndexAt(u, e) < |u| && u[IndexAt(u, e)] == e
  {
    assert u[..|u|] == u;
    IndexAtFinds(u, e, |u|);
  }

  lemma IndexesMapToEvents(events: seq<Event>, a: int, b: int)
    requires Consistent(events) && DistinctNumbers(Members(events)) && Depends(Unique(events))(a, b)
    ensures EventDepends(Members(events))(EventAt(Unique(events), a), EventAt(Unique(events), b))
  {
    UniqueFacts(events);
    assert Unique(events)[a] in events && Unique(events)[b] in events;
  }

  lemma EventsMapToIndexes(events: seq<Event>, a: Event, b: Event)
    requires Consistent(events) && EventDepends(Members(events))(a, b)
    ensures Depends(Unique(events))(IndexAt(Unique(events), a), IndexAt(Unique(events), b))
  {
    UniqueKeeps(events);
    IndexIsUnique(Unique(events), a);
    IndexIsUnique(Unique(events), b);
  }

  /** With distinct sequence numbers, positions do not matter to the dependencies. */
  lemma AcyclicOfSet(events: seq<Event>)
    requires Consistent(events) && DistinctNumbers(Members(events))
    ensures Acyclic(Depends(Unique(events))) <==> Acyclic(EventDepends(Members(events)))
  {
    var u := Unique(events);
    var byIndex, bySet := Depends(u), EventDepends(Members(events));
    var at: int -> Event := i => EventAt(u, i);
    var index: Event -> int := e => IndexAt(u, e);
    forall a, b | byIndex(a, b)
      ensures bySet(at(a), at(b))
    {
      IndexesMapToEvents(events, a, b);
    }
    forall a, b | bySet(a, b)
      ensures byIndex(index(a), index(b))
    {
      EventsMapToIndexes(events, a, b);
    }
    forall a | Reaches(byIndex, a, a)
      ensures Reaches(bySet, at(a), at(a))
    {
      ReachesMaps(byIndex, bySet, at, a, a);
    }
    forall e | Reaches(bySet, e, e)
      ensures Reaches(byIndex, index(e), index(e))
    {
      ReachesMaps(bySet, byIndex, index, e, e);
    }
  }

  /** The verdict depends only on which events there are, not on their order or repetition. */
  lemma VerdictIsOrderFree(one: seq<Event>, other: seq<Event>)
    requires Members(one) == Members(other) && DistinctNumbers(Members(one))
    ensures Consistent(one) <==> Consistent(other)
    ensures Consistent(one) ==> (Acyclic(Depends(Unique(one))) <==> Acyclic(Depends(Unique(other))))
  {
    ConsistencyOfSet(one);
    ConsistencyOfSet(other);
    if Consistent(one) {
      AcyclicOfSet(one);
      AcyclicOfSet(other);
    }
  }

  const EFFECT := Event("a", "p", 1, ["b"], "")
  const CAUSE := Event("b", "p", 1, [], "")

  lemma PairIsUnique(a: Event, b: Event)
    requires a.id != b.id
    ensures Unique([a, b]) == [a, b]
  {
    assert [a, b][..1] == [a] && [a][..0] == [];
    assert Unique([a]) == [a] && !HasId([a], b.id);
  }

  /** Two events with one sequence number are ordered by first occurrence, so for them order matters. */
  lemma TiesAreOrderSensitive()
    ensures Members([EFFECT, CAUSE]) == Members([CAUSE, EFFECT])
    ensures !Acyclic(Depends(Unique([EFFECT, CAUSE])))
    ensures Acyclic(Depends(Unique([CAUSE, EFFECT])))
  {
    PairIsUnique(EFFECT, CAUSE);
    PairIsUnique(CAUSE, EFFECT);
    var loop := Depends([EFFECT, CAUSE]);
    assert Precedes([EFFECT, CAUSE], 0, 1) && Causes([EFFECT, CAUSE], 1, 0);
    EdgeReaches(loop, 0, 1);
    EdgeReaches(loop, 1, 0);
    ReachesTransitive(loop, 0, 1, 0);
    RankedIsAcyclic(Depends([CAUSE, EFFECT]), (i: int) => i);
  }
}
