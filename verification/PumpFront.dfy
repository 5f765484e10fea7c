/** Which events the pump gets to, whatever the broker answers (anvil_events/runtime/delivery.py, `run`):
    exactly those with less than a full batch of deliverable events in front of them. */
module PumpFront {
  import opened Basics
  import opened StoreTables
  import opened StoreJoin
  import opened StoreRuns
  import opened Delivery
  import opened Pump
  import opened PumpRuns
  import opened PumpTurns
  import opened PumpProgress

  /** Pending, with its text intact. */
  ghost predicate Deliverable(s: Store, id: string) {
    IsPending(s, id) && s.events[id].damaged.None?
  }

  /** The deliverable events in rows before that of `id`. */
  ghost function InFront(s: Store, id: string): set<string>
    requires id in s.events
  {
    set o | o in s.events && Deliverable(s, o) && s.events[o].rowId < s.events[id].rowId
  }

  // ---------------------------------------------------------------------------------
  // Counting
  // ---------------------------------------------------------------------------------

  lemma {:induction false} IdsCount(events: seq<Event>)
    requires forall i, j :: 0 <= i < j < |events| ==> events[i].id != events[j].id
    ensures |Ids(events)| == |events|
  {
    if events == [] {
      assert Ids(events) == {};
    } else {
      DropFirst(events);
      IdsCount(events[1..]);
      assert events[0].id !in Ids(events[1..]);
    }
  }

  lemma {:induction false} SubsetIsSmaller(a: set<string>, b: set<string>)
    requires a <= b
    ensures |a| <= |b|
    decreases |a|
  {
    if id :| id in a {
      SubsetIsSmaller(a - {id}, b - {id});
    }
  }

  function EventsOf(rows: seq<Row>): seq<Event> {
    seq(|rows|, i requires 0 <= i < |rows| => rows[i].event)
  }

  /** Intact rows before that of `id` are no more than there are events in front of it. */
  lemma FrontHolds(s: Store, k: nat, n: nat, id: string)
    requires Sane(s) && id in s.events && n <= |PendingFrom(s, k)| && Intact(PendingFrom(s, k), n)
    requires forall i :: 0 <= i < n ==> PendingFrom(s, k)[i].rowId < s.events[id].rowId
    ensures n <= |InFront(s, id)|
  {
    var all := PendingFrom(s, k);
    var events := EventsOf(all[..n]);
    PendingFacts(s, k);
    PendingDistinct(s, k);
    IdsCount(events);
    forall e | e in events
      ensures e.id in InFront(s, id)
    {
      var i :| 0 <= i < n && events[i] == e;
      assert InStore(s, all[i]);
    }
    SubsetIsSmaller(Ids(events), InFront(s, id));
  }

  /** What is fresh in rows before that of `id` is in front of it. */
  lemma FreshInFront(s: Store, k: nat, n: nat, seen: set<string>, blocked: set<string>, id: string)
    requires Sane(s) && id in s.events && n <= |PendingFrom(s, k)|
    requires forall i :: 0 <= i < n ==> PendingFrom(s, k)[i].rowId < s.events[id].rowId
    ensures Ids(Fresh(PendingFrom(s, k)[..n], seen, blocked)) <= InFront(s, id)
  {
    var rows := PendingFrom(s, k)[..n];
    PendingFacts(s, k);
    FreshFromRows(rows, seen, blocked);
    forall e | e in Fresh(rows, seen, blocked)
      ensures e.id in InFront(s, id)
    {
      var i :| 0 <= i < n && rows[i].event == e && Wanted(rows[i], seen, blocked);
      assert InStore(s, rows[i]);
    }
  }

  /** No event comes twice in a selection. */
  lemma PickedCount(s: Store, k: nat, n: nat, seen: set<string>, blocked: set<string>)
    requires Sane(s) && n <= |PendingFrom(s, k)|
    ensures var events := Fresh(PendingFrom(s, k)[..n], seen, blocked); |Ids(events)| == |events|
  {
    var rows := PendingFrom(s, k)[..n];
    PendingFacts(s, k);
    FreshInOrder(s, rows, seen, blocked);
    IdsCount(Fresh(rows, seen, blocked));
  }

  // ---------------------------------------------------------------------------------
  // An event near the front is picked
  // ---------------------------------------------------------------------------------

  /** The scan does not stop short of an event with less than a batch in front of it. */
  lemma ScanReaches(p: Pump, s: Store, n: nat, blocked: set<string>, id: string)
    requires Sane(s) && Start(p.position) == 0 && Deliverable(s, id) && |InFront(s, id)| < BATCH
    requires n <= |PendingFrom(s, 1)| && Intact(PendingFrom(s, 1), n)
    requires n == |PendingFrom(s, 1)| || n == 4 * BATCH || |Fresh(PendingFrom(s, 1)[..n], p.seen, blocked)| == BATCH
    ensures s.events[id] in PendingFrom(s, 1)[..n] && s.events[id].event.id == id
  {
    var all := PendingFrom(s, 1);
    var i := RowIsListed(s, p.position, id);
    PendingFacts(s, 1);
    if n <= i {
      FrontHolds(s, 1, n, id);
      FreshInFront(s, 1, n, p.seen, blocked, id);
      PickedCount(s, 1, n, p.seen, blocked);
      SubsetIsSmaller(Ids(Fresh(all[..n], p.seen, blocked)), InFront(s, id));
      assert false;
    }
    assert all[..n][i] == s.events[id];
  }

  /** What a selection from the beginning that repairs nothing looked at and picked. */
  lemma PicksFromStart(p: Pump, s: Store, turn: Turn) returns (n: nat)
    requires Sane(s) && Start(p.position) == 0 && Selecting(p, s, turn).repaired == 0
    ensures n <= |PendingFrom(s, 1)| && Intact(PendingFrom(s, 1), n)
    ensures var picked := Selecting(p, s, turn).selected;
      && picked == Fresh(PendingFrom(s, 1)[..n], p.seen, Blocked(p.retry, turn.selecting))
      && (n == |PendingFrom(s, 1)| || n == 4 * BATCH || |picked| == BATCH)
  {
    n := SelectFacts(s, BATCH, p.seen, Blocked(p.retry, turn.selecting), p.position, 4 * BATCH, turn.wall);
  }

  /** A selection from the beginning that repairs nothing picks a due event with less than a batch in
      front of it. */
  lemma FrontIsPicked(p: Pump, s: Store, turn: Turn, id: string)
    requires Sane(s) && SeenInv(s, p, {}) && Start(p.position) == 0
    requires IsDue(s, p, turn.selecting, id) && |InFront(s, id)| < BATCH
    requires Selecting(p, s, turn).repaired == 0
    ensures id in Ids(Selecting(p, s, turn).selected)
  {
    var n := PicksFromStart(p, s, turn);
    ReachedIsFresh(p, s, n, Blocked(p.retry, turn.selecting), id);
  }

  lemma ReachedIsFresh(p: Pump, s: Store, n: nat, blocked: set<string>, id: string)
    requires Sane(s) && Start(p.position) == 0 && Deliverable(s, id) && |InFront(s, id)| < BATCH
    requires n <= |PendingFrom(s, 1)| && Intact(PendingFrom(s, 1), n) && id !in blocked && id !in p.seen
    requires n == |PendingFrom(s, 1)| || n == 4 * BATCH || |Fresh(PendingFrom(s, 1)[..n], p.seen, blocked)| == BATCH
    ensures id in Ids(Fresh(PendingFrom(s, 1)[..n], p.seen, blocked))
  {
    ScanReaches(p, s, n, blocked, id);
    FreshKeeps(PendingFrom(s, 1)[..n], s.events[id], p.seen, blocked);
  }

  // ---------------------------------------------------------------------------------
  // And so it is attempted soon
  // ---------------------------------------------------------------------------------

  /** Turns after which an event near the front has been attempted. */
  ghost function Turns(s: Store, p: Pump): int {
    if Start(p.position) > 0 then 2 + s.nextRow - Start(p.position)
    else if SpoiledIds(s) != {} then 2
    else 1
  }

  lemma TurnsWithin(s: Store, p: Pump)
    requires RowIds(s) && PositionInv(s, p, {})
    ensures 0 < Turns(s, p) <= s.nextRow + 1 && (Start(p.position) == 0 ==> Turns(s, p) <= 2)
  {
  }

  /** A turn with a selection that ended at `next`, and with the store `s'`. */
  lemma TurnsFall(s: Store, p: Pump, repaired: nat, s': Store, p': Pump)
    requires Start(p.position) < s.nextRow && (Start(p.position) == 0 ==> repaired > 0)
    requires repaired > 0 ==> SpoiledIds(s) != {} && SpoiledIds(s') == {} && Start(p'.position) == 0
    requires repaired == 0 ==> s'.nextRow == s.nextRow && (Start(p'.position) == 0 || Start(p'.position) > Start(p.position))
    ensures Turns(s', p') < Turns(s, p)
  {
  }

  /** Fewer events in front, and none spoiled, after work that adds none. */
  lemma FrontShrinks(s: Store, s': Store, id: string)
    requires SameWork(s, s') && Deliverable(s, id) && id in s'.events && s'.events[id].rowId == s.events[id].rowId
    ensures InFront(s', id) <= InFront(s, id)
  {
  }

  lemma NoneSpoiledAfter(s: Store, p: Pump, s': Store, p': Pump, ids: set<string>, now: int)
    requires Touched(s, p, s', p', ids, now)
    ensures SpoiledIds(s') <= SpoiledIds(s)
  {
  }

  /** What a selection does to position and damage. */
  lemma SelectMoves(p: Pump, s: Store, turn: Turn)
    requires Sane(s)
    ensures var r := Selecting(p, s, turn);
      && (r.repaired > 0 ==> SpoiledIds(s) != {} && SpoiledIds(r.store) == {} && Adopted(p, r).position == None)
      && (r.repaired == 0 ==> r.store == s && (r.eof || Start(r.position) > Start(p.position)))
  {
    var r := Selecting(p, s, turn);
    var n := SelectFacts(s, BATCH, p.seen, Blocked(p.retry, turn.selecting), p.position, 4 * BATCH, turn.wall);
    PendingFacts(s, Start(p.position) + 1);
    if r.repaired > 0 {
      RepairedPending(s, turn.wall, 0);
    }
  }

  /** After a delivery the pump starts from the beginning. */
  lemma BusyRewinds(p: Pump, s: Store, turn: Turn, stream: string, clock: int)
    requires Sane(s) && PumpInv(s, p, ToSelect, clock) && clock <= turn.selecting <= turn.delivering && Fine(turn)
    requires Selecting(p, s, turn).selected != []
    ensures WorkTurn(p, s, turn, stream).0.position == None
  {
    var r := Selecting(p, s, turn);
    var acks := AnswersTo(r.selected, turn.broker);
    SelectKeeps(s, p, clock, BATCH, turn.selecting, turn.wall);
    TryFirstKeeps(Adopted(p, r), r.store, r.selected, acks, |r.selected|, stream, turn.delivering, turn.wall, turn.selecting);
  }

  /** A turn that does not attempt `id`. */
  lemma TurnWithout(p: Pump, s: Store, turn: Turn, stream: string, clock: int, id: string)
    requires Sane(s) && PumpInv(s, p, Top, clock) && OrderlyTurn(p, s, turn, clock) && Fine(turn)
    requires IsDue(s, p, clock, id) && id !in Ids(Attempted(p, s, turn))
    ensures var (p', s') := TurnOf(p, s, turn, stream);
      && IsDue(s', p', turn.delivering, id) && InFront(s', id) <= InFront(s, id)
      && (|InFront(s, id)| < BATCH ==> Turns(s', p') < Turns(s, p))
  {
    DueWakes(p, s, turn.woke, clock, id);
    var p1 := Wait(p, Signature(s), turn.woke).0;
    var r := Selecting(p1, s, turn);
    var (p', s') := TurnOf(p, s, turn, stream);
    NoneHeld(s, p1, turn.woke);
    SelectMoves(p1, s, turn);
    SelectKeepsWork(p1, s, turn);
    FrontShrinks(s, r.store, id);
    if |InFront(s, id)| < BATCH && Start(p1.position) == 0 && r.repaired == 0 {
      FrontIsPicked(p1, s, turn, id);
    }
    if r.selected != [] {
      BusyTurn(p, s, turn, stream, clock, id);
      BusyRewinds(p1, s, turn, stream, turn.woke);
      NoneSpoiledAfter(r.store, p, s', p', Ids(r.selected), turn.delivering);
      TouchedFront(r.store, p, s', p', Ids(r.selected), turn.delivering, id);
    }
    if |InFront(s, id)| < BATCH {
      TurnsFall(s, p, r.repaired, s', p');
    }
  }

  lemma TouchedFront(s: Store, p: Pump, s': Store, p': Pump, ids: set<string>, now: int, id: string)
    requires Touched(s, p, s', p', ids, now) && Deliverable(s, id) && id !in ids
    ensures InFront(s', id) <= InFront(s, id)
  {
  }

  ghost predicate Overlooked(attempts: seq<seq<Event>>, id: string) {
    forall i :: 0 <= i < |attempts| ==> id !in Ids(attempts[i])
  }

  lemma OverlookedFront(front: seq<seq<Event>>, last: seq<Event>, id: string)
    ensures Overlooked(front + [last], id) <==> Overlooked(front, id) && id !in Ids(last)
  {
    var all := front + [last];
    assert all[|front|] == last;
    assert forall i :: 0 <= i < |front| ==> all[i] == front[i];
    if Overlooked(all, id) {
      forall i | 0 <= i < |front|
        ensures id !in Ids(front[i])
      {
        assert all[i] == front[i];
      }
    }
  }

  /** An event that no turn attempts stays due, and the turns left to it grow fewer. */
  lemma {:induction false} OverlookedTurns(p: Pump, s: Store, turns: seq<Turn>, stream: string, clock: int, id: string)
    requires Sane(s) && PumpInv(s, p, Top, clock) && Orderly(p, s, turns, stream, clock) && AllFine(turns)
    requires IsDue(s, p, clock, id) && Overlooked(Attempts(p, s, turns, stream), id)
    ensures var (p', s') := RunOf(p, s, turns, stream);
      && IsDue(s', p', ClockAfter(turns, clock), id) && InFront(s', id) <= InFront(s, id)
      && (|InFront(s, id)| < BATCH ==> Turns(s', p') + |turns| <= Turns(s, p))
  {
    if turns == [] {
    } else {
      var front, last := turns[..|turns| - 1], turns[|turns| - 1];
      var (p1, s1) := RunOf(p, s, front, stream);
      OverlookedFront(Attempts(p, s, front, stream), Attempted(p1, s1, last), id);
      OverlookedTurns(p, s, front, stream, clock, id);
      OrderlyRunKeeps(p, s, front, stream, clock);
      TurnWithout(p1, s1, last, stream, ClockAfter(front, clock), id);
      SubsetIsSmaller(InFront(s1, id), InFront(s, id));
    }
  }

  /** Whatever the broker answers and however the clock runs, a due event with less than a batch in front
      of it is attempted within a number of turns that the row ids bound: two for a pump at the
      beginning, one if nothing is spoiled. */
  lemma FrontIsAttempted(p: Pump, s: Store, turns: seq<Turn>, stream: string, clock: int, id: string)
    requires Sane(s) && PumpInv(s, p, Top, clock) && Orderly(p, s, turns, stream, clock) && AllFine(turns)
    requires IsDue(s, p, clock, id) && |InFront(s, id)| < BATCH && |turns| >= Turns(s, p)
    ensures Turns(s, p) <= s.nextRow + 1 && (Start(p.position) == 0 ==> Turns(s, p) <= 2)
    ensures !Overlooked(Attempts(p, s, turns, stream), id)
  {
    assert Ids(Rest(Top)) == {};
    TurnsWithin(s, p);
    if Overlooked(Attempts(p, s, turns, stream), id) {
      OverlookedTurns(p, s, turns, stream, clock, id);
      OrderlyRunKeeps(p, s, turns, stream, clock);
      TurnsWithin(RunOf(p, s, turns, stream).1, RunOf(p, s, turns, stream).0);
    }
  }
}
