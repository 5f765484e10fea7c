/** Work that is due gets attempted (anvil_events/runtime/delivery.py, `run`). The turns here follow each
    other with no other use of the store, no selection raises and no delivery breaks off. */
module PumpProgress {
  import opened Basics
  import opened StoreTables
  import opened StoreJoin
  import opened StoreRuns
  import opened Delivery
  import opened Pump
  import opened PumpRuns
  import opened PumpTurns

  /** Pending, with its text intact, and not backed off at `now`. */
  ghost predicate IsDue(s: Store, p: Pump, now: int, id: string) {
    IsPending(s, id) && s.events[id].damaged.None? && id !in Blocked(p.retry, now)
  }

  predicate Fine(turn: Turn) {
    turn.fault.NoFault? && turn.broken.None?
  }

  ghost predicate AllFine(turns: seq<Turn>) {
    forall i :: 0 <= i < |turns| ==> Fine(turns[i])
  }

  /** The events that a turn attempts to deliver. */
  ghost function Attempted(p: Pump, s: Store, turn: Turn): seq<Event> {
    var (p1, stay) := Wait(p, Signature(s), turn.woke);
    if stay || !Sane(s) then [] else Selecting(p1, s, turn).selected
  }

  /** What each turn attempts. */
  ghost function Attempts(p: Pump, s: Store, turns: seq<Turn>, stream: string): (attempts: seq<seq<Event>>)
    ensures |attempts| == |turns|
  {
    if turns == [] then []
    else
      var front := turns[..|turns| - 1];
      var (p1, s1) := RunOf(p, s, front, stream);
      Attempts(p, s, front, stream) + [Attempted(p1, s1, turns[|turns| - 1])]
  }

  // ---------------------------------------------------------------------------------
  // A turn without an attempt
  // ---------------------------------------------------------------------------------

  /** What is left to scan until `id` is met. */
  ghost function ScanLeft(s: Store, p: Pump, id: string): int
    requires id in s.events
  {
    (if SpoiledIds(s) != {} then s.nextRow + 1 else 0)
    + (if s.events[id].rowId <= Start(p.position) then s.nextRow + 1 else 0)
    + s.nextRow - Start(p.position)
  }

  lemma ScanLeftBounds(s: Store, p: Pump, id: string)
    requires RowIds(s) && PositionInv(s, p, {}) && id in s.events
    ensures 0 < ScanLeft(s, p, id) <= 3 * s.nextRow + 2
  {
  }

  /** A due event that is not selected lies behind the rows looked at. */
  lemma NotInFront(s: Store, p: Pump, n: nat, blocked: set<string>, id: string)
    requires Sane(s) && SeenInv(s, p, {}) && n <= |PendingFrom(s, Start(p.position) + 1)|
    requires Fresh(PendingFrom(s, Start(p.position) + 1)[..n], p.seen, blocked) == []
    requires IsPending(s, id) && s.events[id].damaged.None? && id !in blocked && s.events[id].rowId > Start(p.position)
    ensures n < |PendingFrom(s, Start(p.position) + 1)|
    ensures n > 0 ==> PendingFrom(s, Start(p.position) + 1)[n - 1].rowId < s.events[id].rowId
  {
    var all := PendingFrom(s, Start(p.position) + 1);
    var i := RowIsListed(s, p.position, id);
    PendingFacts(s, Start(p.position) + 1);
    if i < n {
      assert all[..n][i] == s.events[id];
      FreshKeeps(all[..n], s.events[id], p.seen, blocked);
    }
    assert i >= n;
  }

  /** An event that is not damaged is left alone by a repair. */
  lemma RepairLeaves(s: Store, s': Store, wall: int, repaired: nat, id: string)
    requires Sane(s) && SpoiledIds(s) != {} && Repair(s, wall) == Success((s', repaired))
    requires IsPending(s, id) && s.events[id].damaged.None?
    ensures Sane(s') && SpoiledIds(s') == {} && s'.nextRow == s.nextRow + 1 && id in s'.events && s'.events[id] == s.events[id]
  {
    RepairedPending(s, wall, 0);
    var audit := RepairRows(s, wall);
  }

  /** The position after a selection that found nothing; `next` is that of the last row looked at. */
  lemma ScanLeftFalls(s: Store, p: Pump, p': Pump, id: string)
    requires RowIds(s) && id in s.events && Start(p.position) < s.nextRow
    requires if Start(p'.position) == 0 then s.events[id].rowId <= Start(p.position)
             else Start(p.position) < Start(p'.position)
                  && (s.events[id].rowId > Start(p.position) ==> s.events[id].rowId > Start(p'.position))
    ensures ScanLeft(s, p', id) < ScanLeft(s, p, id)
  {
  }

  lemma ScanLeftFallsOnRepair(s: Store, s': Store, p: Pump, p': Pump, id: string)
    requires RowIds(s) && id in s.events && id in s'.events && s'.events[id].rowId == s.events[id].rowId
    requires SpoiledIds(s) != {} && SpoiledIds(s') == {} && s'.nextRow == s.nextRow + 1
    requires p'.position == None && Start(p.position) < s.nextRow
    ensures ScanLeft(s', p', id) < ScanLeft(s, p, id)
  {
  }

  /** A selection `r` that looked at the first `n` rows behind the position and repaired nothing. */
  ghost predicate Looked(s: Store, p: Pump, r: Selection, n: nat, blocked: set<string>) {
    var all := PendingFrom(s, Start(p.position) + 1);
    && n <= |all| && (r.eof ==> n == |all|) && (!r.eof ==> n > 0)
    && r.selected == Fresh(all[..n], p.seen, blocked)
    && r.position == if n == 0 then p.position else Some(all[n - 1].rowId)
  }

  /** Such a selection that found nothing goes past no due event. */
  lemma PositionAfterNothing(s: Store, p: Pump, r: Selection, n: nat, blocked: set<string>, id: string)
    requires Sane(s) && SeenInv(s, p, {}) && Looked(s, p, r, n, blocked) && r.selected == []
    requires IsPending(s, id) && s.events[id].damaged.None? && id !in blocked
    ensures if r.eof then s.events[id].rowId <= Start(p.position)
            else Start(p.position) < Start(r.position)
                 && (s.events[id].rowId > Start(p.position) ==> s.events[id].rowId > Start(r.position))
  {
    PendingFacts(s, Start(p.position) + 1);
    if s.events[id].rowId > Start(p.position) {
      NotInFront(s, p, n, blocked, id);
    }
  }

  lemma SelectNothing(p: Pump, s: Store, turn: Turn, id: string)
    requires Sane(s) && SeenInv(s, p, {}) && PositionInv(s, p, {}) && Selecting(p, s, turn).selected == []
    requires IsDue(s, p, turn.selecting, id)
    ensures var r := Selecting(p, s, turn);
      && id in r.store.events && r.store.events[id] == s.events[id]
      && ScanLeft(r.store, Adopted(p, r), id) < ScanLeft(s, p, id)
  {
    var blocked := Blocked(p.retry, turn.selecting);
    var r := Selecting(p, s, turn);
    var n := SelectFacts(s, BATCH, p.seen, blocked, p.position, 4 * BATCH, turn.wall);
    NothingSelected(s, p, r, n, blocked, turn.wall, id);
  }

  lemma NothingSelected(s: Store, p: Pump, r: Selection, n: nat, blocked: set<string>, wall: int, id: string)
    requires Sane(s) && SeenInv(s, p, {}) && PositionInv(s, p, {}) && r.selected == []
    requires IsPending(s, id) && s.events[id].damaged.None? && id !in blocked
    requires r.repaired == 0 ==> Looked(s, p, r, n, blocked) && r.store == s
    requires r.repaired > 0 ==> SpoiledIds(s) != {} && Repair(s, wall) == Success((r.store, r.repaired)) && r.position == None
    ensures id in r.store.events && r.store.events[id] == s.events[id]
    ensures ScanLeft(r.store, Adopted(p, r), id) < ScanLeft(s, p, id)
  {
    if r.repaired > 0 {
      RepairLeaves(s, r.store, wall, r.repaired, id);
      ScanLeftFallsOnRepair(s, r.store, p, Adopted(p, r), id);
    } else {
      PositionAfterNothing(s, p, r, n, blocked, id);
      ScanLeftFalls(s, p, Adopted(p, r), id);
    }
  }

  /** A pump does not keep waiting while something is due. */
  lemma DueWakes(p: Pump, s: Store, now: int, clock: int, id: string)
    requires PumpInv(s, p, Top, clock) && clock <= now && IsDue(s, p, now, id)
    ensures !Wait(p, Signature(s), now).1
    ensures PumpInv(s, Wait(p, Signature(s), now).0, ToSelect, now)
    ensures Wait(p, Signature(s), now).0.retry == p.retry && Wait(p, Signature(s), now).0.position == p.position
  {
    WaitKeeps(s, p, clock, now);
  }

  /** A turn that attempts nothing leaves a due event due and comes nearer to it. */
  lemma IdleTurn(p: Pump, s: Store, turn: Turn, stream: string, clock: int, id: string)
    requires Sane(s) && PumpInv(s, p, Top, clock) && OrderlyTurn(p, s, turn, clock) && Fine(turn)
    requires IsDue(s, p, clock, id) && Attempted(p, s, turn) == []
    ensures var (p', s') := TurnOf(p, s, turn, stream);
      && p'.retry == p.retry && id in s'.events && s'.events[id] == s.events[id]
      && ScanLeft(s', p', id) < ScanLeft(s, p, id)
  {
    DueWakes(p, s, turn.woke, clock, id);
    var p1 := Wait(p, Signature(s), turn.woke).0;
    NoneHeld(s, p1, turn.woke);
    SelectNothing(p1, s, turn, id);
  }

  // ---------------------------------------------------------------------------------
  // Something due is attempted
  // ---------------------------------------------------------------------------------

  lemma ClocksRise(p: Pump, s: Store, turns: seq<Turn>, stream: string, clock: int)
    requires Orderly(p, s, turns, stream, clock)
    ensures clock <= ClockAfter(turns, clock)
  {
    if turns == [] {
    } else {
      ClocksRise(p, s, turns[..|turns| - 1], stream, clock);
    }
  }

  ghost predicate AllEmpty(attempts: seq<seq<Event>>) {
    forall i :: 0 <= i < |attempts| ==> attempts[i] == []
  }

  lemma EmptyFront(front: seq<seq<Event>>, last: seq<Event>)
    requires AllEmpty(front + [last])
    ensures AllEmpty(front) && last == []
  {
    assert (front + [last])[|front|] == last;
    forall i | 0 <= i < |front|
      ensures front[i] == []
    {
      assert (front + [last])[i] == front[i];
    }
  }

  /** While nothing is attempted, an event stays due and the pump comes nearer to it with every turn. */
  lemma {:induction false} IdleTurns(p: Pump, s: Store, turns: seq<Turn>, stream: string, clock: int, id: string)
    requires Sane(s) && PumpInv(s, p, Top, clock) && Orderly(p, s, turns, stream, clock) && AllFine(turns)
    requires IsDue(s, p, clock, id) && AllEmpty(Attempts(p, s, turns, stream))
    ensures var (p', s') := RunOf(p, s, turns, stream);
      && p'.retry == p.retry && id in s'.events && s'.events[id] == s.events[id]
      && ScanLeft(s', p', id) + |turns| <= ScanLeft(s, p, id)
  {
    if turns == [] {
    } else {
      var front, last := turns[..|turns| - 1], turns[|turns| - 1];
      var (p1, s1) := RunOf(p, s, front, stream);
      EmptyFront(Attempts(p, s, front, stream), Attempted(p1, s1, last));
      IdleTurns(p, s, front, stream, clock, id);
      OrderlyRunKeeps(p, s, front, stream, clock);
      ClocksRise(p, s, front, stream, clock);
      IdleTurn(p1, s1, last, stream, ClockAfter(front, clock), id);
    }
  }

  /** The pump conserves work: as long as an intact event is due, some event is attempted within a number
      of turns that the row ids bound. */
  lemma DueWorkIsAttempted(p: Pump, s: Store, turns: seq<Turn>, stream: string, clock: int, id: string) returns (i: nat)
    requires Sane(s) && PumpInv(s, p, Top, clock) && Orderly(p, s, turns, stream, clock) && AllFine(turns)
    requires IsDue(s, p, clock, id) && |turns| >= 3 * s.nextRow + 2
    ensures i < |turns| && Attempts(p, s, turns, stream)[i] != []
  {
    if AllEmpty(Attempts(p, s, turns, stream)) {
      IdleTurns(p, s, turns, stream, clock, id);
      OrderlyRunKeeps(p, s, turns, stream, clock);
      assert Ids(Rest(Top)) == {};
      ScanLeftBounds(s, p, id);
      ScanLeftBounds(RunOf(p, s, turns, stream).1, RunOf(p, s, turns, stream).0, id);
    }
    i :| 0 <= i < |turns| && Attempts(p, s, turns, stream)[i] != [];
  }

  // ---------------------------------------------------------------------------------
  // A turn with an attempt
  // ---------------------------------------------------------------------------------

  /** What trying the events `ids` at `now` does: each is no longer pending or backed off, and nothing
      else changes. */
  ghost predicate Touched(s: Store, p: Pump, s': Store, p': Pump, ids: set<string>, now: int) {
    && s'.events.Keys == s.events.Keys && s'.nextRow == s.nextRow
    && (forall o :: o in s.events ==> s'.events[o] == s.events[o] || (o in ids && s'.events[o].role == Some(Acked)))
    && (forall o :: o !in ids ==> (o in p'.retry <==> o in p.retry))
    && (forall o :: o !in ids && o in p.retry ==> p'.retry[o] == p.retry[o])
    && (forall o :: o in ids ==> !IsPending(s', o) || o in Blocked(p'.retry, now))
  }

  /** What an acknowledgement does to the rows. */
  lemma AckShape(s: Store, e: Event, a: PubAck, wall: int)
    requires RecordPuback(s, e, a, wall).Success?
    ensures var s' := RecordPuback(s, e, a, wall).value;
      && e.id in s.events && s'.events.Keys == s.events.Keys && s'.nextRow == s.nextRow
      && (forall o :: o in s.events && o != e.id ==> s'.events[o] == s.events[o])
      && s'.events[e.id].role == Some(Acked)
  {
    PutShape(s, e, Some(Acked), false, wall);
    PutNextRow(s, e, Some(Acked), false, wall);
  }

  lemma DelayIsPositive(failures: nat)
    ensures Delay(failures) > 0
    decreases failures
  {
    DelayDoubles(failures);
    if failures == 0 {
    } else {
      DelayIsPositive(failures - 1);
    }
  }

  /** One more event acknowledged, or backed off. */
  lemma TouchedAck(s: Store, p: Pump, s1: Store, p1: Pump, ids: set<string>, s2: Store, id: string, now: int)
    requires Touched(s, p, s1, p1, ids, now) && id !in ids
    requires id in s1.events && s2.events.Keys == s1.events.Keys && s2.nextRow == s1.nextRow
    requires (forall o :: o in s1.events && o != id ==> s2.events[o] == s1.events[o]) && s2.events[id].role == Some(Acked)
    ensures Touched(s, p, s2, p1.(retry := p1.retry - {id}), ids + {id}, now)
  {
  }

  lemma TouchedBackOff(s: Store, p: Pump, s1: Store, p1: Pump, ids: set<string>, id: string, now: int)
    requires Touched(s, p, s1, p1, ids, now) && id !in ids
    ensures Touched(s, p, s1, BackOff(p1, id, now), ids + {id}, now)
  {
    DelayIsPositive(Failures(p1.retry, id) + 1);
  }

  /** One more try. */
  lemma TryTouches(s: Store, p: Pump, s1: Store, p1: Pump, ids: set<string>, e: Event, ack: Option<PubAck>, stream: string, now: int, wall: int)
    requires Touched(s, p, s1, p1, ids, now) && e.id !in ids && e.id !in Blocked(p1.retry, now)
    ensures var (p2, s2) := Try(p1, s1, e, ack, stream, now, wall); Touched(s, p, s2, p2, ids + {e.id}, now)
  {
    match Published(s1, e, ack, stream, wall)
    case Success(s2) =>
      AckShape(s1, e, ack.value, wall);
      TouchedAck(s, p, s1, p1, ids, s2, e.id, now);
    case Failure(_) => TouchedBackOff(s, p, s1, p1, ids, e.id, now);
  }

  /** Each event once, and each due. */
  ghost predicate GoodBatch(p: Pump, batch: seq<Event>, now: int) {
    && (forall i :: 0 <= i < |batch| ==> batch[i].id !in Blocked(p.retry, now))
    && (forall i, j :: 0 <= i < j < |batch| ==> batch[i].id != batch[j].id)
  }

  lemma NextOfBatch(s: Store, p: Pump, s1: Store, p1: Pump, batch: seq<Event>, n: nat, now: int)
    requires n < |batch| && GoodBatch(p, batch, now) && Touched(s, p, s1, p1, Ids(batch[..n]), now)
    ensures batch[n].id !in Ids(batch[..n]) && batch[n].id !in Blocked(p1.retry, now)
    ensures Ids(batch[..n + 1]) == Ids(batch[..n]) + {batch[n].id}
  {
    assert batch[..n + 1] == batch[..n] + [batch[n]];
    forall e | e in batch[..n]
      ensures e.id != batch[n].id
    {
      var i :| 0 <= i < n && batch[..n][i] == e;
      assert batch[i] == e;
    }
  }

  lemma {:induction false} TryFirstTouches(p: Pump, s: Store, batch: seq<Event>, acks: seq<Option<PubAck>>, n: nat,
                                           stream: string, now: int, wall: int)
    requires n <= |batch| == |acks| && GoodBatch(p, batch, now)
    ensures var (p', s', _) := TryFirst(p, s, batch, acks, n, stream, now, wall); Touched(s, p, s', p', Ids(batch[..n]), now)
  {
    if n == 0 {
      assert Ids(batch[..0]) == {};
    } else {
      TryFirstTouches(p, s, batch, acks, n - 1, stream, now, wall);
      TryNext(p, s, batch, acks, n - 1, stream, now, wall);
      var (p1, s1, _) := TryFirst(p, s, batch, acks, n - 1, stream, now, wall);
      NextOfBatch(s, p, s1, p1, batch, n - 1, now);
      TryTouches(s, p, s1, p1, Ids(batch[..n - 1]), batch[n - 1], acks[n - 1], stream, now, wall);
    }
  }

  /** The next event of a batch is due when its turn comes. */
  lemma NextIsDue(p: Pump, s: Store, batch: seq<Event>, acks: seq<Option<PubAck>>, n: nat, stream: string, now: int, wall: int)
    requires n < |batch| == |acks| && GoodBatch(p, batch, now)
    ensures batch[n].id !in Blocked(TryFirst(p, s, batch, acks, n, stream, now, wall).0.retry, now)
    ensures Ids(batch[..n + 1]) == Ids(batch[..n]) + {batch[n].id}
  {
    TryFirstTouches(p, s, batch, acks, n, stream, now, wall);
    var (p1, s1, _) := TryFirst(p, s, batch, acks, n, stream, now, wall);
    NextOfBatch(s, p, s1, p1, batch, n, now);
  }

  // ---------------------------------------------------------------------------------
  // What selections and tries leave alone
  // ---------------------------------------------------------------------------------

  /** The rows that may be due are the same, and so are acknowledged ones. */
  ghost predicate SameWork(s: Store, s': Store) {
    && (forall o :: o in s.events && IsPending(s, o) && s.events[o].damaged.None? ==> o in s'.events && s'.events[o] == s.events[o])
    && (forall o :: IsPending(s', o) ==> o in s.events && s'.events[o] == s.events[o])
    && (forall o :: o in s.events && s.events[o].role == Some(Acked) ==> o in s'.events && s'.events[o] == s.events[o])
  }

  lemma RepairKeepsWork(s: Store, s': Store, wall: int, repaired: nat)
    requires Sane(s) && SpoiledIds(s) != {} && Repair(s, wall) == Success((s', repaired))
    ensures SameWork(s, s')
  {
    RepairedPending(s, wall, 0);
    var audit := RepairRows(s, wall);
    IntactRowsStay(s, s', audit);
  }

  lemma IntactRowsStay(s: Store, s': Store, audit: string)
    requires RepairedInto(s, s', audit)
    ensures SameWork(s, s')
  {
    forall o | IsPending(s', o)
      ensures o in s.events && s'.events[o] == s.events[o]
    {
      assert o != audit;
    }
  }

  lemma SelectKeepsWork(p: Pump, s: Store, turn: Turn)
    requires Sane(s)
    ensures SameWork(s, Selecting(p, s, turn).store)
  {
    var r := Selecting(p, s, turn);
    var n := SelectFacts(s, BATCH, p.seen, Blocked(p.retry, turn.selecting), p.position, 4 * BATCH, turn.wall);
    if r.repaired > 0 {
      RepairKeepsWork(s, r.store, turn.wall, r.repaired);
    }
  }

  /** A selection picks the fresh events of the rows it looked at. */
  lemma Picks(p: Pump, s: Store, turn: Turn) returns (n: nat)
    requires Sane(s)
    ensures n <= |PendingFrom(s, Start(p.position) + 1)|
    ensures Selecting(p, s, turn).selected == Fresh(PendingFrom(s, Start(p.position) + 1)[..n], p.seen, Blocked(p.retry, turn.selecting))
  {
    n := SelectFacts(s, BATCH, p.seen, Blocked(p.retry, turn.selecting), p.position, 4 * BATCH, turn.wall);
  }

  lemma LaterIsGood(p: Pump, batch: seq<Event>, now: int, later: int)
    requires HandInv(p, Holding(batch, batch, false), now) && now <= later
    ensures GoodBatch(p, batch, later)
  {
  }

  lemma BatchIsGood(p: Pump, s: Store, turn: Turn)
    requires Sane(s) && turn.selecting <= turn.delivering
    ensures GoodBatch(Adopted(p, Selecting(p, s, turn)), Selecting(p, s, turn).selected, turn.delivering)
  {
    var n := Picks(p, s, turn);
    BatchInHand(s, p, n, turn.selecting);
    LaterIsGood(p, Selecting(p, s, turn).selected, turn.selecting, turn.delivering);
  }

  /** What a turn with an attempt does, from the selection to the end. */
  lemma TurnTouches(p: Pump, s: Store, turn: Turn, stream: string)
    requires Sane(s) && Fine(turn) && turn.selecting <= turn.delivering && Selecting(p, s, turn).selected != []
    ensures var (p', s') := WorkTurn(p, s, turn, stream);
      var r := Selecting(p, s, turn);
      Touched(r.store, p, s', p', Ids(r.selected), turn.delivering)
  {
    var r := Selecting(p, s, turn);
    var p1, batch := Adopted(p, r), r.selected;
    var acks := AnswersTo(batch, turn.broker);
    BatchIsGood(p, s, turn);
    TryFirstTouches(p1, r.store, batch, acks, |batch|, stream, turn.delivering, turn.wall);
    assert batch[..|batch|] == batch;
    assert p1.retry == p.retry;
    Retouched(r.store, p1, p, TryFirst(p1, r.store, batch, acks, |batch|, stream, turn.delivering, turn.wall).1,
      TryFirst(p1, r.store, batch, acks, |batch|, stream, turn.delivering, turn.wall).0, WorkTurn(p, s, turn, stream).0,
      Ids(batch), turn.delivering);
  }

  /** Only the backoff table of the pump matters. */
  lemma Retouched(s: Store, p: Pump, q: Pump, s': Store, p': Pump, q': Pump, ids: set<string>, now: int)
    requires Touched(s, p, s', p', ids, now) && q.retry == p.retry && q'.retry == p'.retry
    ensures Touched(s, q, s', q', ids, now)
  {
  }

  /** A turn that attempts others: what it does, and that a due event stays due. */
  lemma BusyTurn(p: Pump, s: Store, turn: Turn, stream: string, clock: int, id: string)
    requires Sane(s) && PumpInv(s, p, Top, clock) && OrderlyTurn(p, s, turn, clock) && Fine(turn)
    requires IsDue(s, p, clock, id) && Attempted(p, s, turn) != []
    ensures var (p', s') := TurnOf(p, s, turn, stream);
      var s1 := Selecting(Wait(p, Signature(s), turn.woke).0, s, turn).store;
      && SameWork(s, s1) && Touched(s1, p, s', p', Ids(Attempted(p, s, turn)), turn.delivering)
      && (id !in Ids(Attempted(p, s, turn)) ==> IsDue(s', p', turn.delivering, id))
  {
    DueWakes(p, s, turn.woke, clock, id);
    var p1 := Wait(p, Signature(s), turn.woke).0;
    var r := Selecting(p1, s, turn);
    var (p', s') := TurnOf(p, s, turn, stream);
    TurnTouches(p1, s, turn, stream);
    SelectKeepsWork(p1, s, turn);
    Retouched(r.store, p1, p, s', p', p', Ids(r.selected), turn.delivering);
    if id !in Ids(r.selected) {
      StillDue(s, p, r.store, s', p', Ids(r.selected), turn.delivering, clock, id);
    }
  }

  lemma StillDue(s: Store, p: Pump, s1: Store, s2: Store, p2: Pump, ids: set<string>, now: int, clock: int, id: string)
    requires IsDue(s, p, clock, id) && clock <= now && SameWork(s, s1) && id !in ids
    requires Touched(s1, p, s2, p2, ids, now)
    ensures IsDue(s2, p2, now, id)
  {
  }

  lemma IdleTurnWork(p: Pump, s: Store, turn: Turn, stream: string)
    requires Sane(s) && Fine(turn) && Attempted(p, s, turn) == []
    ensures SameWork(s, TurnOf(p, s, turn, stream).1) && TurnOf(p, s, turn, stream).0.retry == p.retry
  {
    var (p1, stay) := Wait(p, Signature(s), turn.woke);
    if !stay {
      SelectKeepsWork(p1, s, turn);
    }
  }
}
