/** A broker that answers gets everything (anvil_events/runtime/delivery.py): once each publish is
    answered with good evidence, what is due is acknowledged within a bounded number of turns, whatever
    was backed off before and whatever comes due meanwhile. */
module PumpRecovery {
  import opened Basics
  import opened StoreTables
  import opened StoreJoin
  import opened StoreRuns
  import opened Delivery
  import opened Pump
  import opened PumpRuns
  import opened PumpTurns
  import opened PumpProgress
  import opened PumpFront

  predicate GoodAnswer(ack: Option<PubAck>, stream: string) {
    ack.Some? && ack.value.stream == stream && GoodEvidence(ack.value)
  }

  /** A turn that runs to its end with such a broker. */
  ghost predicate Healthy(turn: Turn, stream: string) {
    Fine(turn) && forall id :: GoodAnswer(turn.broker(id), stream)
  }

  ghost predicate AllHealthy(turns: seq<Turn>, stream: string) {
    forall i :: 0 <= i < |turns| ==> Healthy(turns[i], stream)
  }

  // ---------------------------------------------------------------------------------
  // Every try succeeds
  // ---------------------------------------------------------------------------------

  /** Events as they are in their pending rows. */
  ghost predicate AllStored(s: Store, batch: seq<Event>) {
    forall i :: 0 <= i < |batch| ==> IsPending(s, batch[i].id) && s.events[batch[i].id].event == batch[i]
  }

  ghost predicate AllAcked(s: Store, ids: set<string>) {
    forall id :: id in ids ==> id in s.events && s.events[id].role == Some(Acked)
  }

  /** Publishing a pending event to such a broker. */
  lemma PublishSucceeds(s: Store, e: Event, ack: Option<PubAck>, stream: string, wall: int)
    requires RowsInv(s) && IsPending(s, e.id) && s.events[e.id].event == e && GoodAnswer(ack, stream)
    ensures Published(s, e, ack, stream, wall).Success?
  {
    assert RowOk(s.events[e.id], e.id, s.sequences);
    PutFits(s, e, Some(Acked), false, wall);
    PutShape(s, e, Some(Acked), false, wall);
  }

  lemma TryAcks(p: Pump, s: Store, e: Event, ack: Option<PubAck>, stream: string, now: int, wall: int, ids: set<string>)
    requires Sane(s) && IsPending(s, e.id) && s.events[e.id].event == e && GoodAnswer(ack, stream)
    requires e.id !in Blocked(p.retry, now) && AllAcked(s, ids)
    ensures var s' := Try(p, s, e, ack, stream, now, wall).1; Sane(s') && AllAcked(s', ids + {e.id})
  {
    PublishSucceeds(s, e, ack, stream, wall);
    TryKeepsSane(p, s, e, ack, stream, now, wall);
    AckShape(s, e, ack.value, wall);
  }

  lemma {:induction false} BatchAcks(p: Pump, s: Store, batch: seq<Event>, acks: seq<Option<PubAck>>, n: nat,
                                     stream: string, now: int, wall: int)
    requires Sane(s) && n <= |batch| == |acks| && GoodBatch(p, batch, now) && AllStored(s, batch)
    requires forall i :: 0 <= i < |acks| ==> GoodAnswer(acks[i], stream)
    ensures var s' := TryFirst(p, s, batch, acks, n, stream, now, wall).1; Sane(s') && AllAcked(s', Ids(batch[..n]))
  {
    if n == 0 {
      assert Ids(batch[..0]) == {};
    } else {
      BatchAcks(p, s, batch, acks, n - 1, stream, now, wall);
      TryFirstTouches(p, s, batch, acks, n - 1, stream, now, wall);
      TryNext(p, s, batch, acks, n - 1, stream, now, wall);
      var (p1, s1, _) := TryFirst(p, s, batch, acks, n - 1, stream, now, wall);
      NextOfBatch(s, p, s1, p1, batch, n - 1, now);
      TryAcks(p1, s1, batch[n - 1], acks[n - 1], stream, now, wall, Ids(batch[..n - 1]));
    }
  }

  /** Fresh events are as in their rows, and are work. */
  lemma FreshIsWork(s: Store, k: nat, n: nat, seen: set<string>, blocked: set<string>, e: Event)
    requires Sane(s) && n <= |PendingFrom(s, k)| && e in Fresh(PendingFrom(s, k)[..n], seen, blocked)
    ensures Deliverable(s, e.id) && s.events[e.id].event == e
  {
    var rows := PendingFrom(s, k)[..n];
    PendingFacts(s, k);
    FreshFromRows(rows, seen, blocked);
    var j :| 0 <= j < n && rows[j].event == e && Wanted(rows[j], seen, blocked);
    assert InStore(s, rows[j]);
  }

  lemma PickedIsWork(p: Pump, s: Store, turn: Turn, e: Event)
    requires Sane(s) && e in Selecting(p, s, turn).selected
    ensures Deliverable(s, e.id) && s.events[e.id].event == e
  {
    var n := Picks(p, s, turn);
    FreshIsWork(s, Start(p.position) + 1, n, p.seen, Blocked(p.retry, turn.selecting), e);
  }

  /** What a selection picks is pending in the store it leaves behind. */
  lemma PickedIsStored(p: Pump, s: Store, turn: Turn)
    requires Sane(s)
    ensures Sane(Selecting(p, s, turn).store) && AllStored(Selecting(p, s, turn).store, Selecting(p, s, turn).selected)
  {
    var r := Selecting(p, s, turn);
    var n := SelectLeaves(s, BATCH, p.seen, Blocked(p.retry, turn.selecting), p.position, 4 * BATCH, turn.wall);
    SelectKeepsWork(p, s, turn);
    forall i | 0 <= i < |r.selected|
      ensures IsPending(r.store, r.selected[i].id) && r.store.events[r.selected[i].id].event == r.selected[i]
    {
      PickedIsWork(p, s, turn, r.selected[i]);
    }
  }

  lemma HealthyWork(p: Pump, s: Store, turn: Turn, stream: string)
    requires Sane(s) && Healthy(turn, stream) && turn.selecting <= turn.delivering && Selecting(p, s, turn).selected != []
    ensures AllAcked(WorkTurn(p, s, turn, stream).1, Ids(Selecting(p, s, turn).selected))
  {
    var r := Selecting(p, s, turn);
    PickedIsStored(p, s, turn);
    BatchIsGood(p, s, turn);
    BatchAcks(Adopted(p, r), r.store, r.selected, AnswersTo(r.selected, turn.broker), |r.selected|, stream, turn.delivering, turn.wall);
    assert r.selected[..|r.selected|] == r.selected;
  }

  /** What a turn attempts is acknowledged. */
  lemma HealthyTurn(p: Pump, s: Store, turn: Turn, stream: string, clock: int)
    requires Sane(s) && OrderlyTurn(p, s, turn, clock) && Healthy(turn, stream)
    ensures AllAcked(TurnOf(p, s, turn, stream).1, Ids(Attempted(p, s, turn)))
  {
    var (p1, stay) := Wait(p, Signature(s), turn.woke);
    assert Ids([]) == {};
    if !stay && Selecting(p1, s, turn).selected != [] {
      HealthyWork(p1, s, turn, stream);
    }
  }

  // ---------------------------------------------------------------------------------
  // The work grows less
  // ---------------------------------------------------------------------------------

  ghost function Work(s: Store): set<string> {
    set o | o in s.events && Deliverable(s, o)
  }

  /** Row ids, with the one that a repair would take. */
  ghost function Width(s: Store): nat {
    if SpoiledIds(s) != {} then s.nextRow + 1 else s.nextRow
  }

  /** Turns after which a due event has been acknowledged. */
  ghost function Left(s: Store, p: Pump, id: string): int
    requires id in s.events
  {
    3 * Width(s) * |Work(s)| + ScanLeft(s, p, id)
  }

  lemma LeftFallsIdle(s: Store, p: Pump, s': Store, p': Pump, id: string)
    requires SameWork(s, s') && Width(s') == Width(s) && id in s.events && id in s'.events
    requires ScanLeft(s', p', id) < ScanLeft(s, p, id)
    ensures Left(s', p', id) < Left(s, p, id)
  {
    SubsetIsSmaller(Work(s'), Work(s));
    Scaled(3 * Width(s), |Work(s')|, |Work(s)|);
  }

  lemma Scaled(k: nat, a: nat, b: nat)
    requires a <= b
    ensures k * a <= k * b
  {
  }

  lemma LeftFallsBusy(s: Store, p: Pump, s': Store, p': Pump, id: string)
    requires Work(s') < Work(s) && Width(s') <= Width(s) && id in s.events && id in s'.events
    requires 0 < ScanLeft(s, p, id) && ScanLeft(s', p', id) <= 3 * Width(s')
    ensures Left(s', p', id) < Left(s, p, id)
  {
    var o :| o in Work(s) && o !in Work(s');
    SubsetIsSmaller(Work(s') + {o}, Work(s));
    Scaled(3 * Width(s), |Work(s')| + 1, |Work(s)|);
    Scaled(|Work(s')| + 1, 3 * Width(s'), 3 * Width(s));
    assert 3 * Width(s') * (|Work(s')| + 1) == 3 * Width(s') * |Work(s')| + 3 * Width(s');
    assert (|Work(s')| + 1) * (3 * Width(s')) == 3 * Width(s') * (|Work(s')| + 1);
    assert (|Work(s')| + 1) * (3 * Width(s)) == 3 * Width(s) * (|Work(s')| + 1);
  }

  lemma ScanLeftWithin(s: Store, p: Pump, id: string)
    requires RowIds(s) && PositionInv(s, p, {}) && id in s.events
    ensures 0 < ScanLeft(s, p, id) <= 3 * Width(s)
  {
  }

  lemma LeftWithin(s: Store, p: Pump, id: string)
    requires RowIds(s) && PositionInv(s, p, {}) && id in s.events
    ensures 0 < Left(s, p, id) <= 3 * Width(s) * (|Work(s)| + 1)
  {
    ScanLeftWithin(s, p, id);
    Scaled(3 * Width(s), 0, |Work(s)|);
    assert 3 * Width(s) * (|Work(s)| + 1) == 3 * Width(s) * |Work(s)| + 3 * Width(s);
  }

  lemma SelectKeepsWidth(p: Pump, s: Store, turn: Turn)
    requires Sane(s)
    ensures Width(Selecting(p, s, turn).store) == Width(s)
  {
    var n := SelectFacts(s, BATCH, p.seen, Blocked(p.retry, turn.selecting), p.position, 4 * BATCH, turn.wall);
    if Selecting(p, s, turn).repaired > 0 {
      RepairedPending(s, turn.wall, 0);
    }
  }

  lemma IdleLeaves(p: Pump, s: Store, turn: Turn, stream: string, clock: int, id: string)
    requires Sane(s) && PumpInv(s, p, Top, clock) && OrderlyTurn(p, s, turn, clock) && Fine(turn)
    requires IsDue(s, p, clock, id) && Attempted(p, s, turn) == []
    ensures var (p', s') := TurnOf(p, s, turn, stream);
      IsDue(s', p', turn.delivering, id) && Left(s', p', id) < Left(s, p, id)
  {
    IdleTurn(p, s, turn, stream, clock, id);
    IdleTurnWork(p, s, turn, stream);
    SelectKeepsWidth(Wait(p, Signature(s), turn.woke).0, s, turn);
    var (p', s') := TurnOf(p, s, turn, stream);
    LeftFallsIdle(s, p, s', p', id);
  }

  /** A try acknowledges at least one event. */
  lemma WorkShrinks(s: Store, s1: Store, p: Pump, s': Store, p': Pump, ids: set<string>, now: int)
    requires SameWork(s, s1) && Touched(s1, p, s', p', ids, now) && AllAcked(s', ids) && ids != {}
    requires forall o :: o in ids ==> Deliverable(s, o)
    ensures Work(s') < Work(s) && Width(s') <= Width(s1)
  {
    NoneSpoiledAfter(s1, p, s', p', ids, now);
    var o :| o in ids;
    assert o in Work(s) && o !in Work(s');
  }

  lemma BusyLeaves(p: Pump, s: Store, turn: Turn, stream: string, clock: int, id: string)
    requires Sane(s) && PumpInv(s, p, Top, clock) && OrderlyTurn(p, s, turn, clock) && Healthy(turn, stream)
    requires IsDue(s, p, clock, id) && Attempted(p, s, turn) != [] && id !in Ids(Attempted(p, s, turn))
    ensures var (p', s') := TurnOf(p, s, turn, stream);
      IsDue(s', p', turn.delivering, id) && Left(s', p', id) < Left(s, p, id)
  {
    DueWakes(p, s, turn.woke, clock, id);
    var p1 := Wait(p, Signature(s), turn.woke).0;
    var r := Selecting(p1, s, turn);
    var (p', s') := TurnOf(p, s, turn, stream);
    BusyTurn(p, s, turn, stream, clock, id);
    HealthyTurn(p, s, turn, stream, clock);
    TurnKeeps(p, s, turn, stream, clock);
    SelectKeepsWidth(p1, s, turn);
    forall e | e in r.selected
      ensures Deliverable(s, e.id)
    {
      PickedIsWork(p1, s, turn, e);
    }
    assert r.selected[0].id in Ids(r.selected);
    WorkShrinks(s, r.store, p, s', p', Ids(r.selected), turn.delivering);
    assert Ids(Rest(Top)) == {};
    ScanLeftWithin(s, p, id);
    ScanLeftWithin(s', p', id);
    LeftFallsBusy(s, p, s', p', id);
  }

  // ---------------------------------------------------------------------------------
  // Runs
  // ---------------------------------------------------------------------------------

  /** What is acknowledged stays so. */
  lemma AckedStays(p: Pump, s: Store, turn: Turn, stream: string, clock: int, id: string)
    requires Sane(s) && OrderlyTurn(p, s, turn, clock) && Fine(turn) && AllAcked(s, {id})
    ensures AllAcked(TurnOf(p, s, turn, stream).1, {id})
  {
    assert id in {id};
    var (p1, stay) := Wait(p, Signature(s), turn.woke);
    if !stay {
      SelectKeepsWork(p1, s, turn);
      if Selecting(p1, s, turn).selected != [] {
        TurnTouches(p1, s, turn, stream);
      }
    }
  }

  lemma {:induction false} HealthyTurns(p: Pump, s: Store, turns: seq<Turn>, stream: string, clock: int, id: string)
    requires Sane(s) && PumpInv(s, p, Top, clock) && Orderly(p, s, turns, stream, clock) && AllHealthy(turns, stream)
    requires IsDue(s, p, clock, id)
    ensures var (p', s') := RunOf(p, s, turns, stream);
      || AllAcked(s', {id})
      || (IsDue(s', p', ClockAfter(turns, clock), id) && Left(s', p', id) + |turns| <= Left(s, p, id))
  {
    if turns == [] {
    } else {
      var front, last := turns[..|turns| - 1], turns[|turns| - 1];
      var (p1, s1) := RunOf(p, s, front, stream);
      HealthyTurns(p, s, front, stream, clock, id);
      OrderlyRunKeeps(p, s, front, stream, clock);
      var now := ClockAfter(front, clock);
      if AllAcked(s1, {id}) {
        AckedStays(p1, s1, last, stream, now, id);
      } else if Attempted(p1, s1, last) == [] {
        IdleLeaves(p1, s1, last, stream, now, id);
      } else if id in Ids(Attempted(p1, s1, last)) {
        HealthyTurn(p1, s1, last, stream, now);
      } else {
        BusyLeaves(p1, s1, last, stream, now, id);
      }
    }
  }

  /** Once the broker answers, a due event is acknowledged, within a number of turns that the row ids and
      the events waiting bound: however many are in front of it, whatever is backed off, and however the
      clock runs. */
  lemma HealthyBrokerDelivers(p: Pump, s: Store, turns: seq<Turn>, stream: string, clock: int, id: string)
    requires Sane(s) && PumpInv(s, p, Top, clock) && Orderly(p, s, turns, stream, clock) && AllHealthy(turns, stream)
    requires IsDue(s, p, clock, id) && |turns| >= 3 * Width(s) * (|Work(s)| + 1)
    ensures var s' := RunOf(p, s, turns, stream).1; id in s'.events && s'.events[id].role == Some(Acked)
  {
    HealthyTurns(p, s, turns, stream, clock, id);
    OrderlyRunKeeps(p, s, turns, stream, clock);
    assert Ids(Rest(Top)) == {};
    LeftWithin(s, p, id);
    var (p', s') := RunOf(p, s, turns, stream);
    if id in s'.events {
      LeftWithin(s', p', id);
    }
    assert id in {id};
  }
}
