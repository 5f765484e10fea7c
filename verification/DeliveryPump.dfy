/** The delivery pump as executed (anvil_events/runtime/delivery.py). */
module DeliveryPump {
  import opened Basics
  import opened StoreTables
  import opened StoreRuns
  import opened Delivery
  import opened Pump
  import opened PumpRuns
  import opened PumpTurns
  import EventStore
  import opened PendingDelivery

  class DeliveryPump {
    const store: EventStore.EventStore
    const delivery: PendingDelivery
    const stream: string
    var retry: map<string, Backoff>
    var seen: set<string>
    var position: Option<nat>
    var sleepUntil: Option<int>
    var sleepSignature: Option<(nat, nat)>

    constructor (store: EventStore.EventStore, delivery: PendingDelivery, stream: string)
      requires delivery.store == store
      ensures this.store == store && this.delivery == delivery && this.stream == stream && View() == Started()
    {
      this.store, this.delivery, this.stream := store, delivery, stream;
      retry, seen, position, sleepUntil, sleepSignature := map[], {}, None, None, None;
    }

    ghost function View(): Pump
      reads this
    {
      Pump(retry, seen, position, sleepUntil, sleepSignature)
    }

    ghost predicate Valid()
      reads store
    {
      delivery.store == store && store.Valid()
    }

    /** The earliest of the next attempts. */
    method EarliestRetry() returns (when: int)
      requires retry != map[]
      ensures when == Earliest(retry)
    {
      var todo := retry.Keys;
      var first :| first in todo;
      when := retry[first].nextAt;
      todo := todo - {first};
      while todo != {}
        invariant todo <= retry.Keys
        invariant exists id :: id in retry && retry[id].nextAt == when
        invariant forall id :: id in retry.Keys - todo ==> when <= retry[id].nextAt
        decreases todo
      {
        var id :| id in todo;
        if retry[id].nextAt < when {
          when := retry[id].nextAt;
        }
        todo := todo - {id};
      }
    }

    /** `fault`: where the selection raises, if it does. */
    method PendingBatch(max: int, fault: Fault, now: int, wall: int) returns (r: Result<seq<Event>, StoreError>)
      requires Valid() && Sane(store.Contents())
      modifies `seen, `position, `sleepUntil, `sleepSignature
      modifies store`events, store`nextRow, store`sequences, store`quarantine, store`counter, store`operations
      ensures Valid() && Sane(store.Contents())
      ensures max < 1 ==> r.Failure? && View() == old(View()) && store.Contents() == old(store.Contents())
      ensures max >= 1 ==>
        var p, s := old(View()), old(store.Contents());
        var sel := SelectOf(s, max, p.seen, Blocked(p.retry, now), p.position, 4 * max, wall);
        if Raises(fault, sel) then
          r.Failure? && View() == p.(seen := MarkedBy(fault, p.seen, sel)) && store.Contents() == LeftBy(fault, s, sel)
        else r == Success(sel.selected) && View() == Adopted(p, sel) && store.Contents() == sel.store
    {
      var selected := SelectMarking(max, fault, now, wall);
      if selected.Failure? {
        return Failure(selected.error);
      }
      Adopt(selected.value);
      return Success(selected.value.selected);
    }

    /** The call of `select`, which marks events in the pump's own set. */
    method SelectMarking(max: int, fault: Fault, now: int, wall: int) returns (r: Result<Batch, StoreError>)
      requires Valid() && Sane(store.Contents())
      modifies `seen
      modifies store`events, store`nextRow, store`sequences, store`quarantine, store`counter, store`operations
      ensures Valid() && Sane(store.Contents())
      ensures max < 1 ==> r.Failure? && seen == old(seen) && store.Contents() == old(store.Contents())
      ensures max >= 1 ==>
        var s := old(store.Contents());
        var sel := SelectOf(s, max, old(seen), Blocked(retry, now), position, 4 * max, wall);
        if Raises(fault, sel) then
          r.Failure? && seen == MarkedBy(fault, old(seen), sel) && store.Contents() == LeftBy(fault, s, sel)
        else r.Success? && Selected(r.value, store.Contents()) == sel
    {
      var blocked := set id | id in retry && now < retry[id].nextAt;
      assert blocked == Blocked(retry, now);
      r, seen := delivery.Select(max, seen, blocked, position, Some(if max >= 1 then 4 * max else 0), fault, wall);
    }

    method Adopt(batch: Batch)
      modifies `seen, `position, `sleepUntil, `sleepSignature
      ensures View() == Adopted(old(View()), Selected(batch, store.Contents()))
    {
      seen := batch.seen;
      position := if batch.repaired > 0 || batch.eof then None else batch.position;
      if batch.eof {
        seen := {};
      }
      if batch.selected == [] && batch.eof && retry != map[] {
        var when := EarliestRetry();
        sleepUntil := Some(when);
        sleepSignature := batch.signature;
      }
    }

    /** Publish one event and record the broker's answer; `None` is a publish that raised. */
    method PublishOne(e: Event, ack: Option<PubAck>, wall: int) returns (error: Option<StoreError>)
      requires Valid()
      modifies store`events, store`nextRow, store`sequences, store`quarantine, store`counter, store`cursors
      ensures Valid()
      ensures match Published(old(store.Contents()), e, ack, stream, wall)
              case Success(after) => error == None && store.Contents() == after
              case Failure(err) => error == Some(err) && store.Contents() == old(store.Contents())
    {
      if ack.None? || ack.value.stream != stream {
        return Some(BadEvidence);
      }
      error := store.RecordAck(e, ack.value, wall);
    }

    method TryEvent(e: Event, ack: Option<PubAck>, now: int, wall: int) returns (attempted: bool, failed: bool)
      requires Valid() && Sane(store.Contents())
      modifies `retry, `seen
      modifies store`events, store`nextRow, store`sequences, store`quarantine, store`counter, store`cursors
      ensures Valid() && Sane(store.Contents())
      ensures (View(), store.Contents()) == Try(old(View()), old(store.Contents()), e, ack, stream, now, wall)
      ensures attempted == (e.id !in Blocked(old(retry), now))
      ensures failed == (attempted && Published(old(store.Contents()), e, ack, stream, wall).Failure?)
    {
      TryKeepsSane(View(), store.Contents(), e, ack, stream, now, wall);
      if e.id in retry && now < retry[e.id].nextAt {
        return false, false;
      }
      var error := PublishOne(e, ack, wall);
      if error.None? {
        retry := retry - {e.id};
        return true, false;
      }
      seen := seen - {e.id};
      var failures := (if e.id in retry then retry[e.id].failures else 0) + 1;
      retry := retry[e.id := Backoff(failures, now + Delay(failures))];
      return true, true;
    }

    method SettleDown(attempted: bool)
      modifies `position, `sleepUntil, `sleepSignature
      ensures View() == Settle(old(View()), attempted)
    {
      if attempted {
        position := None;
      }
      if retry != map[] {
        var when := EarliestRetry();
        sleepUntil := Some(when);
      } else {
        sleepUntil, sleepSignature := None, None;
      }
    }

    /** Try the first `n` events of a batch. */
    method TryBatch(batch: seq<Event>, acks: seq<Option<PubAck>>, n: nat, now: int, wall: int) returns (tally: Tally)
      requires Valid() && Sane(store.Contents()) && n <= |batch| == |acks|
      modifies `retry, `seen
      modifies store`events, store`nextRow, store`sequences, store`quarantine, store`counter, store`cursors
      ensures Valid() && Sane(store.Contents())
      ensures (View(), store.Contents(), tally) == TryFirst(old(View()), old(store.Contents()), batch, acks, n, stream, now, wall)
    {
      ghost var p, s := View(), store.Contents();
      tally := Tally(0, 0);
      for i := 0 to n
        invariant Valid() && Sane(store.Contents())
        invariant (View(), store.Contents(), tally) == TryFirst(p, s, batch, acks, i, stream, now, wall)
      {
        TryNext(p, s, batch, acks, i, stream, now, wall);
        var attempted, failed := TryEvent(batch[i], acks[i], now, wall);
        tally := Counted(tally, attempted, failed);
      }
    }

    method DeliverBatch(batch: seq<Event>, acks: seq<Option<PubAck>>, now: int, wall: int) returns (tally: Tally)
      requires Valid() && Sane(store.Contents()) && |acks| == |batch|
      modifies this
      modifies store`events, store`nextRow, store`sequences, store`quarantine, store`counter, store`cursors
      ensures Valid() && Sane(store.Contents())
      ensures (View(), store.Contents(), tally) == Deliver(old(View()), old(store.Contents()), batch, acks, stream, now, wall)
    {
      tally := TryBatch(batch, acks, |batch|, now, wall);
      SettleDown(tally.attempted > 0);
    }

    method Forget(batch: seq<Event>)
      modifies `seen, `position
      ensures View() == GiveUp(old(View()), batch)
    {
      for i := 0 to |batch|
        invariant View() == old(View()).(seen := old(seen) - Ids(batch[..i]))
        modifies `seen
      {
        assert batch[..i + 1] == batch[..i] + [batch[i]];
        assert Ids(batch[..i + 1]) == Ids(batch[..i]) + {batch[i].id};
        seen := seen - {batch[i].id};
      }
      assert batch[..|batch|] == batch;
      position := None;
    }

    method WaitForRetryOrNewWork(now: int) returns (stay: bool)
      requires delivery.store == store
      modifies `sleepUntil, `sleepSignature
      ensures (View(), stay) == Wait(old(View()), Signature(store.Contents()), now)
    {
      if sleepUntil.None? {
        return false;
      }
      if sleepUntil.value - now <= 0 {
        sleepUntil, sleepSignature := None, None;
        return false;
      }
      if seen != {} || sleepSignature.None? {
        return false;
      }
      var count := delivery.CountPending();
      if Some((store.counter, count)) == sleepSignature {
        return true;
      }
      sleepUntil, sleepSignature := None, None;
      return false;
    }

    /** The part of a turn after a batch was selected. */
    method TakeBatch(batch: seq<Event>, turn: Turn)
      requires Valid() && Sane(store.Contents())
      modifies this
      modifies store`events, store`nextRow, store`sequences, store`quarantine, store`counter, store`cursors
      ensures Valid() && Sane(store.Contents())
      ensures (View(), store.Contents()) == DeliverTurn(old(View()), old(store.Contents()), batch, turn, stream)
    {
      var acks := AnswersTo(batch, turn.broker);
      if turn.broken.Some? {
        var tally := TryBatch(batch, acks, Least(turn.broken.value, |batch|), turn.delivering, turn.wall);
        Forget(batch);
      } else {
        var tally := DeliverBatch(batch, acks, turn.delivering, turn.wall);
      }
    }

    /** One turn of the loop in `run`. */
    method TakeTurn(turn: Turn)
      requires Valid() && Sane(store.Contents())
      modifies this
      modifies store`events, store`nextRow, store`sequences, store`quarantine, store`counter, store`operations, store`cursors
      ensures Valid() && Sane(store.Contents())
      ensures (View(), store.Contents()) == TurnOf(old(View()), old(store.Contents()), turn, stream)
    {
      var stay := WaitForRetryOrNewWork(turn.woke);
      if stay {
        return;
      }
      var selected := PendingBatch(BATCH, turn.fault, turn.selecting, turn.wall);
      if selected.Failure? {
        Forget([]);
        return;
      }
      if selected.value == [] {
        return;
      }
      TakeBatch(selected.value, turn);
    }

    /** `run`, stopped after these turns. If their clock readings follow each other and no selection
        raises after it marked events, the pump invariant holds at the end as it did before. */
    method Run(turns: seq<Turn>, ghost clock: int)
      requires Valid() && Sane(store.Contents())
      modifies this
      modifies store`events, store`nextRow, store`sequences, store`quarantine, store`counter, store`operations, store`cursors
      ensures Valid() && Sane(store.Contents())
      ensures (View(), store.Contents()) == RunOf(old(View()), old(store.Contents()), turns, stream)
      ensures PumpInv(old(store.Contents()), old(View()), Top, clock) && Orderly(old(View()), old(store.Contents()), turns, stream, clock) ==>
        PumpInv(store.Contents(), View(), Top, ClockAfter(turns, clock))
    {
      ghost var p, s := View(), store.Contents();
      assert turns[..0] == [];
      for i := 0 to |turns|
        invariant Valid() && Sane(store.Contents())
        invariant (View(), store.Contents()) == RunOf(p, s, turns[..i], stream)
      {
        assert turns[..i + 1][..i] == turns[..i];
        TakeTurn(turns[i]);
      }
      assert turns[..|turns|] == turns;
      if PumpInv(s, p, Top, clock) && Orderly(p, s, turns, stream, clock) {
        OrderlyRunKeeps(p, s, turns, stream, clock);
      }
    }
  }
}
