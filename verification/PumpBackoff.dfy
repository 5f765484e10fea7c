/** What the backoff table remembers (anvil_events/runtime/delivery.py:52-90): over every run it counts
    the failed attempts of each event since it was last acknowledged, and says how long to wait. */
module PumpBackoff {
  import opened Basics
  import opened StoreTables
  import opened Delivery
  import opened Pump
  import opened PumpRuns
  import opened PumpProgress

  /** 2, 4, 8, 16, 32 seconds, and then a minute each time. */
  function Seconds(k: nat): nat {
    if k == 0 then 1
    else if 2 * Seconds(k - 1) > 60 then 60
    else 2 * Seconds(k - 1)
  }

  lemma {:induction false} SecondsAreDelay(k: nat)
    ensures Delay(k) == Seconds(k)
  {
    DelayDoubles(k);
    if k > 0 {
      SecondsAreDelay(k - 1);
    }
  }

  // ---------------------------------------------------------------------------------
  // The attempts in the history of a run
  // ---------------------------------------------------------------------------------

  /** Move `i` tries event `id`. */
  ghost predicate IsTried(machines: seq<Machine>, moves: seq<Move>, i: nat, id: string)
    requires i < |moves| < |machines|
  {
    moves[i].Tries? && machines[i].loc.Holding? && machines[i].loc.rest != [] && machines[i].loc.rest[0].id == id
  }

  /** The broker answers from the right stream, and the answer is recorded. */
  ghost predicate Acknowledges(machines: seq<Machine>, moves: seq<Move>, i: nat, id: string)
    requires i < |moves| < |machines|
  {
    && IsTried(machines, moves, i, id)
    && moves[i].ack.Some? && moves[i].ack.value.stream == moves[i].stream
    && RecordPuback(machines[i].world.store, machines[i].loc.rest[0], moves[i].ack.value, moves[i].wall).Success?
  }

  /** The times of the failed attempts of `id` in the first `i` moves since it was last acknowledged. */
  ghost function FailedTimes(machines: seq<Machine>, moves: seq<Move>, i: nat, id: string): seq<int>
    requires i <= |moves| < |machines|
  {
    if i == 0 then []
    else if Acknowledges(machines, moves, i - 1, id) then []
    else if IsTried(machines, moves, i - 1, id) then FailedTimes(machines, moves, i - 1, id) + [moves[i - 1].now]
    else FailedTimes(machines, moves, i - 1, id)
  }

  // ---------------------------------------------------------------------------------
  // The table
  // ---------------------------------------------------------------------------------

  ghost predicate Remembers(retry: map<string, Backoff>, id: string, failed: seq<int>) {
    && (id in retry <==> failed != [])
    && (failed != [] ==> retry[id] == Backoff(|failed|, failed[|failed| - 1] + Seconds(|failed|)))
  }

  /** Only a try of the event itself changes its entry. */
  lemma OthersLeaveEntry(m: Machine, move: Move, id: string)
    requires Enabled(m, move) && !(move.Tries? && m.loc.rest[0].id == id)
    ensures id in After(m, move).pump.retry <==> id in m.pump.retry
    ensures id in m.pump.retry ==> After(m, move).pump.retry[id] == m.pump.retry[id]
  {
  }

  lemma TryIsRemembered(m: Machine, move: Move, id: string, failed: seq<int>)
    requires Enabled(m, move) && move.Tries? && m.loc.rest[0].id == id && id !in Blocked(m.pump.retry, move.now)
    requires Remembers(m.pump.retry, id, failed)
    ensures var acked := move.ack.Some? && move.ack.value.stream == move.stream
        && RecordPuback(m.world.store, m.loc.rest[0], move.ack.value, move.wall).Success?;
      Remembers(After(m, move).pump.retry, id, if acked then [] else failed + [move.now])
  {
    SecondsAreDelay(|failed| + 1);
  }

  /** A try of an event in hand is an attempt: it is due. */
  lemma InHandIsDue(m: Machine, move: Move)
    requires MachineInv(m) && Enabled(m, move) && move.Tries?
    ensures m.loc.rest[0].id !in Blocked(m.pump.retry, move.now)
  {
  }

  ghost function TimesAfter(m: Machine, move: Move, id: string, failed: seq<int>): seq<int> {
    if !(move.Tries? && m.loc.Holding? && m.loc.rest != [] && m.loc.rest[0].id == id) then failed
    else if move.ack.Some? && move.ack.value.stream == move.stream
            && RecordPuback(m.world.store, m.loc.rest[0], move.ack.value, move.wall).Success? then []
    else failed + [move.now]
  }

  lemma FailedTimesNext(machines: seq<Machine>, moves: seq<Move>, i: nat, id: string)
    requires i < |moves| < |machines|
    ensures FailedTimes(machines, moves, i + 1, id) == TimesAfter(machines[i], moves[i], id, FailedTimes(machines, moves, i, id))
  {
  }

  lemma MoveIsRemembered(m: Machine, move: Move, id: string, failed: seq<int>)
    requires MachineInv(m) && Enabled(m, move) && Remembers(m.pump.retry, id, failed)
    ensures Remembers(After(m, move).pump.retry, id, TimesAfter(m, move, id, failed))
  {
    if move.Tries? && m.loc.rest[0].id == id {
      InHandIsDue(m, move);
      TryIsRemembered(m, move, id, failed);
    } else {
      OthersLeaveEntry(m, move, id);
    }
  }

  /** Over every run: after k failed attempts since an event was last acknowledged, or the pump was
      started, the k-th at time t, its entry is k failures and t + min(60, 2^k); and without such an
      attempt it has no entry. */
  lemma {:induction false} BackoffCountsFailures(machines: seq<Machine>, moves: seq<Move>, i: nat, id: string)
    requires Run(machines, moves) && i < |machines|
    ensures Remembers(machines[i].pump.retry, id, FailedTimes(machines, moves, i, id))
    decreases i
  {
    if i == 0 {
    } else {
      BackoffCountsFailures(machines, moves, i - 1, id);
      RunKeepsInv(machines, moves, i - 1);
      FailedTimesNext(machines, moves, i - 1, id);
      MoveIsRemembered(machines[i - 1], moves[i - 1], id, FailedTimes(machines, moves, i - 1, id));
    }
  }

  /** Two failures in a row, whatever happens in between: two seconds after the first, four after the second. */
  lemma SecondsGrow()
    ensures Seconds(1) == 2 && Seconds(2) == 4 && Seconds(3) == 8 && Seconds(4) == 16 && Seconds(5) == 32
    ensures forall k :: k >= 6 ==> Seconds(k) == 60
  {
    assert Seconds(0) == 1 && Seconds(1) == 2 && Seconds(2) == 4 && Seconds(3) == 8 && Seconds(4) == 16 && Seconds(5) == 32;
    forall k | k >= 6
      ensures Seconds(k) == 60
    {
      AtMostAMinute(k);
    }
  }

  lemma {:induction false} AtMostAMinute(k: nat)
    requires k >= 6
    ensures Seconds(k) == 60
  {
    if k == 6 {
      assert Seconds(1) == 2 && Seconds(2) == 4 && Seconds(3) == 8 && Seconds(4) == 16 && Seconds(5) == 32;
    } else {
      AtMostAMinute(k - 1);
    }
  }

  // ---------------------------------------------------------------------------------
  // The answer of a delivery
  // ---------------------------------------------------------------------------------

  /** How many of these events are in the backoff table. */
  function BackedOff(batch: seq<Event>, retry: map<string, Backoff>): nat {
    if batch == [] then 0
    else BackedOff(batch[..|batch| - 1], retry) + if batch[|batch| - 1].id in retry then 1 else 0
  }

  lemma {:induction false} BackedOffElsewhere(batch: seq<Event>, retry: map<string, Backoff>, retry': map<string, Backoff>)
    requires forall i :: 0 <= i < |batch| ==> (batch[i].id in retry <==> batch[i].id in retry')
    ensures BackedOff(batch, retry) == BackedOff(batch, retry')
  {
    if batch == [] {
    } else {
      BackedOffElsewhere(batch[..|batch| - 1], retry, retry');
    }
  }

  lemma OneMoreTried(batch: seq<Event>, n: nat, retry: map<string, Backoff>, retry': map<string, Backoff>, failed: nat)
    requires n < |batch| && failed == BackedOff(batch[..n], retry)
    requires forall i :: 0 <= i < n ==> batch[i].id != batch[n].id
    requires forall o :: o != batch[n].id ==> (o in retry <==> o in retry')
    ensures BackedOff(batch[..n + 1], retry') == failed + if batch[n].id in retry' then 1 else 0
  {
    assert batch[..n + 1][..n] == batch[..n];
    BackedOffElsewhere(batch[..n], retry, retry');
  }

  /** A due event that is tried is backed off if and only if its try failed, and no other entry changes. */
  lemma TriedOrBackedOff(p: Pump, s: Store, e: Event, ack: Option<PubAck>, stream: string, now: int, wall: int)
    requires e.id !in Blocked(p.retry, now)
    ensures var p' := Try(p, s, e, ack, stream, now, wall).0;
      && (e.id in p'.retry <==> Published(s, e, ack, stream, wall).Failure?)
      && forall o :: o != e.id ==> (o in p.retry <==> o in p'.retry)
  {
  }

  /** A delivery tells how many events it tried, and as failed just those that it leaves backed off. */
  lemma {:induction false} TallyIsExact(p: Pump, s: Store, batch: seq<Event>, acks: seq<Option<PubAck>>, n: nat, stream: string, now: int, wall: int)
    requires n <= |batch| == |acks| && GoodBatch(p, batch, now)
    ensures var (p', _, tally) := TryFirst(p, s, batch, acks, n, stream, now, wall);
      tally.attempted == n && tally.failed == BackedOff(batch[..n], p'.retry)
  {
    if n == 0 {
    } else {
      TallyIsExact(p, s, batch, acks, n - 1, stream, now, wall);
      NextIsDue(p, s, batch, acks, n - 1, stream, now, wall);
      TryNext(p, s, batch, acks, n - 1, stream, now, wall);
      var (p1, s1, tally) := TryFirst(p, s, batch, acks, n - 1, stream, now, wall);
      TriedOrBackedOff(p1, s1, batch[n - 1], acks[n - 1], stream, now, wall);
      OneMoreTried(batch, n - 1, p1.retry, Try(p1, s1, batch[n - 1], acks[n - 1], stream, now, wall).0.retry, tally.failed);
    }
  }

  /** After a delivery the pump knows the earliest next attempt of what is backed off, and nothing if nothing
      is; if it tried something, it starts from the beginning. */
  lemma DeliverySettles(p: Pump, s: Store, batch: seq<Event>, acks: seq<Option<PubAck>>, stream: string, now: int, wall: int)
    requires |batch| == |acks|
    ensures var (p', _, tally) := Deliver(p, s, batch, acks, stream, now, wall);
      && (p'.retry == map[] ==> p'.sleepUntil == None && p'.sleepSignature == None)
      && (p'.retry != map[] ==>
            && p'.sleepUntil.Some? && (exists id :: id in p'.retry && p'.retry[id].nextAt == p'.sleepUntil.value)
            && (forall id :: id in p'.retry ==> p'.sleepUntil.value <= p'.retry[id].nextAt))
      && (tally.attempted > 0 ==> p'.position == None)
  {
    var p1 := TryFirst(p, s, batch, acks, |batch|, stream, now, wall).0;
    if p1.retry != map[] {
      var when := Earliest(p1.retry);
      var id :| id in p1.retry && p1.retry[id].nextAt == when;
      assert Deliver(p, s, batch, acks, stream, now, wall).0.retry[id].nextAt == when;
    }
  }
}
