/** Which events can be left lying for ever (anvil_events/runtime/delivery.py:26-126): exactly those with
    a full batch of deliverable events in front of them. If that batch fails again and again, with a
    minute or more between the turns, it comes due again each time before the pump gets past it.
    A selection that raises after its scan hides what it picked, and an event that comes back to its
    old row can be missed by one sleep. */
module PumpStarvation {
  import opened Basics
  import opened StoreTables
  import opened StoreJoin
  import opened StoreRuns
  import opened Delivery
  import opened Pump
  import opened PumpRuns
  import opened PumpTurns
  import opened PumpProgress
  import opened PumpFront

  /** The pump between two turns of such a run: nothing is backed off beyond `later`. */
  predicate Idles(p: Pump, later: int) {
    p.position.None? && p.seen == {} && p.sleepSignature.None? && Blocked(p.retry, later) == {}
  }

  ghost predicate Crowded(s: Store, id: string) {
    Deliverable(s, id) && |InFront(s, id)| >= BATCH
  }

  // ---------------------------------------------------------------------------------
  // A turn that does not get to the event
  // ---------------------------------------------------------------------------------

  lemma RowIsPicked(s: Store, n: nat, i: nat, seen: set<string>, blocked: set<string>, o: string)
    requires Sane(s) && i < n <= |PendingFrom(s, 1)|
    requires Deliverable(s, o) && o !in seen && o !in blocked && s.events[o].rowId <= PendingFrom(s, 1)[i].rowId
    ensures o in Ids(Fresh(PendingFrom(s, 1)[..n], seen, blocked))
  {
    var all := PendingFrom(s, 1);
    PendingFacts(s, 1);
    var j := RowIsListed(s, None, o);
    assert all[..n][j] == s.events[o];
    FreshKeeps(all[..n], s.events[o], seen, blocked);
  }

  /** A selection from the beginning that looks at an event picks it and everything in front of it, if
      nothing is seen or backed off. */
  lemma FrontIsPickedToo(s: Store, n: nat, i: nat, seen: set<string>, blocked: set<string>, id: string)
    requires Sane(s) && Deliverable(s, id) && i < n <= |PendingFrom(s, 1)| && PendingFrom(s, 1)[i] == s.events[id]
    requires seen == {} && blocked == {}
    ensures InFront(s, id) + {id} <= Ids(Fresh(PendingFrom(s, 1)[..n], seen, blocked))
  {
    forall o | o in InFront(s, id) + {id}
      ensures o in Ids(Fresh(PendingFrom(s, 1)[..n], seen, blocked))
    {
      RowIsPicked(s, n, i, seen, blocked, o);
    }
  }

  /** With a full batch in front of it an event is not picked, and the selection stops before the end. */
  lemma CrowdHides(s: Store, n: nat, seen: set<string>, blocked: set<string>, id: string)
    requires Sane(s) && Crowded(s, id) && n <= |PendingFrom(s, 1)| && seen == {} && blocked == {}
    requires |Fresh(PendingFrom(s, 1)[..n], seen, blocked)| <= BATCH
    ensures id !in Ids(Fresh(PendingFrom(s, 1)[..n], seen, blocked)) && n < |PendingFrom(s, 1)|
  {
    var i := RowIsListed(s, None, id);
    if i < n {
      FrontIsPickedToo(s, n, i, seen, blocked, id);
      PickedCount(s, 1, n, seen, blocked);
      SubsetIsSmaller(InFront(s, id) + {id}, Ids(Fresh(PendingFrom(s, 1)[..n], seen, blocked)));
      assert false;
    }
    PendingFacts(s, 1);
    FreshInFront(s, 1, n, seen, blocked, id);
  }

  lemma FirstIsPicked(s: Store, n: nat, seen: set<string>, blocked: set<string>)
    requires Sane(s) && 0 < n <= |PendingFrom(s, 1)| && Intact(PendingFrom(s, 1), n) && seen == {} && blocked == {}
    ensures Fresh(PendingFrom(s, 1)[..n], seen, blocked) != []
  {
    var all := PendingFrom(s, 1);
    assert all[..n][0] == all[0];
    FreshKeeps(all[..n], all[0], seen, blocked);
  }

  /** The selection of such a turn: it does not pick `id`, and it picks something or repairs. */
  lemma SelectsOthers(p: Pump, s: Store, turn: Turn, id: string)
    requires Sane(s) && Crowded(s, id) && Idles(p, turn.selecting)
    ensures var r := Selecting(p, s, turn);
      && id !in Ids(r.selected) && !r.eof && r.seen == Ids(r.selected)
      && (r.selected == [] ==> r.repaired > 0)
  {
    var blocked := Blocked(p.retry, turn.selecting);
    var n := SelectFacts(s, BATCH, p.seen, blocked, p.position, 4 * BATCH, turn.wall);
    CrowdHides(s, n, p.seen, blocked, id);
    if Selecting(p, s, turn).repaired == 0 {
      FirstIsPicked(s, n, p.seen, blocked);
    }
  }

  /** And its store. */
  lemma SelectKeepsCrowd(p: Pump, s: Store, turn: Turn, id: string)
    requires Sane(s) && Crowded(s, id)
    ensures var s' := Selecting(p, s, turn).store; Sane(s') && Crowded(s', id) && s'.events[id] == s.events[id]
  {
    SelectKeepsWork(p, s, turn);
    FrontStays(s, Selecting(p, s, turn).store, id);
    var n := SelectLeaves(s, BATCH, p.seen, Blocked(p.retry, turn.selecting), p.position, 4 * BATCH, turn.wall);
  }

  lemma FrontStays(s: Store, s': Store, id: string)
    requires SameWork(s, s') && Crowded(s, id)
    ensures Crowded(s', id) && s'.events[id] == s.events[id]
  {
    SubsetIsSmaller(InFront(s, id), InFront(s', id));
  }

  lemma DelayIsAMinuteAtMost(failures: nat)
    ensures Delay(failures) <= 60
  {
  }

  /** A broker that answers nothing: each try backs its event off for at most a minute. */
  lemma {:induction false} AllFail(p: Pump, s: Store, batch: seq<Event>, acks: seq<Option<PubAck>>, n: nat, stream: string, now: int, wall: int)
    requires n <= |batch| == |acks| && GoodBatch(p, batch, now) && Blocked(p.retry, now + 60) == {}
    requires forall i :: 0 <= i < |acks| ==> acks[i].None?
    ensures var (p', s', tally) := TryFirst(p, s, batch, acks, n, stream, now, wall);
      && s' == s && tally.attempted == n
      && p'.seen == p.seen - Ids(batch[..n]) && p'.position == p.position && p'.sleepSignature == p.sleepSignature
      && Blocked(p'.retry, now + 60) == {}
  {
    if n == 0 {
      assert Ids(batch[..0]) == {};
    } else {
      AllFail(p, s, batch, acks, n - 1, stream, now, wall);
      NextIsDue(p, s, batch, acks, n - 1, stream, now, wall);
      TryNext(p, s, batch, acks, n - 1, stream, now, wall);
      var p1 := TryFirst(p, s, batch, acks, n - 1, stream, now, wall).0;
      FailedTry(p1, s, batch[n - 1], stream, now, wall);
      OneFails(p1, p.seen, Ids(batch[..n - 1]), batch[n - 1].id, now);
    }
  }

  lemma FailedTry(p: Pump, s: Store, e: Event, stream: string, now: int, wall: int)
    requires e.id !in Blocked(p.retry, now)
    ensures Try(p, s, e, None, stream, now, wall) == (BackOff(p, e.id, now), s)
  {
  }

  lemma OneFails(p: Pump, seen: set<string>, ids: set<string>, id: string, now: int)
    requires p.seen == seen - ids && Blocked(p.retry, now + 60) == {}
    ensures BackOff(p, id, now).seen == seen - (ids + {id}) && Blocked(BackOff(p, id, now).retry, now + 60) == {}
  {
    DelayIsAMinuteAtMost(Failures(p.retry, id) + 1);
    forall other | other in BackOff(p, id, now).retry
      ensures BackOff(p, id, now).retry[other].nextAt <= now + 60
    {
      if other != id {
        assert other !in Blocked(p.retry, now + 60);
      }
    }
  }

  /** A turn at `now`, with a broker that answers nothing. */
  function SilentTurn(now: int): Turn {
    Turn(now, now, now, 0, NoFault, None, (_: string) => None)
  }

  lemma StarvingWork(p: Pump, s: Store, now: int, stream: string, id: string)
    requires Sane(s) && Crowded(s, id) && Idles(p, now)
    ensures var (p', s') := WorkTurn(p, s, SilentTurn(now), stream);
      s' == Selecting(p, s, SilentTurn(now)).store && Idles(p', now + 60)
  {
    var turn := SilentTurn(now);
    SelectsOthers(p, s, turn, id);
    var r := Selecting(p, s, turn);
    NothingBackedOff(p, now);
    if r.selected != [] {
      BatchIsGood(p, s, turn);
      AllFail(Adopted(p, r), r.store, r.selected, AnswersTo(r.selected, turn.broker), |r.selected|, stream, now, 0);
      assert r.selected[..|r.selected|] == r.selected;
    }
  }

  /** Such a turn leaves the pump idle and the event where it is. */
  lemma StarvingTurn(p: Pump, s: Store, now: int, stream: string, id: string)
    requires Sane(s) && Crowded(s, id) && Idles(p, now)
    ensures id !in Ids(Attempted(p, s, SilentTurn(now)))
    ensures var (p', s') := TurnOf(p, s, SilentTurn(now), stream);
      Sane(s') && Crowded(s', id) && s'.events[id] == s.events[id] && Idles(p', now + 60)
  {
    var p1 := Wait(p, Signature(s), now).0;
    assert Idles(p1, now) && !Wait(p, Signature(s), now).1;
    SelectsOthers(p1, s, SilentTurn(now), id);
    SelectKeepsCrowd(p1, s, SilentTurn(now), id);
    StarvingWork(p1, s, now, stream, id);
  }

  lemma NothingBackedOff(p: Pump, now: int)
    requires Blocked(p.retry, now) == {}
    ensures Blocked(p.retry, now + 60) == {}
  {
    forall id | id in p.retry
      ensures p.retry[id].nextAt <= now + 60
    {
      assert id !in Blocked(p.retry, now);
    }
  }

  /** `k` turns, a minute apart, after `clock`. */
  function SilentTurns(clock: int, k: nat): (turns: seq<Turn>)
    ensures |turns| == k && AllFine(turns) && ClockAfter(turns, clock) == clock + 60 * k
  {
    if k == 0 then [] else SilentTurns(clock, k - 1) + [SilentTurn(clock + 60 * k)]
  }

  /** However many turns there are, none attempts an event with a full batch of deliverable events in
      front of it, though it is due all the time. */
  lemma {:induction false} CrowdStarves(p: Pump, s: Store, stream: string, clock: int, k: nat, id: string)
    requires Sane(s) && Crowded(s, id) && Idles(p, clock + 60)
    ensures Orderly(p, s, SilentTurns(clock, k), stream, clock)
    ensures Overlooked(Attempts(p, s, SilentTurns(clock, k), stream), id)
    ensures var (p', s') := RunOf(p, s, SilentTurns(clock, k), stream);
      && Sane(s') && Crowded(s', id) && s'.events[id] == s.events[id]
      && Idles(p', clock + 60 * k + 60) && IsDue(s', p', clock + 60 * k + 60, id)
  {
    if k == 0 {
    } else {
      var turns := SilentTurns(clock, k);
      var front := turns[..k - 1];
      assert front == SilentTurns(clock, k - 1);
      CrowdStarves(p, s, stream, clock, k - 1, id);
      var (p1, s1) := RunOf(p, s, front, stream);
      StarvingTurn(p1, s1, clock + 60 * k, stream, id);
      OverlookedFront(Attempts(p, s, front, stream), Attempted(p1, s1, SilentTurn(clock + 60 * k)), id);
    }
  }

  // ---------------------------------------------------------------------------------
  // Exactly which events are sure of an attempt
  // ---------------------------------------------------------------------------------

  /** A pump started on these tables attempts the event within `n` turns, whatever the broker answers and
      however the clock runs. */
  ghost predicate AttemptedWithin(s: Store, id: string, n: nat) {
    forall turns, stream, clock ::
      Orderly(Started(), s, turns, stream, clock) && AllFine(turns) && |turns| >= n ==>
        !Overlooked(Attempts(Started(), s, turns, stream), id)
  }

  /** An event is sure to be attempted at all if and only if less than a batch of deliverable events is
      in front of it; then two turns are enough. */
  lemma AttemptedExactly(s: Store, id: string)
    requires Sane(s) && Deliverable(s, id)
    ensures AttemptedWithin(s, id, 2) <==> |InFront(s, id)| < BATCH
    ensures (exists n: nat :: AttemptedWithin(s, id, n)) <==> |InFront(s, id)| < BATCH
  {
    if |InFront(s, id)| < BATCH {
      forall turns, stream, clock | Orderly(Started(), s, turns, stream, clock) && AllFine(turns) && |turns| >= 2
        ensures !Overlooked(Attempts(Started(), s, turns, stream), id)
      {
        assert Ids([]) == {};
        FrontIsAttempted(Started(), s, turns, stream, clock, id);
      }
    } else {
      forall n: nat
        ensures !AttemptedWithin(s, id, n)
      {
        CrowdStarves(Started(), s, "", 0, n, id);
      }
    }
  }

  // ---------------------------------------------------------------------------------
  // Such stores exist
  // ---------------------------------------------------------------------------------

  const POISON := Draft("p", "s", "n", "k", Text("x"), None, [], true)

  /** A new pending row comes last. */
  lemma {:induction false} NewRowIsLast(s: Store, s': Store, id: string, row: Row, k: nat)
    requires RowIds(s) && RowIds(s') && id !in s.events && s'.events == s.events[id := row] && s'.nextRow == s.nextRow + 1
    requires row.rowId == s.nextRow && row.role == Some(Pending) && k <= s.nextRow
    ensures PendingFrom(s', k) == PendingFrom(s, k) + [row]
    decreases s.nextRow - k
  {
    if k == s.nextRow {
      assert PendingAt(s', id, k);
      assert forall other :: PendingAt(s', other, k) ==> other == id;
      assert PendingFrom(s', k) == [row] + PendingFrom(s', k + 1) && PendingFrom(s', k + 1) == [];
      assert PendingFrom(s, k) == [];
    } else {
      NewRowIsLast(s, s', id, row, k + 1);
      forall other
        ensures PendingAt(s', other, k) <==> PendingAt(s, other, k)
      {
      }
      if other :| PendingAt(s, other, k) {
        assert forall o :: PendingAt(s, o, k) ==> o == other;
        assert PendingFrom(s, k) == [s.events[other]] + PendingFrom(s, k + 1);
        assert PendingFrom(s', k) == [s.events[other]] + PendingFrom(s', k + 1);
        assert [s.events[other]] + (PendingFrom(s, k + 1) + [row]) == [s.events[other]] + PendingFrom(s, k + 1) + [row];
      }
    }
  }

  lemma EmitAppends(s: Store) returns (s': Store)
    requires Sane(s)
    ensures Sane(s') && |PendingFrom(s', 1)| == |PendingFrom(s, 1)| + 1
    ensures PendingFrom(s', 1)[..|PendingFrom(s, 1)|] == PendingFrom(s, 1) && PendingFrom(s', 1)[|PendingFrom(s, 1)|].damaged.None?
  {
    EmitSucceeds(s, POISON, 0);
    EmitIsFresh(s, POISON);
    s' := Emit(s, POISON, 0).value.0;
    var e := Emit(s, POISON, 0).value.1;
    EmitConserves(s, POISON, 0, DoEmit(POISON));
    EmitArrives(s, POISON, 0);
    PutNextRow(s, e, Some(Pending), false, 0);
    NewRowIsLast(s, s', e.id, NewRow(s, e, Some(Pending), false, 0), 1);
  }

  lemma {:induction false} Crowd(k: nat) returns (s: Store)
    ensures Sane(s) && |PendingFrom(s, 1)| == k
    ensures forall i :: 0 <= i < k ==> PendingFrom(s, 1)[i].damaged.None?
  {
    if k == 0 {
      s := Empty();
      assert PendingFrom(s, 1) == [];
    } else {
      var before := Crowd(k - 1);
      s := EmitAppends(before);
      forall i | 0 <= i < k
        ensures PendingFrom(s, 1)[i].damaged.None?
      {
        if i < k - 1 {
          assert PendingFrom(s, 1)[i] == PendingFrom(s, 1)[..k - 1][i];
        }
      }
    }
  }

  /** There are such tables: one event more than a batch. */
  lemma CrowdedStore() returns (s: Store, id: string)
    ensures Sane(s) && Crowded(s, id)
  {
    s := Crowd(BATCH + 1);
    PendingFacts(s, 1);
    var all := PendingFrom(s, 1);
    assert InStore(s, all[BATCH]);
    id := all[BATCH].event.id;
    FrontHolds(s, 1, BATCH, id);
  }

  /** Two pending events of which the first is backed off: a selection picks the other one. */
  lemma OtherIsPicked(s: Store, p: Pump, now: int, a: string, b: string)
    requires Sane(s) && |PendingFrom(s, 1)| == 2 && SpoiledIds(s) == {} && a != b
    requires PendingFrom(s, 1)[0].event.id == a && PendingFrom(s, 1)[1].event.id == b
    requires PendingFrom(s, 1)[1].damaged.None?
    requires p.position == None && p.seen == {} && Blocked(p.retry, now) == {a}
    ensures var r := SelectOf(s, BATCH, p.seen, {a}, None, 4 * BATCH, 0); r.eof && b in Ids(r.selected)
  {
    var rows := PendingFrom(s, 1);
    assert Window(s, None, 4 * BATCH) == (rows, true);
    var rest := rows[1..];
    assert rest[0] == rows[1] && rest[1..] == [];
    assert Scan(rest[1..], {b}, BATCH - 1, {a}) == Scanned([], {b}, 0, false, false);
    assert {} + {b} == {b};
    assert Scan(rest, {}, BATCH, {a}).selected == [rows[1].event] + [];
    assert Scan(rows, {}, BATCH, {a}).selected == [rows[1].event];
    assert rows[1].event in [rows[1].event];
  }

  /** A store and a pump for which a selection that raises after its scan hides a due event
      (`PumpRuns.InterruptedSelectHidesWork`). */
  lemma InterruptionHappens(now: int) returns (s: Store, p: Pump, id: string)
    ensures Sane(s) && p.retry != map[]
    ensures var r := SelectOf(s, BATCH, p.seen, Blocked(p.retry, now), None, 4 * BATCH, 0);
      var (p', batch, s') := SelectBatch(GiveUp(p.(seen := MarkedBy(Unsigned, p.seen, r)), []), s, BATCH, now, 0);
      && batch == [] && Wait(p', Signature(s'), now).1
      && IsPending(s', id) && id !in p'.retry
  {
    s := Crowd(2);
    var rows := PendingFrom(s, 1);
    PendingFacts(s, 1);
    PendingDistinct(s, 1);
    var a := rows[0].event.id;
    id := rows[1].event.id;
    p := Started().(retry := map[a := Backoff(1, now + 2)]);
    assert Blocked(p.retry, now) == {a};
    assert a in p.retry;
    NothingSpoiledIn(s);
    OtherIsPicked(s, p, now, a, id);
    InterruptedSelectHidesWork(s, p, BATCH, now, 0, id);
  }

  lemma NothingSpoiledIn(s: Store)
    requires Sane(s) && forall i :: 0 <= i < |PendingFrom(s, 1)| ==> PendingFrom(s, 1)[i].damaged.None?
    ensures SpoiledIds(s) == {}
  {
    forall id | id in s.events
      ensures !Spoiled(s.events[id])
    {
      if s.events[id].role == Some(Pending) {
        PendingComplete(s, 1, id);
      }
    }
  }

  // ---------------------------------------------------------------------------------
  // Events that come back
  // ---------------------------------------------------------------------------------

  /** An event that had left delivery is pending again in its old row. */
  ghost predicate Revived(s: Store, s': Store, id: string) {
    && id in s.events && id in s'.events && s.events[id].role.None? && Deliverable(s', id)
    && s'.events == s.events[id := s'.events[id]] && s'.nextRow == s.nextRow
    && s'.events[id].rowId == s.events[id].rowId && s'.counter == s.counter + 1
  }

  lemma RevivalKeepsSane(s: Store, e: Event, wall: int)
    requires Sane(s) && Revives(s, DoAppend(e)) && Append(s, e, wall).Success?
    ensures var s' := Append(s, e, wall).value; Sane(s') && Revived(s, s', e.id)
  {
    PutConserves(s, e, Some(Pending), false, wall, DoAppend(e));
    PutShape(s, e, Some(Pending), false, wall);
    PutNextRow(s, e, Some(Pending), false, wall);
  }

  /** Of what a selection may miss, only the revived event was not covered before. */
  lemma OnlyRevivedIsMissed(s: Store, s1: Store, s': Store, p: Pump, clock: int, id: string)
    requires PumpInv(s, p, ToSelect, clock) && RowIds(s) && Revived(s, s1, id) && SameWork(s1, s')
    requires forall o :: IsPending(s', o) && o in s1.events && s1.events[o].rowId > Start(p.position) && o !in p.seen ==> o in p.retry
    ensures IsPending(s', id) && forall o :: IsPending(s', o) && o != id ==> o in p.retry
    ensures (forall o :: IsPending(s', o) ==> o in p.retry) <==>
              (s.events[id].rowId > Start(p.position) && id !in p.seen) || id in p.retry
  {
    NoneHeld(s, p, clock);
    forall o | IsPending(s', o) && o != id
      ensures o in p.retry
    {
      assert IsPending(s, o) && s1.events[o] == s.events[o];
    }
  }

  /** A revived event has its old row, which the pump may be past, and the pump may still count it as
      seen. The next sleep then misses it, and it alone: the sleep covers everything pending if and
      only if the event lies behind the position and is not seen, or is in the backoff table. */
  lemma RevivalMissedExactly(s: Store, p: Pump, clock: int, e: Event, max: nat, now: int, wall: int)
    requires Sane(s) && PumpInv(s, p, ToSelect, clock) && max > 0 && p.retry != map[]
    requires Revives(s, DoAppend(e)) && Append(s, e, wall).Success?
    ensures var s1 := Append(s, e, wall).value;
      && Sane(s1)
      && var (p', batch, s') := SelectBatch(p, s1, max, now, wall);
        batch == [] && Chosen(p, s1, max, now, wall).eof ==>
          && p'.sleepSignature == Some(Signature(s')) && p'.retry == p.retry && IsPending(s', e.id)
          && (forall id :: IsPending(s', id) && id != e.id ==> id in p.retry)
          && ((forall id :: IsPending(s', id) ==> id in p.retry) <==>
              (s.events[e.id].rowId > Start(p.position) && e.id !in p.seen) || e.id in p.retry)
  {
    RevivalKeepsSane(s, e, wall);
    var s1 := Append(s, e, wall).value;
    if SelectBatch(p, s1, max, now, wall).1 == [] && Chosen(p, s1, max, now, wall).eof {
      SleepMissesExactly(s1, p, max, now, wall);
      ChosenKeepsWork(p, s1, max, now, wall);
      RestIsCovered(s1, p, max, now, wall);
      OnlyRevivedIsMissed(s, s1, SelectBatch(p, s1, max, now, wall).2, p, clock, e.id);
    }
  }

  lemma RestIsCovered(s: Store, p: Pump, max: nat, now: int, wall: int)
    requires Sane(s) && max > 0 && SelectBatch(p, s, max, now, wall).1 == [] && Chosen(p, s, max, now, wall).eof
    ensures var s' := SelectBatch(p, s, max, now, wall).2;
      forall o :: IsPending(s', o) && o in s.events && s.events[o].rowId > Start(p.position) && o !in p.seen ==> o in p.retry
  {
    var blocked := Blocked(p.retry, now);
    var n := SelectLeaves(s, max, p.seen, blocked, p.position, 4 * max, wall);
    var all := PendingFrom(s, Start(p.position) + 1);
    assert all[..n] == all;
    AllElseIsCovered(s, p, Chosen(p, s, max, now, wall), n, blocked);
  }

  lemma ChosenKeepsWork(p: Pump, s: Store, max: nat, now: int, wall: int)
    requires Sane(s) && max > 0
    ensures SameWork(s, SelectBatch(p, s, max, now, wall).2)
  {
    var r := Chosen(p, s, max, now, wall);
    var n := SelectFacts(s, max, p.seen, Blocked(p.retry, now), p.position, 4 * max, wall);
    if r.repaired > 0 {
      RepairKeepsWork(s, r.store, wall, r.repaired);
    }
  }
}
