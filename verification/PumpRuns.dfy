/** No lost wakeup: over every run of the delivery pump, interleaved with every other use of the
    store, the pump keeps waiting only while everything pending is backed off. */
module PumpRuns {
  import opened Basics
  import opened StoreTables
  import opened StoreJoin
  import opened StoreRuns
  import opened Delivery
  import opened Pump

  // ---------------------------------------------------------------------------------
  // How work arrives
  // ---------------------------------------------------------------------------------

  /** An event that left delivery is handed in again. */
  predicate Revives(s: Store, step: Step) {
    step.DoAppend? && step.event.id in s.events && s.events[step.event.id].role.None?
  }

  /** Rows keep their ids; what is newly pending is in rows behind all earlier ones. */
  ghost predicate Arrives(s: Store, s': Store) {
    && s.nextRow <= s'.nextRow && RowIds(s')
    && (forall id :: id in s.events ==>
          && id in s'.events && s'.events[id].rowId == s.events[id].rowId
          && (s'.events[id].role == Some(Pending) ==> s.events[id].role == Some(Pending)))
    && (forall id :: id in s'.events && id !in s.events ==> s.nextRow <= s'.events[id].rowId)
  }

  lemma ArrivesTwice(a: Store, b: Store, c: Store)
    requires Arrives(a, b) && Arrives(b, c)
    ensures Arrives(a, c)
  {
    forall id | id in c.events && id !in a.events
      ensures a.nextRow <= c.events[id].rowId
    {
      if id in b.events {
        assert c.events[id].rowId == b.events[id].rowId;
      }
    }
  }

  /** One row changed or was added. */
  ghost predicate OneRow(s: Store, s': Store, id: string, row: Row) {
    && s'.events == s.events[id := row]
    && (if id in s.events then
          s'.nextRow == s.nextRow && row.rowId == s.events[id].rowId
          && (row.role == Some(Pending) ==> s.events[id].role == Some(Pending))
        else s'.nextRow == s.nextRow + 1 && row.rowId == s.nextRow)
  }

  lemma OneRowArrives(s: Store, s': Store, id: string, row: Row)
    requires RowIds(s) && OneRow(s, s', id, row)
    ensures Arrives(s, s')
  {
    forall a, b | a in s'.events && b in s'.events && a != b
      ensures s'.events[a].rowId != s'.events[b].rowId
    {
    }
  }

  lemma PutNextRow(s: Store, e: Event, role: Option<Role>, journaled: bool, now: int)
    requires Put(s, e, role, journaled, now).Success?
    ensures Put(s, e, role, journaled, now).value.0.nextRow == if e.id in s.events then s.nextRow else s.nextRow + 1
  {
  }

  lemma StillPending(was: Option<Role>, role: Option<Role>)
    requires role == Some(Pending) ==> was.Some?
    ensures NewRole(was, role) == Some(Pending) ==> was == Some(Pending)
  {
    if was.Some? {
      assert was.value == Pending || was.value == Acked;
    }
  }

  lemma PutArrives(s: Store, e: Event, role: Option<Role>, journaled: bool, now: int)
    requires RowIds(s) && Put(s, e, role, journaled, now).Success?
    requires role == Some(Pending) && e.id in s.events ==> s.events[e.id].role.Some?
    ensures Arrives(s, Put(s, e, role, journaled, now).value.0)
  {
    PutShape(s, e, role, journaled, now);
    PutNextRow(s, e, role, journaled, now);
    if e.id in s.events {
      StillPending(s.events[e.id].role, role);
    }
    OneRowArrives(s, Put(s, e, role, journaled, now).value.0, e.id, RowAfter(s, e, role, journaled, now));
  }

  lemma OldRowsArrive(s: Store)
    requires RowIds(s)
    ensures Arrives(s, s)
  {
  }

  /** Tables with the same events. */
  lemma SameEventsArrive(s: Store, s1: Store, s2: Store)
    requires Arrives(s, s1) && s2.events == s1.events && s2.nextRow == s1.nextRow
    ensures Arrives(s, s2)
  {
  }

  /** Rows leaving their role. */
  lemma ReleaseArrives(s: Store, s': Store)
    requires RowIds(s) && s'.events.Keys == s.events.Keys && s'.nextRow == s.nextRow
    requires forall id :: id in s.events ==> s'.events[id] == s.events[id] || s'.events[id] == s.events[id].(role := None)
    ensures Arrives(s, s')
  {
  }

  lemma EmitArrives(s: Store, d: Draft, now: int)
    requires RowsInv(s) && RowIds(s)
    ensures Emit(s, d, now).Success? ==> Arrives(s, Emit(s, d, now).value.0)
    ensures Audit(s, d, now).Success? ==> Arrives(s, Audit(s, d, now).value.0)
  {
    EmitIsFresh(s, d);
    var e := Envelope(d, LastSequence(s, d.producer) + 1);
    if Put(s, e, Some(Pending), false, now).Success? {
      PutArrives(s, e, Some(Pending), false, now);
      var (s', r) := Put(s, e, Some(Pending), false, now).value;
      assert Emit(s, d, now).value.0 == Bumped(s', r.changed);
      SameEventsArrive(s, s', Bumped(s', r.changed));
    }
    if Put(s, e, None, true, now).Success? {
      PutArrives(s, e, None, true, now);
    }
  }

  lemma AckArrives(s: Store, e: Event, p: PubAck, now: int)
    requires RowIds(s) && RecordPuback(s, e, p, now).Success?
    ensures var s' := RecordPuback(s, e, p, now).value;
      Arrives(s, s') && e.id in s'.events && s'.events[e.id].role == Some(Acked)
  {
    PutShape(s, e, Some(Acked), false, now);
    PutNextRow(s, e, Some(Acked), false, now);
    var s' := RecordPuback(s, e, p, now).value;
    OneRowArrives(s, s', e.id, s'.events[e.id]);
  }

  lemma RowsKeptOnRelease(s: Store, s': Store)
    requires RowsInv(s) && s'.events.Keys == s.events.Keys && s'.sequences == s.sequences
    requires forall id :: id in s.events ==> s'.events[id] == s.events[id] || s'.events[id] == s.events[id].(role := None)
    ensures RowsInv(s')
  {
    forall id | id in s'.events
      ensures RowOk(s'.events[id], id, s'.sequences)
    {
      assert RowOk(s.events[id], id, s.sequences);
    }
  }

  lemma RepairArrives(s: Store, now: int)
    requires RowsInv(s) && RowIds(s) && Repair(s, now).Success?
    ensures Arrives(s, Repair(s, now).value.0)
  {
    var ids := SpoiledIds(s);
    if ids != {} {
      var u := Bumped(TakenOut(s, ids), true);
      ReleaseArrives(s, u);
      RowsKeptOnRelease(s, u);
      EmitArrives(u, AuditDraft("local:recovery", SPOILED_CAUSE, |ids|), now);
      ArrivesTwice(s, u, Repair(s, now).value.0);
    }
  }

  lemma CollectArrives(s: Store, cutoff: int, now: int)
    requires RowsInv(s) && RowIds(s) && Collect(s, cutoff, now).Success?
    ensures Arrives(s, Collect(s, cutoff, now).value.0)
  {
    var ids := ExpiredIds(s, cutoff);
    if ids != {} {
      var u := Expire(s, ids);
      ReleaseArrives(s, u);
      RowsKeptOnRelease(s, u);
      EmitArrives(u, AuditDraft("local:gc", EXPIRED_CAUSE, |ids|), now);
      ArrivesTwice(s, u, Collect(s, cutoff, now).value.0);
    }
  }

  lemma EmitsOrNotArrives(s: Store, d: Draft, now: int, s': Store)
    requires RowsInv(s) && RowIds(s) && EmitsOrNot(s, d, now, s')
    ensures Arrives(s, s')
  {
    OldRowsArrive(s);
    EmitArrives(s, d, now);
    if s' != s {
      SameEventsArrive(s, Emit(s, d, now).value.0, s');
    }
  }

  lemma LedgerStepArrives(s: Store, step: Step, now: int)
    requires RowsInv(s) && RowIds(s) && KeysIndex(s.keys, s.operations) && (step.DoRecord? || step.DoResolve?)
    ensures Arrives(s, StoreAfter(s, step, now))
  {
    OldRowsArrive(s);
    if step.DoRecord? {
      RecordEmits(s, step, now);
      EmitsOrNotArrives(s, RecordDraft(step.request, step.subject, step.node, step.payload, step.causes, step.sound), now,
        StoreAfter(s, step, now));
    } else {
      ResolveEmits(s, step, now);
      if step.id in s.operations {
        var op := s.operations[step.id];
        EmitsOrNotArrives(s, Draft(op.producer, step.subject, step.node, op.kind, op.intent, op.correlation, [], step.sound), now,
          StoreAfter(s, step, now));
      }
    }
  }

  lemma PutStepArrives(s: Store, step: Step, now: int)
    requires RowsInv(s) && RowIds(s) && KeysIndex(s.keys, s.operations) && !Revives(s, step)
    requires step.DoAppend? || step.DoJournal? || step.DoAck?
    ensures Arrives(s, StoreAfter(s, step, now))
  {
    OldRowsArrive(s);
    var e := step.event;
    if step.DoAppend? && Put(s, e, Some(Pending), false, now).Success? {
      PutArrives(s, e, Some(Pending), false, now);
      SameEventsArrive(s, Put(s, e, Some(Pending), false, now).value.0, StoreAfter(s, step, now));
    } else if step.DoJournal? && Put(s, e, None, true, now).Success? {
      PutArrives(s, e, None, true, now);
    } else if step.DoAck? && RecordPuback(s, e, step.puback, now).Success? {
      AckArrives(s, e, step.puback, now);
    }
  }

  lemma SweepStepArrives(s: Store, step: Step, now: int)
    requires RowsInv(s) && RowIds(s) && KeysIndex(s.keys, s.operations) && (step.DoRepair? || step.DoCollect?)
    ensures Arrives(s, StoreAfter(s, step, now))
  {
    OldRowsArrive(s);
    if step.DoRepair? && Repair(s, now).Success? {
      RepairArrives(s, now);
    } else if step.DoCollect? && Collect(s, step.cutoff, now).Success? {
      CollectArrives(s, step.cutoff, now);
    }
  }

  /** Every step of the store that does not revive an event only brings work behind the old rows. */
  lemma StepArrives(s: Store, step: Step, now: int)
    requires RowsInv(s) && RowIds(s) && KeysIndex(s.keys, s.operations) && !Revives(s, step)
    ensures Arrives(s, StoreAfter(s, step, now))
  {
    OldRowsArrive(s);
    match step
    case DoAppend(_) => PutStepArrives(s, step, now);
    case DoJournal(_) => PutStepArrives(s, step, now);
    case DoEmit(d) => EmitArrives(s, d, now);
    case DoAck(_, _) => PutStepArrives(s, step, now);
    case DoRepair => SweepStepArrives(s, step, now);
    case DoCollect(_) => SweepStepArrives(s, step, now);
    case DoPrepare(_, _) => SameEventsArrive(s, s, StoreAfter(s, step, now));
    case DoRecord(_, _, _, _, _, _) => LedgerStepArrives(s, step, now);
    case DoResolve(_, _, _, _, _, _, _) => LedgerStepArrives(s, step, now);
    case DoMark(_, _) => SameEventsArrive(s, s, StoreAfter(s, step, now));
    case Damage(id, spoil) =>
      if id in s.events {
        OneRowArrives(s, Damaged(s, id, spoil), id, s.events[id].(damaged := Some(spoil)));
      }
  }

  // ---------------------------------------------------------------------------------
  // The pump beside the rest of the program
  // ---------------------------------------------------------------------------------

  /** Where the pump stands between two of its transactions. While it holds a batch, `rest` is
      the part not yet tried. */
  datatype Loc =
    | Top
    | ToSelect
    | Holding(batch: seq<Event>, rest: seq<Event>, attempted: bool)

  /** `clock` is the pump's last reading of the monotonic clock. */
  datatype Machine = Machine(world: World, pump: Pump, loc: Loc, clock: int)

  datatype Move =
    | StoreStep(step: Step, wall: int)
    | Waits(now: int)
    | Selects(max: nat, fault: Fault, now: int, wall: int)
    | Tries(ack: Option<PubAck>, stream: string, now: int, wall: int)
    | Settles
    | GivesUp

  function Rest(loc: Loc): seq<Event> {
    if loc.Holding? then loc.rest else []
  }

  ghost function Chosen(p: Pump, s: Store, max: nat, now: int, wall: int): Selection
    requires max > 0 && Sane(s)
  {
    SelectOf(s, max, p.seen, Blocked(p.retry, now), p.position, 4 * max, wall)
  }

  /** If the selection raises, it has marked nothing as seen. */
  ghost predicate Harmless(fault: Fault, p: Pump, r: Selection) {
    Raises(fault, r) ==> MarkedBy(fault, p.seen, r) == p.seen
  }

  ghost predicate Enabled(m: Machine, move: Move) {
    match move
    case StoreStep(step, _) => !Revives(m.world.store, step)
    case Waits(now) => m.loc.Top? && m.clock <= now
    case Selects(max, fault, now, wall) =>
      && m.loc.ToSelect? && max > 0 && m.clock <= now && Sane(m.world.store)
      && Harmless(fault, m.pump, Chosen(m.pump, m.world.store, max, now, wall))
    case Tries(_, _, now, _) => m.loc.Holding? && m.loc.rest != [] && m.clock <= now
    case Settles => m.loc.Holding? && m.loc.rest == []
    case GivesUp => m.loc.Holding?
  }

  /** The tables of every reachable state. */
  ghost predicate StoreOk(w: World) {
    StoreRuns.Inv(w) && RowIds(w.store)
  }

  /** A move that is not enabled does nothing. */
  ghost function After(m: Machine, move: Move): Machine {
    if Enabled(m, move) then Moved(m, move) else m
  }

  ghost function Moved(m: Machine, move: Move): Machine
    requires Enabled(m, move)
  {
    var w, p := m.world, m.pump;
    match move
    case StoreStep(step, wall) => m.(world := Next(w, step, wall))
    case Waits(now) =>
      var (p', stay) := Wait(p, Signature(w.store), now);
      m.(pump := p', loc := if stay then Top else ToSelect, clock := now)
    case Selects(max, fault, now, wall) =>
      var r := Chosen(p, w.store, max, now, wall);
      if Raises(fault, r) then
        Machine(w.(store := LeftBy(fault, w.store, r)), GiveUp(p.(seen := MarkedBy(fault, p.seen, r)), []), Top, now)
      else
        Machine(w.(store := r.store), Adopted(p, r), if r.selected == [] then Top else Holding(r.selected, r.selected, false), now)
    case Tries(ack, stream, now, wall) =>
      var e := m.loc.rest[0];
      var (p', s') := Try(p, w.store, e, ack, stream, now, wall);
      var tried := e.id !in Blocked(p.retry, now);
      var acked := tried && Published(w.store, e, ack, stream, wall).Success?;
      Machine(w.(store := s', acked := w.acked + if acked then {e} else {}), p',
        m.loc.(rest := m.loc.rest[1..], attempted := m.loc.attempted || tried), now)
    case Settles => m.(pump := Settle(p, m.loc.attempted), loc := Top)
    case GivesUp => m.(pump := GiveUp(p, m.loc.batch), loc := Top)
  }

  // ---------------------------------------------------------------------------------
  // The invariant
  // ---------------------------------------------------------------------------------

  predicate IsPending(s: Store, id: string) {
    id in s.events && s.events[id].role == Some(Pending)
  }

  /** Nothing pending is marked as seen, except what is in hand. */
  ghost predicate SeenInv(s: Store, p: Pump, held: set<string>) {
    && p.seen <= s.events.Keys
    && forall id :: id in p.seen && IsPending(s, id) ==> id in held
  }

  /** Every pending row at or below the position is backed off, or in hand. */
  ghost predicate PositionInv(s: Store, p: Pump, held: set<string>) {
    p.position.Some? ==>
      && p.position.value < s.nextRow
      && forall id :: IsPending(s, id) && s.events[id].rowId <= p.position.value ==> id in p.retry || id in held
  }

  /** While the signature the pump sleeps on is current, everything pending is backed off, at least
      until the end of the sleep. */
  ghost predicate SleepInv(s: Store, p: Pump) {
    p.sleepSignature.Some? ==>
      && p.seen == {} && p.sleepUntil.Some?
      && (forall id :: id in p.retry ==> p.sleepUntil.value <= p.retry[id].nextAt)
      && p.sleepSignature.value.0 <= s.counter
      && (p.sleepSignature.value.0 == s.counter ==> forall id :: IsPending(s, id) ==> id in p.retry)
  }

  /** The untried part of a batch is due, and has each event once. */
  ghost predicate HandInv(p: Pump, loc: Loc, clock: int) {
    loc.Holding? ==>
      && Ids(loc.rest) <= Ids(loc.batch)
      && (forall i :: 0 <= i < |loc.rest| ==> loc.rest[i].id !in Blocked(p.retry, clock))
      && (forall i, j :: 0 <= i < j < |loc.rest| ==> loc.rest[i].id != loc.rest[j].id)
  }

  ghost predicate PumpInv(s: Store, p: Pump, loc: Loc, clock: int) {
    var held := Ids(Rest(loc));
    && SeenInv(s, p, held) && PositionInv(s, p, held) && SleepInv(s, p) && HandInv(p, loc, clock)
    && (!loc.Top? ==> p.sleepSignature.None?)
  }

  ghost predicate MachineInv(m: Machine) {
    StoreOk(m.world) && PumpInv(m.world.store, m.pump, m.loc, m.clock)
  }

  // ---------------------------------------------------------------------------------
  // Steps keep it
  // ---------------------------------------------------------------------------------

  lemma ArrivalKeepsPump(s: Store, s': Store, p: Pump, loc: Loc, clock: int)
    requires PumpInv(s, p, loc, clock) && Arrives(s, s') && CounterMoves(s, s')
    ensures PumpInv(s', p, loc, clock)
  {
    forall id
      ensures id in s.events.Keys && IsPending(s', id) ==> IsPending(s, id)
    {
    }
    if s'.counter == s.counter {
      assert PendingIds(s') == PendingIds(s);
      forall id
        ensures IsPending(s', id) <==> IsPending(s, id)
      {
        assert id in PendingIds(s) <==> IsPending(s, id);
        assert id in PendingIds(s') <==> IsPending(s', id);
      }
    }
  }

  lemma WaitKeeps(s: Store, p: Pump, clock: int, now: int)
    requires PumpInv(s, p, Top, clock) && clock <= now
    ensures var (p', stay) := Wait(p, Signature(s), now);
      PumpInv(s, p', if stay then Top else ToSelect, now)
  {
  }

  lemma GiveUpKeeps(s: Store, p: Pump, loc: Loc, clock: int)
    requires PumpInv(s, p, loc, clock)
    ensures loc.ToSelect? ==> PumpInv(s, GiveUp(p, []), Top, clock)
    ensures loc.Holding? ==> PumpInv(s, GiveUp(p, loc.batch), Top, clock)
  {
    assert Ids([]) == {};
  }

  lemma SettleKeeps(s: Store, p: Pump, loc: Loc, clock: int)
    requires PumpInv(s, p, loc, clock) && loc.Holding? && loc.rest == []
    ensures PumpInv(s, Settle(p, loc.attempted), Top, clock)
  {
  }

  /** What holding one event less means. */
  lemma DropFirst(rest: seq<Event>)
    requires rest != []
    ensures Ids(rest) == {rest[0].id} + Ids(rest[1..])
  {
    assert rest == [rest[0]] + rest[1..];
  }

  lemma TryFails(s: Store, p: Pump, loc: Loc, clock: int, now: int)
    requires PumpInv(s, p, loc, clock) && loc.Holding? && loc.rest != [] && clock <= now
    ensures PumpInv(s, BackOff(p, loc.rest[0].id, now), loc.(rest := loc.rest[1..], attempted := true), now)
  {
    DropFirst(loc.rest);
    var rest := loc.rest[1..];
    forall i | 0 <= i < |rest|
      ensures rest[i] == loc.rest[i + 1] && rest[i].id != loc.rest[0].id
    {
    }
  }

  lemma TrySucceeds(s: Store, s': Store, p: Pump, loc: Loc, clock: int, now: int)
    requires PumpInv(s, p, loc, clock) && loc.Holding? && loc.rest != [] && clock <= now
    requires Arrives(s, s') && CounterMoves(s, s') && !IsPending(s', loc.rest[0].id)
    ensures PumpInv(s', p.(retry := p.retry - {loc.rest[0].id}), loc.(rest := loc.rest[1..], attempted := true), now)
  {
    ArrivalKeepsPump(s, s', p, loc, clock);
    DropFirst(loc.rest);
    var rest := loc.rest[1..];
    forall i | 0 <= i < |rest|
      ensures rest[i] == loc.rest[i + 1] && rest[i].id != loc.rest[0].id
    {
    }
  }

  /** A pending row is at or below the position, or among the rows after it. */
  lemma RowIsListed(s: Store, position: Option<nat>, id: string) returns (i: nat)
    requires Sane(s) && IsPending(s, id) && s.events[id].rowId > Start(position)
    ensures i < |PendingFrom(s, Start(position) + 1)| && PendingFrom(s, Start(position) + 1)[i] == s.events[id]
    ensures s.events[id].event.id == id
  {
    PendingComplete(s, Start(position) + 1, id);
    i :| 0 <= i < |PendingFrom(s, Start(position) + 1)| && PendingFrom(s, Start(position) + 1)[i] == s.events[id];
    assert RowOk(s.events[id], id, s.sequences);
  }

  /** An intact pending event at or below the position or among the first `n` rows behind it is backed
      off, or was selected, or had been seen before. */
  lemma LookedAt(s: Store, p: Pump, n: nat, blocked: set<string>, id: string)
    requires Sane(s) && PositionInv(s, p, {}) && IsPending(s, id)
    requires var all := PendingFrom(s, Start(p.position) + 1);
      && n <= |all|
      && (s.events[id].damaged.None? || s.events[id].rowId <= Start(p.position))
      && (s.events[id].rowId <= Start(p.position) || s.events[id] in all[..n])
    ensures id in p.retry || id in blocked || id in p.seen
            || id in Ids(Fresh(PendingFrom(s, Start(p.position) + 1)[..n], p.seen, blocked))
  {
    var all := PendingFrom(s, Start(p.position) + 1);
    if s.events[id].rowId > Start(p.position) {
      assert RowOk(s.events[id], id, s.sequences);
      if Wanted(s.events[id], p.seen, blocked) {
        FreshKeeps(all[..n], s.events[id], p.seen, blocked);
      }
    }
  }

  ghost predicate Intact(rows: seq<Row>, n: nat)
    requires n <= |rows|
  {
    forall i :: 0 <= i < n ==> rows[i].damaged.None?
  }

  /** A selection that stops before the end: everything up to the new position is accounted for. */
  lemma PositionMoves(s: Store, p: Pump, n: nat, blocked: set<string>)
    requires Sane(s) && PositionInv(s, p, {}) && SeenInv(s, p, {}) && blocked <= p.retry.Keys
    requires 0 < n <= |PendingFrom(s, Start(p.position) + 1)|
    requires Intact(PendingFrom(s, Start(p.position) + 1), n)
    ensures var all := PendingFrom(s, Start(p.position) + 1);
      PositionInv(s, p.(position := Some(all[n - 1].rowId)), Ids(Fresh(all[..n], p.seen, blocked)))
  {
    var all := PendingFrom(s, Start(p.position) + 1);
    PendingFacts(s, Start(p.position) + 1);
    forall id | IsPending(s, id) && s.events[id].rowId <= all[n - 1].rowId
      ensures id in p.retry || id in Ids(Fresh(all[..n], p.seen, blocked))
    {
      RowLookedAt(s, p, n, blocked, id);
    }
  }

  lemma RowLookedAt(s: Store, p: Pump, n: nat, blocked: set<string>, id: string)
    requires Sane(s) && PositionInv(s, p, {}) && SeenInv(s, p, {}) && blocked <= p.retry.Keys
    requires var all := PendingFrom(s, Start(p.position) + 1);
      && 0 < n <= |all| && Intact(all, n)
      && IsPending(s, id) && s.events[id].rowId <= all[n - 1].rowId
    ensures id in p.retry || id in Ids(Fresh(PendingFrom(s, Start(p.position) + 1)[..n], p.seen, blocked))
  {
    var all := PendingFrom(s, Start(p.position) + 1);
    if s.events[id].rowId > Start(p.position) {
      var i := RowIsListed(s, p.position, id);
      PendingFacts(s, Start(p.position) + 1);
      assert i < n && all[..n][i] == all[i];
    }
    LookedAt(s, p, n, blocked, id);
  }

  /** A selection that reaches the end and finds nothing: everything pending is backed off, or had been
      seen before. */
  lemma NothingFound(s: Store, p: Pump, blocked: set<string>, id: string)
    requires Sane(s) && PositionInv(s, p, {}) && blocked <= p.retry.Keys
    requires Fresh(PendingFrom(s, Start(p.position) + 1), p.seen, blocked) == []
    requires IsPending(s, id)
    requires s.events[id].damaged.None? || s.events[id].rowId <= Start(p.position)
    ensures id in p.retry || id in p.seen
  {
    if s.events[id].rowId > Start(p.position) {
      NotSelected(s, p, blocked, id);
    } else {
      assert p.position.Some? by {
        assert 0 < s.events[id].rowId;
      }
    }
  }

  /** A repair takes pending rows out and brings none in. */
  lemma RepairTakesOut(s: Store, s': Store, wall: int, repaired: nat)
    requires Sane(s) && SpoiledIds(s) != {} && Repair(s, wall) == Success((s', repaired))
    ensures Sane(s') && Arrives(s, s') && CounterMoves(s, s')
    ensures forall id :: IsPending(s', id) ==> IsPending(s, id) && s.events[id].damaged.None?
  {
    RepairConserves(s, wall);
    RepairArrives(s, wall);
    var audit := RepairRows(s, wall);
    forall id | IsPending(s', id)
      ensures IsPending(s, id) && s.events[id].damaged.None?
    {
      assert id != audit;
    }
  }

  /** What one selection leaves behind. */
  ghost predicate Leaves(s: Store, r: Selection, all: seq<Row>, n: nat) {
    && n <= |all| && (r.eof ==> n == |all|) && (!r.eof ==> n > 0)
    && (forall id :: IsPending(r.store, id) ==> IsPending(s, id))
    && s.events.Keys <= r.store.events.Keys
    && (r.repaired == 0 ==> r.store == s && Intact(all, n))
    && (r.repaired > 0 ==> forall id :: IsPending(r.store, id) ==> s.events[id].damaged.None?)
    && (r.eof ==> r.signature == Some(Signature(r.store)))
  }

  lemma SelectLeaves(s: Store, max: nat, seen: set<string>, blocked: set<string>, position: Option<nat>, limit: nat, wall: int)
    returns (n: nat)
    requires max > 0 && limit > 0 && Sane(s)
    ensures var r, all := SelectOf(s, max, seen, blocked, position, limit, wall), PendingFrom(s, Start(position) + 1);
      && Leaves(s, r, all, n)
      && Sane(r.store) && Arrives(s, r.store) && CounterMoves(s, r.store)
      && r.selected == Fresh(all[..n], seen, blocked) && r.seen == seen + Ids(r.selected)
      && r.position == if r.repaired > 0 then None else if n == 0 then position else Some(all[n - 1].rowId)
  {
    n := SelectFacts(s, max, seen, blocked, position, limit, wall);
    var r := SelectOf(s, max, seen, blocked, position, limit, wall);
    if r.repaired > 0 {
      RepairTakesOut(s, r.store, wall, r.repaired);
    } else {
      OldRowsArrive(s);
    }
  }

  lemma BatchInHand(s: Store, p: Pump, n: nat, now: int)
    requires Sane(s) && n <= |PendingFrom(s, Start(p.position) + 1)|
    ensures var batch := Fresh(PendingFrom(s, Start(p.position) + 1)[..n], p.seen, Blocked(p.retry, now));
      && HandInv(p, Holding(batch, batch, false), now)
      && Ids(batch) <= s.events.Keys
  {
    var k := Start(p.position) + 1;
    var rows := PendingFrom(s, k)[..n];
    var blocked := Blocked(p.retry, now);
    PendingFacts(s, k);
    FreshFromRows(rows, p.seen, blocked);
    FreshIsStored(s, rows, p.seen, blocked, 0);
    FreshInOrder(s, rows, p.seen, blocked);
    var batch := Fresh(rows, p.seen, blocked);
    forall i | 0 <= i < |batch|
      ensures batch[i].id !in blocked
    {
      assert batch[i] in batch;
    }
  }

  /** The sleep after a selection that found nothing. */
  lemma SleepBegins(s: Store, p: Pump, r: Selection, n: nat, blocked: set<string>)
    requires Sane(s) && PositionInv(s, p, {}) && SeenInv(s, p, {}) && blocked <= p.retry.Keys && p.retry != map[]
    requires Leaves(s, r, PendingFrom(s, Start(p.position) + 1), n) && r.eof
    requires Fresh(PendingFrom(s, Start(p.position) + 1), p.seen, blocked) == []
    ensures SleepInv(r.store, p.(seen := {}, sleepUntil := Some(Earliest(p.retry)), sleepSignature := r.signature))
  {
    forall id | IsPending(r.store, id)
      ensures id in p.retry
    {
      if r.repaired == 0 && s.events[id].rowId > Start(p.position) {
        var i := RowIsListed(s, p.position, id);
      }
      NothingFound(s, p, blocked, id);
    }
  }

  lemma SelectKeepsSeen(s: Store, p: Pump, max: nat, now: int, wall: int)
    requires Sane(s) && SeenInv(s, p, {}) && max > 0
    ensures var (p', batch, s') := SelectBatch(p, s, max, now, wall);
      SeenInv(s', p', Ids(batch))
  {
    var blocked := Blocked(p.retry, now);
    var n := SelectLeaves(s, max, p.seen, blocked, p.position, 4 * max, wall);
    BatchInHand(s, p, n, now);
  }

  lemma SelectKeepsPosition(s: Store, p: Pump, max: nat, now: int, wall: int)
    requires Sane(s) && SeenInv(s, p, {}) && PositionInv(s, p, {}) && max > 0
    ensures var (p', batch, s') := SelectBatch(p, s, max, now, wall);
      PositionInv(s', p', Ids(batch))
  {
    var blocked := Blocked(p.retry, now);
    var n := SelectLeaves(s, max, p.seen, blocked, p.position, 4 * max, wall);
    var r := SelectOf(s, max, p.seen, blocked, p.position, 4 * max, wall);
    if !r.eof && r.repaired == 0 {
      PendingFacts(s, Start(p.position) + 1);
      PositionMoves(s, p, n, blocked);
    }
  }

  lemma SelectKeepsSleep(s: Store, p: Pump, max: nat, now: int, wall: int)
    requires Sane(s) && SeenInv(s, p, {}) && PositionInv(s, p, {}) && max > 0 && p.sleepSignature.None?
    ensures var (p', batch, s') := SelectBatch(p, s, max, now, wall);
      SleepInv(s', p') && (batch != [] ==> p'.sleepSignature.None?)
  {
    var blocked := Blocked(p.retry, now);
    var n := SelectLeaves(s, max, p.seen, blocked, p.position, 4 * max, wall);
    var r := SelectOf(s, max, p.seen, blocked, p.position, 4 * max, wall);
    var all := PendingFrom(s, Start(p.position) + 1);
    if r.eof && r.selected == [] && p.retry != map[] {
      assert all[..n] == all;
      SleepBegins(s, p, r, n, blocked);
    }
  }

  lemma SelectKeepsHand(s: Store, p: Pump, max: nat, now: int, wall: int)
    requires Sane(s) && max > 0
    ensures var (p', batch, s') := SelectBatch(p, s, max, now, wall);
      && HandInv(p', Holding(batch, batch, false), now)
      && Sane(s') && Arrives(s, s') && CounterMoves(s, s')
  {
    var n := SelectLeaves(s, max, p.seen, Blocked(p.retry, now), p.position, 4 * max, wall);
    BatchInHand(s, p, n, now);
  }

  lemma Assembled(s: Store, p: Pump, batch: seq<Event>, clock: int)
    requires SeenInv(s, p, Ids(batch)) && PositionInv(s, p, Ids(batch)) && SleepInv(s, p)
    requires HandInv(p, Holding(batch, batch, false), clock)
    requires batch != [] ==> p.sleepSignature.None?
    ensures PumpInv(s, p, if batch == [] then Top else Holding(batch, batch, false), clock)
  {
  }

  lemma SelectKeeps(s: Store, p: Pump, clock: int, max: nat, now: int, wall: int)
    requires Sane(s) && PumpInv(s, p, ToSelect, clock) && max > 0 && clock <= now
    ensures var (p', batch, s') := SelectBatch(p, s, max, now, wall);
      && PumpInv(s', p', if batch == [] then Top else Holding(batch, batch, false), now)
      && Sane(s') && Arrives(s, s') && CounterMoves(s, s')
  {
    NoneHeld(s, p, clock);
    SelectKeepsSeen(s, p, max, now, wall);
    SelectKeepsPosition(s, p, max, now, wall);
    SelectKeepsSleep(s, p, max, now, wall);
    SelectKeepsHand(s, p, max, now, wall);
    var after := SelectBatch(p, s, max, now, wall);
    Assembled(after.2, after.0, after.1, now);
  }

  /** A selection that raises without having marked anything. */
  lemma FaultKeeps(s: Store, p: Pump, clock: int, max: nat, fault: Fault, now: int, wall: int)
    requires Sane(s) && PumpInv(s, p, ToSelect, clock) && max > 0 && clock <= now
    requires Raises(fault, Chosen(p, s, max, now, wall)) && Harmless(fault, p, Chosen(p, s, max, now, wall))
    ensures var r := Chosen(p, s, max, now, wall);
      var s' := LeftBy(fault, s, r);
      && PumpInv(s', GiveUp(p.(seen := MarkedBy(fault, p.seen, r)), []), Top, now)
      && Sane(s') && Arrives(s, s') && CounterMoves(s, s')
  {
    var r := Chosen(p, s, max, now, wall);
    var n := SelectLeaves(s, max, p.seen, Blocked(p.retry, now), p.position, 4 * max, wall);
    OldRowsArrive(s);
    assert p.(seen := p.seen) == p;
    ArrivalKeepsPump(s, LeftBy(fault, s, r), p, ToSelect, clock);
    GiveUpKeeps(LeftBy(fault, s, r), p, ToSelect, clock);
  }

  lemma NoneHeld(s: Store, p: Pump, clock: int)
    requires PumpInv(s, p, ToSelect, clock)
    ensures SeenInv(s, p, {}) && PositionInv(s, p, {}) && p.sleepSignature.None?
  {
    assert Ids([]) == {};
  }

  // ---------------------------------------------------------------------------------
  // Runs
  // ---------------------------------------------------------------------------------

  /** A step of the store keeps the tables in order. */
  lemma WorldSteps(w: World, step: Step, wall: int)
    requires StoreOk(w) && !Revives(w.store, step)
    ensures StoreOk(Next(w, step, wall)) && Arrives(w.store, Next(w, step, wall).store)
    ensures CounterMoves(w.store, Next(w, step, wall).store)
  {
    StepKeepsInv(w, step, wall);
    EveryStepConserves(w.store, step, wall);
    StepArrives(w.store, step, wall);
  }

  /** A selection is a step of the store: a repair, or nothing. */
  lemma SelectIsAStep(w: World, p: Pump, max: nat, now: int, wall: int)
    requires StoreOk(w) && max > 0
    ensures var s' := SelectBatch(p, w.store, max, now, wall).2;
      s' == w.store || w.(store := s') == Next(w, DoRepair, wall)
  {
    var r := SelectOf(w.store, max, p.seen, Blocked(p.retry, now), p.position, 4 * max, wall);
    var n := SelectFacts(w.store, max, p.seen, Blocked(p.retry, now), p.position, 4 * max, wall);
    assert SelectBatch(p, w.store, max, now, wall).2 == r.store;
    if r.repaired > 0 {
      RepairIsAStep(w, wall, r.store, r.repaired);
    }
  }

  lemma RepairIsAStep(w: World, wall: int, s': Store, repaired: nat)
    requires Enforced(w.store) && Repair(w.store, wall) == Success((s', repaired))
    ensures w.(store := s') == Next(w, DoRepair, wall)
  {
    assert w.acked + {} == w.acked && w.emitted + {} == w.emitted;
  }

  lemma SelectsKeep(m: Machine, move: Move)
    requires MachineInv(m) && Enabled(m, move) && move.Selects?
    ensures MachineInv(After(m, move))
  {
    if Raises(move.fault, Chosen(m.pump, m.world.store, move.max, move.now, move.wall)) {
      FaultKeeps(m.world.store, m.pump, m.clock, move.max, move.fault, move.now, move.wall);
    } else {
      SelectKeeps(m.world.store, m.pump, m.clock, move.max, move.now, move.wall);
    }
    SelectIsAStep(m.world, m.pump, move.max, move.now, move.wall);
    WorldSteps(m.world, DoRepair, move.wall);
  }

  lemma AckIsAStep(w: World, e: Event, a: PubAck, wall: int)
    requires NonNegative(w.store.sequences) && KeysIndex(w.store.keys, w.store.operations)
    requires RecordPuback(w.store, e, a, wall).Success?
    ensures w.(store := RecordPuback(w.store, e, a, wall).value, acked := w.acked + {e}) == Next(w, DoAck(e, a), wall)
  {
    assert w.emitted + {} == w.emitted;
  }

  lemma TriesKeep(m: Machine, move: Move)
    requires MachineInv(m) && Enabled(m, move) && move.Tries?
    ensures MachineInv(After(m, move))
  {
    var w, p, e := m.world, m.pump, m.loc.rest[0];
    assert e.id !in Blocked(p.retry, move.now);
    assert w.acked + {} == w.acked;
    if Published(w.store, e, move.ack, move.stream, move.wall).Success? {
      AckIsAStep(w, e, move.ack.value, move.wall);
      AckArrives(w.store, e, move.ack.value, move.wall);
      WorldSteps(w, DoAck(e, move.ack.value), move.wall);
      TrySucceeds(w.store, After(m, move).world.store, p, m.loc, m.clock, move.now);
    } else {
      TryFails(w.store, p, m.loc, m.clock, move.now);
    }
  }

  lemma MoveKeepsInv(m: Machine, move: Move)
    requires MachineInv(m) && Enabled(m, move)
    ensures MachineInv(After(m, move))
  {
    match move
    case StoreStep(step, wall) =>
      WorldSteps(m.world, step, wall);
      ArrivalKeepsPump(m.world.store, After(m, move).world.store, m.pump, m.loc, m.clock);
    case Waits(now) => WaitKeeps(m.world.store, m.pump, m.clock, now);
    case Selects(_, _, _, _) => SelectsKeep(m, move);
    case Tries(_, _, _, _) => TriesKeep(m, move);
    case Settles => SettleKeeps(m.world.store, m.pump, m.loc, m.clock);
    case GivesUp => GiveUpKeeps(m.world.store, m.pump, m.loc, m.clock);
  }

  /** A pump is started on any tables a run of the store can leave behind. */
  ghost predicate Run(machines: seq<Machine>, moves: seq<Move>) {
    && |machines| == |moves| + 1
    && StoreOk(machines[0].world) && machines[0].pump == Started() && machines[0].loc == Top
    && forall i :: 0 <= i < |moves| ==>
         Enabled(machines[i], moves[i]) && machines[i + 1] == After(machines[i], moves[i])
  }

  lemma {:induction false} RunKeepsInv(machines: seq<Machine>, moves: seq<Move>, i: nat)
    requires Run(machines, moves) && i < |machines|
    ensures MachineInv(machines[i])
    decreases i
  {
    if i == 0 {
    } else {
      RunKeepsInv(machines, moves, i - 1);
      MoveKeepsInv(machines[i - 1], moves[i - 1]);
    }
  }

  /** No lost wakeup. In every run, whenever the pump decides to keep waiting, every pending event is
      backed off and its next attempt lies in the future. */
  lemma NoLostWakeup(machines: seq<Machine>, moves: seq<Move>, i: nat, id: string)
    requires Run(machines, moves) && i < |moves| && moves[i].Waits? && machines[i + 1].loc.Top?
    requires IsPending(machines[i].world.store, id)
    ensures id in machines[i].pump.retry && moves[i].now < machines[i].pump.retry[id].nextAt
  {
    RunKeepsInv(machines, moves, i);
  }

  // ---------------------------------------------------------------------------------
  // What a sleep can miss
  // ---------------------------------------------------------------------------------

  /** An intact row behind the position that is not selected is backed off or marked as seen. */
  lemma NotSelected(s: Store, p: Pump, blocked: set<string>, id: string)
    requires Sane(s) && Fresh(PendingFrom(s, Start(p.position) + 1), p.seen, blocked) == []
    requires IsPending(s, id) && s.events[id].damaged.None? && s.events[id].rowId > Start(p.position)
    ensures id in blocked || id in p.seen
  {
    var i := RowIsListed(s, p.position, id);
    if Wanted(s.events[id], p.seen, blocked) {
      FreshKeeps(PendingFrom(s, Start(p.position) + 1), s.events[id], p.seen, blocked);
    }
  }

  lemma AllElseIsCovered(s: Store, p: Pump, r: Selection, n: nat, blocked: set<string>)
    requires Sane(s) && blocked <= p.retry.Keys && Leaves(s, r, PendingFrom(s, Start(p.position) + 1), n) && r.eof
    requires Fresh(PendingFrom(s, Start(p.position) + 1), p.seen, blocked) == []
    ensures forall id :: IsPending(r.store, id) && s.events[id].rowId > Start(p.position) && id !in p.seen ==> id in p.retry
  {
    forall id | IsPending(r.store, id) && s.events[id].rowId > Start(p.position) && id !in p.seen
      ensures id in p.retry
    {
      if r.repaired == 0 {
        var i := RowIsListed(s, p.position, id);
      }
      NotSelected(s, p, blocked, id);
    }
  }

  /** What a sleep can miss, whatever led to it: it covers everything pending if and only if that is
      so for the events at or below the position and for those marked as seen. */
  lemma SleepMissesExactly(s: Store, p: Pump, max: nat, now: int, wall: int)
    requires Sane(s) && max > 0 && p.retry != map[]
    requires var r := SelectOf(s, max, p.seen, Blocked(p.retry, now), p.position, 4 * max, wall); r.selected == [] && r.eof
    ensures var (p', _, s') := SelectBatch(p, s, max, now, wall);
      && p'.sleepSignature == Some(Signature(s')) && p'.sleepUntil == Some(Earliest(p.retry)) && p'.retry == p.retry
      && (forall id :: IsPending(s', id) ==> IsPending(s, id))
      && ((forall id :: IsPending(s', id) ==> id in p.retry) <==>
          (forall id :: IsPending(s', id) && (s.events[id].rowId <= Start(p.position) || id in p.seen) ==> id in p.retry))
  {
    var blocked := Blocked(p.retry, now);
    var n := SelectLeaves(s, max, p.seen, blocked, p.position, 4 * max, wall);
    var r := SelectOf(s, max, p.seen, blocked, p.position, 4 * max, wall);
    var all := PendingFrom(s, Start(p.position) + 1);
    assert all[..n] == all;
    AllElseIsCovered(s, p, r, n, blocked);
    assert SelectBatch(p, s, max, now, wall) == (Adopted(p, r), r.selected, r.store);
  }

  /** So the premise that a selection is one step matters. If it raises after its scan, the events it
      picked stay marked as seen; when the others are all backed off, the pump then goes to sleep over
      work it could deliver. */
  lemma InterruptedSelectHidesWork(s: Store, p: Pump, max: nat, now: int, wall: int, id: string)
    requires Sane(s) && max > 0 && SpoiledIds(s) == {} && |PendingFrom(s, 1)| <= 4 * max
    requires p.position.None? && p.retry != map[] && now < Earliest(p.retry)
    requires var r := SelectOf(s, max, p.seen, Blocked(p.retry, now), None, 4 * max, wall); r.eof && id in Ids(r.selected)
    ensures var r := SelectOf(s, max, p.seen, Blocked(p.retry, now), None, 4 * max, wall);
      var (p', batch, s') := SelectBatch(GiveUp(p.(seen := MarkedBy(Unsigned, p.seen, r)), []), s, max, now, wall);
      && batch == [] && Wait(p', Signature(s'), now).1
      && IsPending(s', id) && id !in p'.retry
  {
    assert Ids([]) == {};
    var blocked := Blocked(p.retry, now);
    var all := PendingFrom(s, 1);
    var r := SelectOf(s, max, p.seen, blocked, None, 4 * max, wall);
    PickedIsDue(s, p.seen, blocked, max, 4 * max, wall, id);
    QuietSelect(s, r.seen, blocked, max, 4 * max, wall);
    var q := GiveUp(p.(seen := r.seen), []);
    assert q.seen == r.seen && q.position == None && q.retry == p.retry;
  }

  /** What a selection from the beginning picks is pending and due, and not picked a second time. */
  lemma PickedIsDue(s: Store, seen: set<string>, blocked: set<string>, max: nat, limit: nat, wall: int, id: string)
    requires Sane(s) && max > 0 && limit > 0
    requires var r := SelectOf(s, max, seen, blocked, None, limit, wall); r.eof && id in Ids(r.selected)
    ensures var r := SelectOf(s, max, seen, blocked, None, limit, wall);
      IsPending(s, id) && id !in blocked && Fresh(PendingFrom(s, 1), r.seen, blocked) == []
  {
    var all := PendingFrom(s, 1);
    var n := SelectFacts(s, max, seen, blocked, None, limit, wall);
    var r := SelectOf(s, max, seen, blocked, None, limit, wall);
    assert all[..n] == all;
    NothingFreshTwice(all, seen, Ids(r.selected), blocked);
    FreshFromRows(all, seen, blocked);
    PendingFacts(s, 1);
    var e :| e in r.selected && e.id == id;
    var i :| 0 <= i < |all| && all[i].event == e && Wanted(all[i], seen, blocked);
    assert InStore(s, all[i]);
  }

  /** A selection of intact rows that finds nothing. */
  lemma QuietSelect(s: Store, seen: set<string>, blocked: set<string>, max: nat, limit: nat, wall: int)
    requires Sane(s) && max > 0 && limit > 0 && SpoiledIds(s) == {} && |PendingFrom(s, 1)| <= limit
    requires Fresh(PendingFrom(s, 1), seen, blocked) == []
    ensures var r := SelectOf(s, max, seen, blocked, None, limit, wall);
      r.selected == [] && r.eof && r.signature == Some(Signature(s)) && r.store == s
  {
    var all := PendingFrom(s, 1);
    NothingToScan(all, seen, max, blocked);
    ScanFinds(all, seen, max, blocked);
    PendingFacts(s, 1);
    forall j | 0 <= j < |all|
      ensures all[j].damaged.None?
    {
      assert InStore(s, all[j]);
      assert all[j].event.id in SpoiledIds(s) <==> all[j].damaged.Some?;
    }
  }

  lemma {:induction false} NothingToScan(rows: seq<Row>, seen: set<string>, max: nat, blocked: set<string>)
    requires max > 0 && Fresh(rows, seen, blocked) == []
    ensures Scan(rows, seen, max, blocked).selected == [] && !Scan(rows, seen, max, blocked).full
  {
    if rows == [] {
    } else {
      NothingToScan(rows[1..], seen, max, blocked);
    }
  }
}
