/** What every run of the event store keeps: rows, acknowledgement evidence, cursors, the change
    signature of pending work, and the operation ledger. Legacy import and the compatibility
    acknowledgement without evidence are not steps here. */
module StoreRuns {
  import opened Basics
  import opened StoreTables
  import opened StoreJoin

  datatype Emission = Emission(key: string, eventId: string)

  /** The store with its history: which events were acknowledged and which events were emitted for
      which idempotency key. */
  datatype World = World(store: Store, acked: set<Event>, emitted: set<Emission>)

  datatype Step =
    | DoAppend(event: Event)
    | DoJournal(event: Event)
    | DoEmit(draft: Draft)
    | DoAck(event: Event, puback: PubAck)
    | DoRepair
    | DoCollect(cutoff: int)
    | DoPrepare(request: Request, intent: Json)
    | DoRecord(request: Request, subject: string, node: string, payload: Json, causes: seq<string>, sound: bool)
    | DoResolve(id: string, node: string, payload: Json, succeeded: bool, error: Option<string>, subject: string, sound: bool)
    | DoMark(id: string, message: string)
    | Damage(id: string, spoil: Spoil)

  function OrSame<T>(s: Store, r: Result<T, StoreError>, f: T -> Store): Store {
    match r
    case Success(v) => f(v)
    case Failure(_) => s
  }

  function Damaged(s: Store, id: string, spoil: Spoil): Store {
    if id in s.events then s.(events := s.events[id := s.events[id].(damaged := Some(spoil))]) else s
  }

  /** What the database enforces; tables without it take no step. */
  ghost predicate Enforced(s: Store) {
    NonNegative(s.sequences) && KeysIndex(s.keys, s.operations)
  }

  /** The store after a step; one that raises changes nothing. */
  ghost function StoreAfter(s: Store, step: Step, now: int): Store {
    if !Enforced(s) then s
    else
      match step
      case DoAppend(e) => OrSame(s, Append(s, e, now), (v: Store) => v)
      case DoJournal(e) => OrSame(s, AppendJournal(s, e, now), (v: (Store, bool)) => v.0)
      case DoEmit(d) => OrSame(s, Emit(s, d, now), (v: (Store, Event)) => v.0)
      case DoAck(e, p) => OrSame(s, RecordPuback(s, e, p, now), (v: Store) => v)
      case DoRepair => OrSame(s, Repair(s, now), (v: (Store, nat)) => v.0)
      case DoCollect(cutoff) => OrSame(s, Collect(s, cutoff, now), (v: (Store, nat)) => v.0)
      case DoPrepare(q, intent) => OrSame(s, Prepare(s, q, intent), (v: (Store, bool)) => v.0)
      case DoRecord(q, subject, node, payload, causes, sound) =>
        OrSame(s, Record(s, q, RecordDraft(q, subject, node, payload, causes, sound), now), (v: (Store, Event, bool)) => v.0)
      case DoResolve(id, node, payload, succeeded, error, subject, sound) =>
        OrSame(s, Resolve(s, id, node, payload, succeeded, error, subject, sound, now), (v: (Store, Event, bool)) => v.0)
      case DoMark(id, message) => OrSame(s, MarkIndeterminate(s, id, message), (v: Store) => v)
      case Damage(id, spoil) => Damaged(s, id, spoil)
  }

  /** The emission of a step: a request that stored a new event. */
  ghost function NewEmissions(s: Store, step: Step, now: int): set<Emission> {
    if !Enforced(s) then {}
    else
      match step
      case DoRecord(q, subject, node, payload, causes, sound) => (
        match Record(s, q, RecordDraft(q, subject, node, payload, causes, sound), now)
        case Success((_, e, repeated)) => if repeated then {} else {Emission(q.key, e.id)}
        case Failure(_) => {})
      case DoResolve(id, node, payload, succeeded, error, subject, sound) => (
        match Resolve(s, id, node, payload, succeeded, error, subject, sound, now)
        case Success((_, e, repeated)) =>
          if repeated || id !in s.operations then {} else {Emission(s.operations[id].key, e.id)}
        case Failure(_) => {})
      case _ => {}
  }

  ghost function Next(w: World, step: Step, now: int): World {
    var acked := if step.DoAck? && RecordPuback(w.store, step.event, step.puback, now).Success? then {step.event} else {};
    World(StoreAfter(w.store, step, now), w.acked + acked, w.emitted + NewEmissions(w.store, step, now))
  }

  // ---------------------------------------------------------------------------------
  // Invariants
  // ---------------------------------------------------------------------------------

  ghost predicate AckedInv(s: Store) {
    forall id :: id in s.events && s.events[id].role == Some(Acked) ==>
      s.events[id].puback.Some? && s.events[id].ackedAt.Some?
  }

  function KeyOf(e: Event): CursorKey {
    CursorKey(e.subject, e.producer)
  }

  /** A cursor is the acknowledged event of its subject and producer with the highest number. */
  ghost predicate CursorInv(cursors: map<CursorKey, Cursor>, acked: set<Event>, key: CursorKey) {
    && (forall e :: e in acked && KeyOf(e) == key ==> key in cursors && e.number <= cursors[key].number)
    && (key in cursors ==>
          exists e :: e in acked && KeyOf(e) == key && cursors[key] == Cursor(e.id, e.number))
  }

  ghost predicate OperationInv(s: Store, emitted: set<Emission>, id: string)
    requires id in s.operations
  {
    var op := s.operations[id];
    && (op.state.Recorded? || op.state.Applied? || op.state.Failed? ==> op.eventId.Some?)
    && (op.state.Prepared? ==> op.eventId.None?)
    && (op.eventId.Some? ==> op.eventId.value in s.events)
    && (forall e :: Emission(op.key, e) in emitted <==> op.eventId == Some(e))
  }

  ghost predicate LedgerInv(s: Store, emitted: set<Emission>) {
    && KeysIndex(s.keys, s.operations)
    && (forall id :: id in s.operations ==> OperationInv(s, emitted, id))
    && (forall a, b :: a in s.operations && b in s.operations && a != b && s.operations[a].eventId.Some? ==>
          s.operations[a].eventId != s.operations[b].eventId)
    && (forall m :: m in emitted ==> m.key in s.keys)
  }

  ghost predicate Inv(w: World) {
    && RowsInv(w.store) && AckedInv(w.store)
    && (forall key :: CursorInv(w.store.cursors, w.acked, key))
    && LedgerInv(w.store, w.emitted)
  }

  // ---------------------------------------------------------------------------------
  // What a step does to one row
  // ---------------------------------------------------------------------------------

  /** Rows stay; a row leaves delivery only by its acknowledgement or by quarantine; the evidence of an
      acknowledged row is fixed until retention takes it out. */
  ghost predicate RowConserved(s: Store, step: Step, s': Store, id: string)
    requires id in s.events
  {
    id in s'.events && RowStep(s.events[id], step, s'.events[id], id)
  }

  function PendingIds(s: Store): set<string> {
    set id | id in s.events && s.events[id].role == Some(Pending)
  }

  /** The change counter never goes back, and moves whenever the pending set changes. */
  ghost predicate CounterMoves(s: Store, s': Store) {
    s.counter <= s'.counter && (PendingIds(s) != PendingIds(s') ==> s.counter < s'.counter)
  }

  ghost predicate StepConserves(s: Store, step: Step, s': Store) {
    && (forall id :: id in s.events ==> RowConserved(s, step, s', id))
    && RowsInv(s') && AckedInv(s') && CounterMoves(s, s')
  }

  /** What may happen to the role and the evidence of one row. */
  ghost predicate RowStep(before: Row, step: Step, after: Row, id: string) {
    && after.event == before.event
    && (before.role == Some(Pending) && after.role != Some(Pending) ==>
          || (step.DoAck? && step.event.id == id && after.role == Some(Acked) && after.puback == Some(step.puback))
          || (step.DoRepair? && before.damaged.Some? && after.role == None))
    && (before.role == Some(Acked) && after.role != Some(Acked) ==> step.DoCollect? && after.role == None)
    && (before.role == Some(Acked) && after.role == Some(Acked) && before.puback.Some? ==>
          after.puback.Some? && after.puback.value.stream == before.puback.value.stream
          && after.puback.value.number == before.puback.value.number)
  }

  predicate EvidenceOk(row: Row) {
    row.role == Some(Acked) ==> row.puback.Some? && row.ackedAt.Some?
  }

  /** One row changed or was added. */
  lemma OneRowConserves(s: Store, s': Store, id: string, row: Row, step: Step)
    requires AckedInv(s) && RowsInv(s')
    requires s'.events == s.events[id := row] && EvidenceOk(row)
    requires id in s.events ==> RowStep(s.events[id], step, row, id)
    requires s.counter <= s'.counter
    requires (StoredRole(s, id) == Some(Pending)) != (row.role == Some(Pending)) ==> s.counter < s'.counter
    ensures StepConserves(s, step, s')
  {
    if (StoredRole(s, id) == Some(Pending)) == (row.role == Some(Pending)) {
      assert PendingIds(s) == PendingIds(s');
    }
  }

  lemma PutConserves(s: Store, e: Event, role: Option<Role>, journaled: bool, now: int, step: Step)
    requires RowsInv(s) && AckedInv(s) && role != Some(Acked)
    requires Put(s, e, role, journaled, now).Success?
    ensures var (s1, r) := Put(s, e, role, journaled, now).value;
      StepConserves(s, step, Bumped(s1, r.changed)) && (role == None ==> !r.changed)
  {
    PutFits(s, e, role, journaled, now);
    PutKeepsRows(s, e, role, journaled, now);
    var (s1, r) := Put(s, e, role, journaled, now).value;
    var row := RowAfter(s, e, role, journaled, now);
    if e.id in s.events {
      assert EvidenceOk(s.events[e.id]);
    }
    PutCounter(s, e, role, journaled, now);
    assert RowsInv(Bumped(s1, r.changed));
    OneRowConserves(s, Bumped(s1, r.changed), e.id, row, step);
  }

  lemma PutCounter(s: Store, e: Event, role: Option<Role>, journaled: bool, now: int)
    requires Put(s, e, role, journaled, now).Success?
    ensures var (s1, r) := Put(s, e, role, journaled, now).value;
      && s1.counter == s.counter && s1.cursors == s.cursors && s1.operations == s.operations && s1.keys == s.keys
      && r.changed == (StoredRole(s, e.id) != RowAfter(s, e, role, journaled, now).role)
  {
  }

  /** Steps that agree on events, sequences and counter conserve alike. */
  lemma SameEvents(s: Store, step: Step, s1: Store, s2: Store)
    requires StepConserves(s, step, s1)
    requires s2.events == s1.events && s2.sequences == s1.sequences && s2.counter == s1.counter
    ensures StepConserves(s, step, s2)
  {
    assert PendingIds(s1) == PendingIds(s2);
    forall id | id in s.events
      ensures RowConserved(s, step, s2, id)
    {
      assert RowConserved(s, step, s1, id);
    }
  }

  lemma Idle(s: Store, step: Step)
    requires RowsInv(s) && AckedInv(s)
    ensures StepConserves(s, step, s)
  {
  }

  lemma EmitConserves(s: Store, d: Draft, now: int, step: Step)
    requires RowsInv(s) && AckedInv(s) && Emit(s, d, now).Success?
    ensures StepConserves(s, step, Emit(s, d, now).value.0)
  {
    PutConserves(s, Envelope(d, LastSequence(s, d.producer) + 1), Some(Pending), false, now, step);
  }

  function AckRow(before: Row, p: PubAck, now: int): Row {
    var row := PutOn(before, Some(Acked), false, now);
    row.(puback := Some(p), ackedAt := if row.ackedAt.None? then Some(now) else row.ackedAt)
  }

  /** What an accepted acknowledgement does to rows, sequences and counter. */
  lemma AckWrites(s: Store, e: Event, p: PubAck, now: int)
    requires RecordPuback(s, e, p, now).Success?
    ensures var s' := RecordPuback(s, e, p, now).value;
      && Valid(e) && e.id in s.events && s.events[e.id].event == e
      && s'.events == s.events[e.id := AckRow(s.events[e.id], p, now)]
      && s'.sequences == Sequenced(s.sequences, e.producer, e.number)
      && s'.counter == s.counter + (if s.events[e.id].role == Some(Acked) then 0 else 1)
    ensures s.events[e.id].role == Some(Acked) ==>
      s.events[e.id].puback.Some? && s.events[e.id].puback.value.stream == p.stream && s.events[e.id].puback.value.number == p.number
  {
  }

  lemma AckConserves(s: Store, e: Event, p: PubAck, now: int)
    requires RowsInv(s) && AckedInv(s) && RecordPuback(s, e, p, now).Success?
    ensures StepConserves(s, DoAck(e, p), RecordPuback(s, e, p, now).value)
  {
    AckWrites(s, e, p, now);
    WrittenConserves(s, RecordPuback(s, e, p, now).value, e, p, now);
  }

  lemma WrittenConserves(s: Store, s': Store, e: Event, p: PubAck, now: int)
    requires RowsInv(s) && AckedInv(s) && Valid(e) && e.id in s.events && s.events[e.id].event == e
    requires s'.events == s.events[e.id := AckRow(s.events[e.id], p, now)]
    requires s'.sequences == Sequenced(s.sequences, e.producer, e.number)
    requires s'.counter == s.counter + (if s.events[e.id].role == Some(Acked) then 0 else 1)
    requires s.events[e.id].role == Some(Acked) ==>
      s.events[e.id].puback.Some? && s.events[e.id].puback.value.stream == p.stream && s.events[e.id].puback.value.number == p.number
    ensures StepConserves(s, DoAck(e, p), s')
  {
    var row := AckRow(s.events[e.id], p, now);
    assert EvidenceOk(s.events[e.id]);
    RowsKept(s, s', e, row);
    AckedRow(s.events[e.id], row, e, p, now);
    OneRowConserves(s, s', e.id, row, DoAck(e, p));
  }

  lemma AckedRow(before: Row, row: Row, e: Event, p: PubAck, now: int)
    requires before.event == e && EvidenceOk(before)
    requires before.role == Some(Acked) ==> before.puback.value.stream == p.stream && before.puback.value.number == p.number
    requires row == PutOn(before, Some(Acked), false, now).(puback := Some(p), ackedAt := row.ackedAt) && row.ackedAt.Some?
    ensures RowStep(before, DoAck(e, p), row, e.id) && EvidenceOk(row)
  {
  }

  /** Rows leaving their role together. */
  ghost predicate Releases(s: Store, u: Store, ids: set<string>, step: Step) {
    && u.sequences == s.sequences && u.events.Keys == s.events.Keys && s.counter <= u.counter
    && (forall id :: id in s.events ==>
          u.events[id] == if id in ids then s.events[id].(role := None) else s.events[id])
    && (forall id :: id in ids && id in s.events ==> RowStep(s.events[id], step, s.events[id].(role := None), id))
    && (PendingIds(u) != PendingIds(s) ==> s.counter < u.counter)
  }

  lemma ReleaseConserves(s: Store, u: Store, ids: set<string>, step: Step)
    requires RowsInv(s) && AckedInv(s) && Releases(s, u, ids, step)
    ensures StepConserves(s, step, u)
  {
    forall id | id in u.events
      ensures RowOk(u.events[id], id, u.sequences) && EvidenceOk(u.events[id])
      ensures RowConserved(s, step, u, id)
    {
      assert RowOk(s.events[id], id, s.sequences) && EvidenceOk(s.events[id]);
      ReleasedRow(s.events[id], id in ids, step, id, s.sequences);
    }
  }

  lemma ReleasedRow(before: Row, released: bool, step: Step, id: string, sequences: map<string, int>)
    requires RowOk(before, id, sequences) && EvidenceOk(before)
    requires released ==> RowStep(before, step, before.(role := None), id)
    ensures var after := if released then before.(role := None) else before;
      RowOk(after, id, sequences) && EvidenceOk(after) && RowStep(before, step, after, id)
  {
  }

  /** An audit event is a new row that was never pending. */
  lemma AuditConserves(s: Store, u: Store, d: Draft, now: int, step: Step)
    requires StepConserves(s, step, u) && Audit(u, d, now).Success?
    ensures StepConserves(s, step, Audit(u, d, now).value.0)
  {
    var e := Envelope(d, LastSequence(u, d.producer) + 1);
    EmitIsFresh(u, d);
    PutFits(u, e, None, true, now);
    PutKeepsRows(u, e, None, true, now);
    PutCounter(u, e, None, true, now);
    var s' := Audit(u, d, now).value.0;
    NewRowConserves(s, u, s', e.id, NewRow(u, e, None, true, now), step);
  }

  lemma NewRowConserves(s: Store, u: Store, s': Store, id: string, row: Row, step: Step)
    requires StepConserves(s, step, u) && RowsInv(s') && s'.counter == u.counter
    requires id !in u.events && s'.events == u.events[id := row] && row.role == None
    ensures StepConserves(s, step, s')
  {
    assert PendingIds(s') == PendingIds(u);
    forall i | i in s.events
      ensures RowConserved(s, step, s', i)
    {
      assert RowConserved(s, step, u, i);
    }
  }

  lemma SpoiledAreReleased(s: Store)
    ensures Releases(s, Bumped(TakenOut(s, SpoiledIds(s)), true), SpoiledIds(s), DoRepair)
  {
  }

  lemma RepairConserves(s: Store, now: int)
    requires RowsInv(s) && AckedInv(s) && Repair(s, now).Success?
    ensures StepConserves(s, DoRepair, Repair(s, now).value.0)
  {
    var ids := SpoiledIds(s);
    if ids == {} {
      Idle(s, DoRepair);
    } else {
      var u := Bumped(TakenOut(s, ids), true);
      SpoiledAreReleased(s);
      ReleaseConserves(s, u, ids, DoRepair);
      AuditConserves(s, u, AuditDraft("local:recovery", SPOILED_CAUSE, |ids|), now, DoRepair);
    }
  }

  lemma CollectConserves(s: Store, cutoff: int, now: int)
    requires RowsInv(s) && AckedInv(s) && Collect(s, cutoff, now).Success?
    ensures StepConserves(s, DoCollect(cutoff), Collect(s, cutoff, now).value.0)
  {
    var ids := ExpiredIds(s, cutoff);
    if ids == {} {
      Idle(s, DoCollect(cutoff));
    } else {
      var u := Expire(s, ids);
      assert PendingIds(u) == PendingIds(s);
      ReleaseConserves(s, u, ids, DoCollect(cutoff));
      AuditConserves(s, u, AuditDraft("local:gc", EXPIRED_CAUSE, |ids|), now, DoCollect(cutoff));
    }
  }

  lemma DamageConserves(s: Store, id: string, spoil: Spoil)
    requires RowsInv(s) && AckedInv(s)
    ensures StepConserves(s, Damage(id, spoil), Damaged(s, id, spoil))
  {
    if id in s.events {
      var row := s.events[id].(damaged := Some(spoil));
      assert RowOk(s.events[id], id, s.sequences) && EvidenceOk(s.events[id]);
      forall i | i in Damaged(s, id, spoil).events
        ensures RowOk(Damaged(s, id, spoil).events[i], i, s.sequences)
      {
        assert RowOk(s.events[i], i, s.sequences);
      }
      OneRowConserves(s, Damaged(s, id, spoil), id, row, Damage(id, spoil));
    } else {
      Idle(s, Damage(id, spoil));
    }
  }

  /** Every step conserves rows and evidence and keeps the change counter honest. */
  lemma EveryStepConserves(s: Store, step: Step, now: int)
    requires RowsInv(s) && AckedInv(s) && KeysIndex(s.keys, s.operations)
    ensures StepConserves(s, step, StoreAfter(s, step, now))
  {
    Idle(s, step);
    match step
    case DoAppend(e) =>
      if Append(s, e, now).Success? {
        PutConserves(s, e, Some(Pending), false, now, step);
      }
    case DoJournal(e) =>
      if AppendJournal(s, e, now).Success? {
        PutConserves(s, e, None, true, now, step);
      }
    case DoEmit(d) =>
      if Emit(s, d, now).Success? {
        EmitConserves(s, d, now, step);
      }
    case DoAck(e, p) =>
      if RecordPuback(s, e, p, now).Success? {
        AckConserves(s, e, p, now);
      }
    case DoRepair =>
      if Repair(s, now).Success? {
        RepairConserves(s, now);
      }
    case DoCollect(cutoff) =>
      if Collect(s, cutoff, now).Success? {
        CollectConserves(s, cutoff, now);
      }
    case DoPrepare(q, intent) => SameEvents(s, step, s, StoreAfter(s, step, now));
    case DoRecord(q, subject, node, payload, causes, sound) => RecordConserves(s, step, now);
    case DoResolve(_, _, _, _, _, _, _) => ResolveConserves(s, step, now);
    case DoMark(id, message) => SameEvents(s, step, s, StoreAfter(s, step, now));
    case Damage(id, spoil) => DamageConserves(s, id, spoil);
  }

  /** `s'` is `s`, or has the events and counters of `s` after an event was emitted. */
  ghost predicate EmitsOrNot(s: Store, d: Draft, now: int, s': Store)
    requires NonNegative(s.sequences)
  {
    || s' == s
    || (Emit(s, d, now).Success?
        && var u := Emit(s, d, now).value.0;
           s'.events == u.events && s'.nextRow == u.nextRow && s'.sequences == u.sequences && s'.counter == u.counter)
  }

  lemma RecordEmits(s: Store, step: Step, now: int)
    requires NonNegative(s.sequences) && KeysIndex(s.keys, s.operations) && step.DoRecord?
    ensures EmitsOrNot(s, RecordDraft(step.request, step.subject, step.node, step.payload, step.causes, step.sound), now,
              StoreAfter(s, step, now))
  {
  }

  lemma ResolveEmits(s: Store, step: Step, now: int)
    requires NonNegative(s.sequences) && KeysIndex(s.keys, s.operations) && step.DoResolve?
    ensures if step.id !in s.operations then StoreAfter(s, step, now) == s
            else
              var op := s.operations[step.id];
              EmitsOrNot(s, Draft(op.producer, step.subject, step.node, op.kind, op.intent, op.correlation, [], step.sound), now,
                StoreAfter(s, step, now))
  {
  }

  lemma EmitsOrNotConserves(s: Store, d: Draft, now: int, step: Step, s': Store)
    requires RowsInv(s) && AckedInv(s) && EmitsOrNot(s, d, now, s')
    ensures StepConserves(s, step, s')
  {
    Idle(s, step);
    if s' != s {
      EmitConserves(s, d, now, step);
      SameEvents(s, step, Emit(s, d, now).value.0, s');
    }
  }

  lemma RecordConserves(s: Store, step: Step, now: int)
    requires RowsInv(s) && AckedInv(s) && KeysIndex(s.keys, s.operations) && step.DoRecord?
    ensures StepConserves(s, step, StoreAfter(s, step, now))
  {
    RecordEmits(s, step, now);
    EmitsOrNotConserves(s, RecordDraft(step.request, step.subject, step.node, step.payload, step.causes, step.sound), now,
      step, StoreAfter(s, step, now));
  }

  lemma ResolveConserves(s: Store, step: Step, now: int)
    requires RowsInv(s) && AckedInv(s) && KeysIndex(s.keys, s.operations) && step.DoResolve?
    ensures StepConserves(s, step, StoreAfter(s, step, now))
  {
    Idle(s, step);
    ResolveEmits(s, step, now);
    if step.id in s.operations {
      var op := s.operations[step.id];
      EmitsOrNotConserves(s, Draft(op.producer, step.subject, step.node, op.kind, op.intent, op.correlation, [], step.sound), now,
        step, StoreAfter(s, step, now));
    }
  }

  // ---------------------------------------------------------------------------------
  // Cursors
  // ---------------------------------------------------------------------------------

  lemma PutLeavesCursors(s: Store, e: Event, role: Option<Role>, journaled: bool, now: int)
    requires Put(s, e, role, journaled, now).Success?
    ensures var s' := Put(s, e, role, journaled, now).value.0;
      s'.cursors == s.cursors && s'.operations == s.operations && s'.keys == s.keys
  {
  }

  /** Cursors, operations and their index are the same. */
  predicate SameLedger(s: Store, s': Store) {
    s'.cursors == s.cursors && s'.operations == s.operations && s'.keys == s.keys
  }

  lemma PutLeavesLedger(s: Store, e: Event, role: Option<Role>, journaled: bool, now: int)
    ensures Put(s, e, role, journaled, now).Success? ==> SameLedger(s, Put(s, e, role, journaled, now).value.0)
  {
    if Put(s, e, role, journaled, now).Success? {
      PutLeavesCursors(s, e, role, journaled, now);
    }
  }

  lemma EmitLeavesLedger(s: Store, d: Draft, now: int)
    requires NonNegative(s.sequences)
    ensures Emit(s, d, now).Success? ==> SameLedger(s, Emit(s, d, now).value.0)
    ensures Audit(s, d, now).Success? ==> SameLedger(s, Audit(s, d, now).value.0)
  {
    PutLeavesLedger(s, Envelope(d, LastSequence(s, d.producer) + 1), Some(Pending), false, now);
    AuditLeavesLedger(s, d, now);
  }

  lemma AuditLeavesLedger(s: Store, d: Draft, now: int)
    requires NonNegative(s.sequences)
    ensures Audit(s, d, now).Success? ==> SameLedger(s, Audit(s, d, now).value.0)
  {
    PutLeavesLedger(s, Envelope(d, LastSequence(s, d.producer) + 1), None, true, now);
  }

  function StepDraft(step: Step): Draft
    requires step.DoRecord?
  {
    RecordDraft(step.request, step.subject, step.node, step.payload, step.causes, step.sound)
  }

  function NewOperation(step: Step, e: Event): Operation
    requires step.DoRecord?
  {
    var q := step.request;
    Operation(q.key, q.producer, q.kind, q.correlation, Recorded, RecordIntent(step.node, step.payload, step.causes), Some(e.id), None)
  }

  /** Recording does nothing, or emits an event and registers its operation. */
  lemma RecordRegisters(s: Store, step: Step, now: int)
    requires Enforced(s) && step.DoRecord?
    ensures
      || StoreAfter(s, step, now) == s
      || (Emit(s, StepDraft(step), now).Success? && step.request.id !in s.operations && step.request.key !in s.keys
          && StoreAfter(s, step, now) == Registered(Emit(s, StepDraft(step), now).value.0, step.request,
               NewOperation(step, Emit(s, StepDraft(step), now).value.1)))
  {
  }

  lemma RegisteredTouches(s: Store, u: Store, q: Request, op: Operation)
    requires SameLedger(s, u) && q.id !in s.operations
    ensures var s' := Registered(u, q, op);
      && s'.cursors == s.cursors
      && q.id in s'.operations && s'.operations == s.operations[q.id := s'.operations[q.id]]
  {
  }

  /** Recording adds at most one operation. */
  lemma RecordTouches(s: Store, step: Step, now: int)
    requires NonNegative(s.sequences) && KeysIndex(s.keys, s.operations) && step.DoRecord?
    ensures var s' := StoreAfter(s, step, now);
      && s'.cursors == s.cursors
      && (s'.operations == s.operations
          || (step.request.id !in s.operations && step.request.id in s'.operations
              && s'.operations == s.operations[step.request.id := s'.operations[step.request.id]]))
  {
    RecordRegisters(s, step, now);
    if StoreAfter(s, step, now) != s {
      EmitLeavesLedger(s, StepDraft(step), now);
      var (u, e) := Emit(s, StepDraft(step), now).value;
      RegisteredTouches(s, u, step.request, NewOperation(step, e));
    }
  }

  /** Resolving rewrites at most one operation, and only a prepared one. */
  lemma ResolveTouches(s: Store, step: Step, now: int)
    requires NonNegative(s.sequences) && KeysIndex(s.keys, s.operations) && step.DoResolve?
    ensures var s' := StoreAfter(s, step, now);
      && s'.cursors == s.cursors
      && (s'.operations == s.operations
          || (step.id in s.operations && s.operations[step.id].state.Prepared? && step.id in s'.operations
              && s'.operations == s.operations[step.id := s'.operations[step.id]]))
  {
    if step.id in s.operations {
      var op := s.operations[step.id];
      EmitLeavesLedger(s, Draft(op.producer, step.subject, step.node, op.kind, op.intent, op.correlation, [], step.sound), now);
    }
  }

  lemma PutStepLeavesLedger(s: Store, step: Step, now: int)
    requires Enforced(s) && (step.DoAppend? || step.DoJournal?)
    ensures SameLedger(s, StoreAfter(s, step, now))
  {
    if step.DoAppend? {
      PutLeavesLedger(s, step.event, Some(Pending), false, now);
    } else {
      PutLeavesLedger(s, step.event, None, true, now);
    }
  }

  lemma CollectLeavesLedger(s: Store, cutoff: int, now: int)
    requires NonNegative(s.sequences)
    ensures Collect(s, cutoff, now).Success? ==> SameLedger(s, Collect(s, cutoff, now).value.0)
  {
    var ids := ExpiredIds(s, cutoff);
    AuditLeavesLedger(Expire(s, ids), AuditDraft("local:gc", EXPIRED_CAUSE, |ids|), now);
  }

  /** Steps that touch neither cursors nor operations. */
  predicate PlainStep(step: Step) {
    step.DoAppend? || step.DoJournal? || step.DoEmit? || step.DoCollect? || step.Damage?
  }

  lemma PlainLeavesLedger(s: Store, step: Step, now: int)
    requires Enforced(s) && PlainStep(step)
    ensures SameLedger(s, StoreAfter(s, step, now))
  {
    if step.DoEmit? {
      EmitLeavesLedger(s, step.draft, now);
    } else if step.DoCollect? {
      CollectLeavesLedger(s, step.cutoff, now);
    } else if !step.Damage? {
      PutStepLeavesLedger(s, step, now);
    }
  }

  lemma RepairLeavesCursors(s: Store, now: int)
    requires NonNegative(s.sequences)
    ensures Repair(s, now).Success? ==> Repair(s, now).value.0.cursors == s.cursors
  {
    var ids := SpoiledIds(s);
    AuditLeavesLedger(Bumped(TakenOut(s, ids), true), AuditDraft("local:recovery", SPOILED_CAUSE, |ids|), now);
  }

  lemma OnlyAcksMoveCursors(s: Store, step: Step, now: int)
    requires NonNegative(s.sequences) && KeysIndex(s.keys, s.operations) && !step.DoAck?
    ensures StoreAfter(s, step, now).cursors == s.cursors
  {
    if PlainStep(step) {
      PlainLeavesLedger(s, step, now);
    } else if step.DoRepair? {
      RepairLeavesCursors(s, now);
    } else if step.DoRecord? {
      RecordTouches(s, step, now);
    } else if step.DoResolve? {
      ResolveTouches(s, step, now);
    }
  }

  lemma AckMovesCursor(s: Store, e: Event, p: PubAck, now: int)
    requires RecordPuback(s, e, p, now).Success?
    ensures RecordPuback(s, e, p, now).value.cursors == Advanced(s.cursors, e)
  {
  }

  lemma AdvancedIsHighest(cursors: map<CursorKey, Cursor>, acked: set<Event>, e: Event, key: CursorKey)
    requires CursorInv(cursors, acked, key)
    ensures CursorInv(Advanced(cursors, e), acked + {e}, key)
  {
    assert e in acked + {e};
    if key in cursors {
      var x :| x in acked && KeyOf(x) == key && cursors[key] == Cursor(x.id, x.number);
      assert x in acked + {e};
    }
  }

  lemma StepKeepsCursors(w: World, step: Step, now: int, key: CursorKey)
    requires NonNegative(w.store.sequences) && KeysIndex(w.store.keys, w.store.operations)
    requires CursorInv(w.store.cursors, w.acked, key)
    ensures CursorInv(Next(w, step, now).store.cursors, Next(w, step, now).acked, key)
  {
    if step.DoAck? {
      if RecordPuback(w.store, step.event, step.puback, now).Success? {
        AckMovesCursor(w.store, step.event, step.puback, now);
        AdvancedIsHighest(w.store.cursors, w.acked, step.event, key);
      } else {
        assert w.acked + {} == w.acked;
      }
    } else {
      OnlyAcksMoveCursors(w.store, step, now);
      assert w.acked + {} == w.acked;
    }
  }

  // ---------------------------------------------------------------------------------
  // The operation ledger
  // ---------------------------------------------------------------------------------

  /** Only these steps touch operations. */
  predicate LedgerStep(step: Step) {
    step.DoPrepare? || step.DoRecord? || step.DoResolve? || step.DoMark? || step.DoRepair?
  }

  lemma AckLeavesLedger(s: Store, e: Event, p: PubAck, now: int)
    ensures RecordPuback(s, e, p, now).Success? ==>
      RecordPuback(s, e, p, now).value.operations == s.operations && RecordPuback(s, e, p, now).value.keys == s.keys
  {
    PutLeavesLedger(s, e, Some(Acked), false, now);
  }

  lemma OthersLeaveLedger(s: Store, step: Step, now: int)
    requires NonNegative(s.sequences) && KeysIndex(s.keys, s.operations) && !LedgerStep(step)
    ensures StoreAfter(s, step, now).operations == s.operations && StoreAfter(s, step, now).keys == s.keys
    ensures NewEmissions(s, step, now) == {}
  {
    if PlainStep(step) {
      PlainLeavesLedger(s, step, now);
    } else {
      AckLeavesLedger(s, step.event, step.puback, now);
    }
  }

  /** More events do no harm to the ledger. */
  lemma LedgerGrowsEvents(s: Store, s': Store, emitted: set<Emission>)
    requires LedgerInv(s, emitted) && s'.operations == s.operations && s'.keys == s.keys
    requires s.events.Keys <= s'.events.Keys
    ensures LedgerInv(s', emitted)
  {
    forall id | id in s'.operations
      ensures OperationInv(s', emitted, id)
    {
      assert OperationInv(s, emitted, id);
    }
  }

  /** A new operation without an event. */
  lemma PrepareKeepsLedger(s: Store, q: Request, intent: Json, emitted: set<Emission>)
    requires LedgerInv(s, emitted) && Prepare(s, q, intent).Success?
    ensures LedgerInv(Prepare(s, q, intent).value.0, emitted)
  {
    var s' := Prepare(s, q, intent).value.0;
    if s' != s {
      forall id | id in s'.operations
        ensures OperationInv(s', emitted, id)
      {
        if id != q.id {
          assert OperationInv(s, emitted, id);
        } else {
          forall e
            ensures Emission(q.key, e) !in emitted
          {
          }
        }
      }
    }
  }

  /** An operation that gets a fresh event, or is new with one. */
  ghost predicate Granted(s: Store, s': Store, id: string, op: Operation, event: string) {
    && s'.operations == s.operations[id := op]
    && (op.state.Recorded? || op.state.Applied? || op.state.Failed?)
    && op.eventId == Some(event) && event in s'.events && event !in s.events
    && s.events.Keys <= s'.events.Keys
    && (if id in s.operations then s'.keys == s.keys && op.key == s.operations[id].key && s.operations[id].eventId.None?
        else op.key !in s.keys && s'.keys == s.keys[op.key := id])
  }

  lemma GrantKeepsOthers(s: Store, s': Store, id: string, op: Operation, event: string, emitted: set<Emission>, o: string)
    requires LedgerInv(s, emitted) && Granted(s, s', id, op, event) && o in s'.operations
    ensures OperationInv(s', emitted + {Emission(op.key, event)}, o)
    ensures o != id ==> s'.operations[o].eventId != Some(event)
  {
    if o != id {
      assert OperationInv(s, emitted, o);
      assert s'.operations[o].key != op.key;
    } else {
      forall e
        ensures Emission(op.key, e) !in emitted
      {
        if id in s.operations {
          assert OperationInv(s, emitted, id);
        }
      }
    }
  }

  lemma GrantKeepsLedger(s: Store, s': Store, id: string, op: Operation, event: string, emitted: set<Emission>)
    requires LedgerInv(s, emitted) && Granted(s, s', id, op, event)
    ensures LedgerInv(s', emitted + {Emission(op.key, event)})
  {
    forall o | o in s'.operations
      ensures OperationInv(s', emitted + {Emission(op.key, event)}, o)
      ensures o != id ==> s'.operations[o].eventId != Some(event)
    {
      GrantKeepsOthers(s, s', id, op, event, emitted, o);
    }
  }

  lemma RecordKeepsLedger(w: World, step: Step, now: int)
    requires RowsInv(w.store) && LedgerInv(w.store, w.emitted) && step.DoRecord?
    ensures LedgerInv(Next(w, step, now).store, Next(w, step, now).emitted)
  {
    var s, q := w.store, step.request;
    var d := RecordDraft(q, step.subject, step.node, step.payload, step.causes, step.sound);
    var r := Record(s, q, d, now);
    if r.Success? && !r.value.2 {
      EmitIsFresh(s, d);
      EmitSucceeds(s, d, now);
      var op := Operation(q.key, q.producer, q.kind, q.correlation, Recorded,
        RecordIntent(d.node, d.payload, d.causes), Some(r.value.1.id), None);
      assert Granted(s, r.value.0, q.id, op, r.value.1.id);
      GrantKeepsLedger(s, r.value.0, q.id, op, r.value.1.id, w.emitted);
    } else {
      assert w.emitted + {} == w.emitted;
    }
  }

  /** A first resolution gives its operation a fresh event. */
  lemma ResolveGrants(s: Store, step: Step, now: int)
    requires RowsInv(s) && step.DoResolve?
    ensures var r := Resolve(s, step.id, step.node, step.payload, step.succeeded, step.error, step.subject, step.sound, now);
      r.Success? && !r.value.2 ==>
        step.id in s.operations && step.id in r.value.0.operations
        && Granted(s, r.value.0, step.id, r.value.0.operations[step.id], r.value.1.id)
        && r.value.0.operations[step.id].key == s.operations[step.id].key
  {
    if step.id in s.operations {
      var op := s.operations[step.id];
      var d := Draft(op.producer, step.subject, step.node, op.kind, op.intent, op.correlation, [], step.sound);
      EmitIsFresh(s, d);
      EmitSucceeds(s, d, now);
    }
  }

  lemma ResolveKeepsLedger(w: World, step: Step, now: int)
    requires RowsInv(w.store) && LedgerInv(w.store, w.emitted) && step.DoResolve?
    ensures LedgerInv(Next(w, step, now).store, Next(w, step, now).emitted)
  {
    var s, id := w.store, step.id;
    var r := Resolve(s, id, step.node, step.payload, step.succeeded, step.error, step.subject, step.sound, now);
    if r.Success? && !r.value.2 {
      ResolveGrants(s, step, now);
      GrantKeepsLedger(s, r.value.0, id, r.value.0.operations[id], r.value.1.id, w.emitted);
    } else {
      assert w.emitted + {} == w.emitted;
    }
  }

  /** Operations keep key and event; only their state may turn INDETERMINATE. */
  lemma ReleaseKeepsLedger(s: Store, s': Store, emitted: set<Emission>)
    requires LedgerInv(s, emitted) && s'.keys == s.keys && s'.operations.Keys == s.operations.Keys
    requires s.events.Keys <= s'.events.Keys
    requires forall o :: o in s.operations ==>
      (s'.operations[o] == s.operations[o]
       || s'.operations[o] == s.operations[o].(state := Indeterminate, error := s'.operations[o].error))
    ensures LedgerInv(s', emitted)
  {
    forall id | id in s'.operations
      ensures OperationInv(s', emitted, id)
    {
      assert OperationInv(s, emitted, id);
    }
  }

  lemma RepairLedger(s: Store, now: int)
    requires RowsInv(s) && Repair(s, now).Success?
    ensures var s' := Repair(s, now).value.0;
      && s'.keys == s.keys && s.events.Keys <= s'.events.Keys
      && s'.operations == map o | o in s.operations :: Released(s.operations[o], SpoiledIds(s))
  {
    var ids := SpoiledIds(s);
    if ids == {} {
      assert forall o :: o in s.operations ==> Released(s.operations[o], ids) == s.operations[o];
      assert s.operations == map o | o in s.operations :: Released(s.operations[o], ids);
    } else {
      var u := Bumped(TakenOut(s, ids), true);
      var e := Envelope(AuditDraft("local:recovery", SPOILED_CAUSE, |ids|), LastSequence(u, "local:recovery") + 1);
      PutLeavesCursors(u, e, None, true, now);
      PutShape(u, e, None, true, now);
    }
  }

  lemma StepKeepsLedger(w: World, step: Step, now: int)
    requires RowsInv(w.store) && AckedInv(w.store) && LedgerInv(w.store, w.emitted)
    ensures LedgerInv(Next(w, step, now).store, Next(w, step, now).emitted)
  {
    if step.DoRecord? {
      RecordKeepsLedger(w, step, now);
    } else if step.DoResolve? {
      ResolveKeepsLedger(w, step, now);
    } else {
      assert w.emitted + {} == w.emitted;
      SilentKeepsLedger(w.store, step, now, w.emitted);
    }
  }

  lemma MarkKeepsLedger(s: Store, id: string, message: string, emitted: set<Emission>)
    requires LedgerInv(s, emitted)
    ensures MarkIndeterminate(s, id, message).Success? ==> LedgerInv(MarkIndeterminate(s, id, message).value, emitted)
  {
    if MarkIndeterminate(s, id, message).Success? {
      ReleaseKeepsLedger(s, MarkIndeterminate(s, id, message).value, emitted);
    }
  }

  lemma RepairKeepsLedger(s: Store, now: int, emitted: set<Emission>)
    requires RowsInv(s) && LedgerInv(s, emitted) && Repair(s, now).Success?
    ensures LedgerInv(Repair(s, now).value.0, emitted)
  {
    RepairLedger(s, now);
    ReleaseKeepsLedger(s, Repair(s, now).value.0, emitted);
  }

  /** Steps that emit nothing for a key. */
  lemma SilentKeepsLedger(s: Store, step: Step, now: int, emitted: set<Emission>)
    requires RowsInv(s) && AckedInv(s) && LedgerInv(s, emitted) && !step.DoRecord? && !step.DoResolve?
    ensures LedgerInv(StoreAfter(s, step, now), emitted) && NewEmissions(s, step, now) == {}
  {
    if step.DoPrepare? {
      if Prepare(s, step.request, step.intent).Success? {
        PrepareKeepsLedger(s, step.request, step.intent, emitted);
      }
    } else if step.DoMark? {
      MarkKeepsLedger(s, step.id, step.message, emitted);
    } else if step.DoRepair? {
      if Repair(s, now).Success? {
        RepairKeepsLedger(s, now, emitted);
      }
    } else {
      OtherStepKeepsLedger(s, step, now, emitted);
    }
  }

  lemma OtherStepKeepsLedger(s: Store, step: Step, now: int, emitted: set<Emission>)
    requires RowsInv(s) && AckedInv(s) && LedgerInv(s, emitted) && !LedgerStep(step)
    ensures LedgerInv(StoreAfter(s, step, now), emitted) && NewEmissions(s, step, now) == {}
  {
    OthersLeaveLedger(s, step, now);
    EventsStay(s, step, now);
    LedgerGrowsEvents(s, StoreAfter(s, step, now), emitted);
  }

  lemma EventsStay(s: Store, step: Step, now: int)
    requires RowsInv(s) && AckedInv(s) && KeysIndex(s.keys, s.operations)
    ensures s.events.Keys <= StoreAfter(s, step, now).events.Keys
  {
    EveryStepConserves(s, step, now);
    forall id | id in s.events
      ensures id in StoreAfter(s, step, now).events
    {
      assert RowConserved(s, step, StoreAfter(s, step, now), id);
    }
  }

  // ---------------------------------------------------------------------------------
  // Runs
  // ---------------------------------------------------------------------------------

  datatype Action = Action(step: Step, now: int)

  ghost predicate Run(worlds: seq<World>, actions: seq<Action>) {
    && |worlds| == |actions| + 1
    && worlds[0] == World(Empty(), {}, {})
    && forall i :: 0 <= i < |actions| ==> worlds[i + 1] == Next(worlds[i], actions[i].step, actions[i].now)
  }

  lemma StepKeepsInv(w: World, step: Step, now: int)
    requires Inv(w)
    ensures Inv(Next(w, step, now))
  {
    EveryStepConserves(w.store, step, now);
    StepKeepsLedger(w, step, now);
    forall key
      ensures CursorInv(Next(w, step, now).store.cursors, Next(w, step, now).acked, key)
    {
      StepKeepsCursors(w, step, now, key);
    }
  }

  lemma {:induction false} RunKeepsInv(worlds: seq<World>, actions: seq<Action>, i: nat)
    requires Run(worlds, actions) && i < |worlds|
    ensures Inv(worlds[i])
    decreases i
  {
    if i == 0 {
    } else {
      RunKeepsInv(worlds, actions, i - 1);
      StepKeepsInv(worlds[i - 1], actions[i - 1].step, actions[i - 1].now);
    }
  }

  /** No event row is ever removed or rewritten as another event. */
  lemma {:induction false} RowsAreForever(worlds: seq<World>, actions: seq<Action>, i: nat, j: nat, id: string)
    requires Run(worlds, actions) && i <= j < |worlds| && id in worlds[i].store.events
    ensures id in worlds[j].store.events && worlds[j].store.events[id].event == worlds[i].store.events[id].event
    decreases j
  {
    if i == j {
    } else {
      RowsAreForever(worlds, actions, i, j - 1, id);
      RunKeepsInv(worlds, actions, j - 1);
      EveryStepConserves(worlds[j - 1].store, actions[j - 1].step, actions[j - 1].now);
      assert RowConserved(worlds[j - 1].store, actions[j - 1].step, worlds[j].store, id);
    }
  }

  /** Each cursor is the acknowledged event of its subject and producer with the highest number. */
  lemma CursorsAreHighest(worlds: seq<World>, actions: seq<Action>, i: nat, key: CursorKey)
    requires Run(worlds, actions) && i < |worlds|
    ensures key in worlds[i].store.cursors <==> exists e :: e in worlds[i].acked && KeyOf(e) == key
    ensures key in worlds[i].store.cursors ==>
      && (exists e :: e in worlds[i].acked && KeyOf(e) == key && worlds[i].store.cursors[key] == Cursor(e.id, e.number))
      && (forall e :: e in worlds[i].acked && KeyOf(e) == key ==> e.number <= worlds[i].store.cursors[key].number)
  {
    RunKeepsInv(worlds, actions, i);
    assert CursorInv(worlds[i].store.cursors, worlds[i].acked, key);
  }

  /** Equal change signatures at two moments of a run mean equal pending sets in between. */
  lemma {:induction false} EqualSignatureEqualPending(worlds: seq<World>, actions: seq<Action>, i: nat, j: nat)
    requires Run(worlds, actions) && i <= j < |worlds|
    ensures worlds[i].store.counter <= worlds[j].store.counter
    ensures worlds[i].store.counter == worlds[j].store.counter ==>
              PendingIds(worlds[i].store) == PendingIds(worlds[j].store)
    decreases j
  {
    if i == j {
    } else {
      EqualSignatureEqualPending(worlds, actions, i, j - 1);
      RunKeepsInv(worlds, actions, j - 1);
      EveryStepConserves(worlds[j - 1].store, actions[j - 1].step, actions[j - 1].now);
    }
  }

  /** Emissions for one key are of one event, and events are emitted for one key. */
  lemma KeysNameEvents(w: World, a: Emission, b: Emission)
    requires Inv(w) && a in w.emitted && b in w.emitted
    ensures a.key == b.key <==> a.eventId == b.eventId
    ensures a.eventId in w.store.events
  {
    var s := w.store;
    var x, y := s.keys[a.key], s.keys[b.key];
    assert OperationInv(s, w.emitted, x) && OperationInv(s, w.emitted, y);
    assert Emission(s.operations[x].key, a.eventId) == a && Emission(s.operations[y].key, b.eventId) == b;
  }

  /** One idempotency key yields at most one event, and it is the one its operation row names. */
  lemma OneEventPerKey(worlds: seq<World>, actions: seq<Action>, i: nat, a: Emission, b: Emission)
    requires Run(worlds, actions) && i < |worlds| && a in worlds[i].emitted && b in worlds[i].emitted
    ensures a.key == b.key ==> a.eventId == b.eventId
    ensures a.eventId == b.eventId ==> a.key == b.key
    ensures a.eventId in worlds[i].store.events
  {
    RunKeepsInv(worlds, actions, i);
    KeysNameEvents(worlds[i], a, b);
  }

  /** An INDETERMINATE operation stays as it is, and no operation row disappears. */
  lemma IndeterminateIsFinal(w: World, step: Step, now: int, id: string)
    requires RowsInv(w.store) && KeysIndex(w.store.keys, w.store.operations) && id in w.store.operations
    ensures id in Next(w, step, now).store.operations
    ensures w.store.operations[id].state.Indeterminate? ==>
              Next(w, step, now).store.operations[id] == w.store.operations[id]
  {
    var s := w.store;
    if step.DoRecord? {
      RecordTouches(s, step, now);
    } else if step.DoResolve? {
      ResolveTouches(s, step, now);
    } else if step.DoRepair? {
      if Repair(s, now).Success? {
        RepairLedger(s, now);
      }
    } else if !step.DoPrepare? && !step.DoMark? {
      OthersLeaveLedger(s, step, now);
    }
  }

  lemma {:induction false} IndeterminateIsForever(worlds: seq<World>, actions: seq<Action>, i: nat, j: nat, id: string)
    requires Run(worlds, actions) && i <= j < |worlds|
    requires id in worlds[i].store.operations && worlds[i].store.operations[id].state.Indeterminate?
    ensures id in worlds[j].store.operations && worlds[j].store.operations[id] == worlds[i].store.operations[id]
    decreases j
  {
    if i == j {
    } else {
      IndeterminateIsForever(worlds, actions, i, j - 1, id);
      RunKeepsInv(worlds, actions, j - 1);
      IndeterminateIsFinal(worlds[j - 1], actions[j - 1].step, actions[j - 1].now, id);
    }
  }

  /** Repeating a recorded request, as long as its operation is RECORDED, changes nothing and returns
      what the stored text parses to: the stored event if and only if the text is intact or still
      parses to it, and an error if it does not parse. Once quarantined, it is refused. */
  lemma RecordIsIdempotent(w: World, q: Request, d: Draft, now: int)
    requires Inv(w) && d.producer == q.producer && d.kind == q.kind && d.correlation == q.correlation
    requires GoodRequest(q) && GoodName(d.node) && q.key in w.store.keys
    requires SameRequest(w.store, q, RecordIntent(d.node, d.payload, d.causes))
    ensures var op := w.store.operations[q.id];
      if op.state.Recorded? then
        && op.eventId.Some? && op.eventId.value in w.store.events
        && var r, row := Record(w.store, q, d, now), w.store.events[op.eventId.value];
           && (row.damaged.None? ==> r == Success((w.store, row.event, true)))
           && (row.damaged.Some? ==>
                 match row.damaged.value.parsed
                 case None => r == Failure(Unreadable)
                 case Some(e) => r == Success((w.store, e, true)))
           && (r == Success((w.store, row.event, true)) <==> row.damaged.None? || row.damaged.value.parsed == Some(row.event))
      else Record(w.store, q, d, now) == Failure(KeyCollision)
  {
    assert OperationInv(w.store, w.emitted, q.id);
  }
}
