/** The event store as executed: the repositories of anvil_events/storage/events.py, operations.py,
    delivery.py (repair) and retention.py over one database. Every method is one transaction; a
    method that returns an error leaves the tables as they were. */
module EventStore {
  import opened Basics
  import opened StoreTables
  import opened StoreJoin

  class EventStore {
    var events: map<string, Row>
    var nextRow: nat
    var sequences: map<string, int>
    var cursors: map<CursorKey, Cursor>
    var counter: nat
    var quarantine: multiset<Quarantined>
    var operations: map<string, Operation>
    var keys: map<string, string>

    constructor ()
      ensures Contents() == Empty() && Valid() && Indexed()
    {
      events, nextRow, sequences, cursors, counter := map[], 1, map[], map[], 0;
      quarantine, operations, keys := multiset{}, map[], map[];
    }

    ghost function Contents(): Store
      reads this
    {
      Store(events, nextRow, sequences, cursors, counter, quarantine, operations, keys)
    }

    /** The schema's check on sequences. */
    predicate Valid()
      reads `sequences
    {
      NonNegative(sequences)
    }

    /** The unique index on idempotency keys. */
    ghost predicate Indexed()
      reads `keys, `operations
    {
      KeysIndex(keys, operations)
    }

    method UpdateSequence(producer: string, number: int)
      requires Valid() && number >= 0
      modifies `sequences
      ensures Valid() && sequences == Sequenced(old(sequences), producer, number)
    {
      var last := if producer in sequences then sequences[producer] else number;
      sequences := sequences[producer := if last < number then number else last];
    }

    method Put(e: Event, role: Option<Role>, journaled: bool, now: int) returns (r: Result<PutResult, StoreError>)
      requires Valid()
      modifies `events, `nextRow, `sequences, `quarantine
      ensures Valid()
      ensures match StoreTables.Put(old(Contents()), e, role, journaled, now)
              case Success((after, result)) => r == Success(result) && Contents() == after
              case Failure(error) => r == Failure(error) && Contents() == old(Contents())
    {
      if !StoreTables.Valid(e) {
        return Failure(InvalidEvent);
      }
      if e.id in events {
        r := PutAgain(e, role, journaled, now);
        return;
      }
      if exists id :: id in events && events[id].event.producer == e.producer && events[id].event.number == e.number {
        return Failure(SequenceCollision);
      }
      events := events[e.id := Row(nextRow, e, None, role, journaled, if role == Some(Acked) then Some(now) else None, None)];
      nextRow := nextRow + 1;
      UpdateSequence(e.producer, e.number);
      return Success(PutResult(true, role.Some?));
    }

    /** Put an event whose id is known already. */
    method PutAgain(e: Event, role: Option<Role>, journaled: bool, now: int) returns (r: Result<PutResult, StoreError>)
      requires Valid() && StoreTables.Valid(e) && e.id in events
      modifies `events, `sequences, `quarantine
      ensures Valid()
      ensures match StoreTables.Put(old(Contents()), e, role, journaled, now)
              case Success((after, result)) => r == Success(result) && Contents() == after
              case Failure(error) => r == Failure(error) && Contents() == old(Contents())
    {
      var row := events[e.id];
      if row.event != e {
        return Failure(IdentityCollision);
      }
      if row.damaged.Some? {
        quarantine := quarantine + multiset{Quarantined(e.id, row.damaged.value.raw, HEALED)};
      }
      var newRole := row.role;
      if role == Some(Acked) || row.role.None? {
        newRole := if role.Some? then role else row.role;
      } else if role == Some(Pending) && row.role != Some(Acked) {
        newRole := Some(Pending);
      }
      var ackedAt := if newRole == Some(Acked) && row.ackedAt.None? then Some(now) else row.ackedAt;
      events := events[e.id := row.(damaged := None, role := newRole, journaled := row.journaled || journaled, ackedAt := ackedAt)];
      UpdateSequence(e.producer, e.number);
      return Success(PutResult(false, row.role != newRole));
    }

    method NextEnvelope(d: Draft) returns (e: Event)
      requires Valid()
      ensures e == Envelope(d, LastSequence(Contents(), d.producer) + 1)
    {
      var last := if d.producer in sequences then sequences[d.producer] else 0;
      e := Envelope(d, last + 1);
    }

    method EmitEvent(d: Draft, now: int) returns (r: Result<Event, StoreError>)
      requires Valid()
      modifies `events, `nextRow, `sequences, `quarantine, `counter
      ensures Valid()
      ensures match Emit(old(Contents()), d, now)
              case Success((after, e)) => r == Success(e) && Contents() == after
              case Failure(error) => r == Failure(error) && Contents() == old(Contents())
    {
      var e := NextEnvelope(d);
      var put := Put(e, Some(Pending), false, now);
      if put.Failure? {
        return Failure(put.error);
      }
      if put.value.changed {
        counter := counter + 1;
      }
      return Success(e);
    }

    method JournalAudit(d: Draft, now: int) returns (r: Result<Event, StoreError>)
      requires Valid()
      modifies `events, `nextRow, `sequences, `quarantine, `counter
      ensures Valid()
      ensures match Audit(old(Contents()), d, now)
              case Success((after, e)) => r == Success(e) && Contents() == after
              case Failure(error) => r == Failure(error) && Contents() == old(Contents())
    {
      var e := NextEnvelope(d);
      var put := Put(e, None, true, now);
      return if put.Failure? then Failure(put.error) else Success(e);
    }

    method AppendEvent(e: Event, now: int) returns (error: Option<StoreError>)
      requires Valid()
      modifies `events, `nextRow, `sequences, `quarantine, `counter
      ensures Valid()
      ensures match Append(old(Contents()), e, now)
              case Success(after) => error == None && Contents() == after
              case Failure(e) => error == Some(e) && Contents() == old(Contents())
    {
      var put := Put(e, Some(Pending), false, now);
      if put.Failure? {
        return Some(put.error);
      }
      if put.value.changed {
        counter := counter + 1;
      }
      return None;
    }

    method AppendToJournal(e: Event, now: int) returns (r: Result<bool, StoreError>)
      requires Valid()
      modifies `events, `nextRow, `sequences, `quarantine, `counter
      ensures Valid()
      ensures match AppendJournal(old(Contents()), e, now)
              case Success((after, first)) => r == Success(first) && Contents() == after
              case Failure(error) => r == Failure(error) && Contents() == old(Contents())
    {
      var prior := if e.id in events then Some(events[e.id].journaled) else None;
      var put := Put(e, None, true, now);
      return if put.Failure? then Failure(put.error) else Success(prior.None? || !prior.value);
    }

    method RecordAck(e: Event, p: PubAck, now: int) returns (error: Option<StoreError>)
      requires Valid()
      modifies `events, `nextRow, `sequences, `quarantine, `counter, `cursors
      ensures Valid()
      ensures match RecordPuback(old(Contents()), e, p, now)
              case Success(after) => error == None && Contents() == after
              case Failure(e) => error == Some(e) && Contents() == old(Contents())
    {
      if !GoodEvidence(p) {
        return Some(BadEvidence);
      }
      if e.id !in events {
        return Some(UnknownEvent);
      }
      var prior := events[e.id];
      if prior.role == Some(Acked)
         && (prior.puback.None? || prior.puback.value.stream != p.stream || prior.puback.value.number != p.number) {
        return Some(ConflictingPubAck);
      }
      var put := Put(e, Some(Acked), false, now);
      if put.Failure? {
        return Some(put.error);
      }
      Acknowledge(e, p, put.value.changed, now);
      return None;
    }

    /** Evidence, cursor and change counter after an acknowledgement was put. */
    method Acknowledge(e: Event, p: PubAck, changed: bool, now: int)
      requires e.id in events
      modifies `events, `counter, `cursors
      ensures Contents() == Acknowledged(old(Contents()), e, p, changed, now)
    {
      var row := events[e.id];
      events := events[e.id := row.(puback := Some(p), ackedAt := if row.ackedAt.None? then Some(now) else row.ackedAt)];
      var key := CursorKey(e.subject, e.producer);
      if key !in cursors || e.number > cursors[key].number {
        cursors := cursors[key := Cursor(e.id, e.number)];
      }
      if changed {
        counter := counter + 1;
      }
    }

    /** Put aside the text of one spoiled row and take it out of delivery. */
    method TakeOut(id: string)
      requires Valid() && id in events && events[id].damaged.Some?
      modifies `events, `quarantine, `operations
      ensures Valid()
      ensures Contents() == TakenOut(old(Contents()), {id})
    {
      var row := events[id];
      TakenOutOne(Contents(), id);
      quarantine := quarantine + multiset{Quarantined(id, row.damaged.value.raw, MISMATCH)};
      events := events[id := row.(role := None)];
      operations := map o | o in operations :: Released(operations[o], {id});
    }

    method TakeOutAll() returns (repaired: nat)
      requires Valid()
      modifies `events, `quarantine, `operations
      ensures Contents() == TakenOut(old(Contents()), SpoiledIds(old(Contents())))
      ensures repaired == |SpoiledIds(old(Contents()))|
    {
      ghost var before := Contents();
      var todo := set id | id in events && Spoiled(events[id]);
      ghost var done := {};
      repaired := 0;
      TakeNone(before);
      while todo != {}
        invariant done + todo == SpoiledIds(before) && done !! todo
        invariant repaired == |done|
        invariant Contents() == TakenOut(before, done)
        decreases todo
      {
        var id :| id in todo;
        TakeOneMore(before, done, id);
        TakeOut(id);
        todo, done := todo - {id}, done + {id};
        repaired := repaired + 1;
      }
      assert done == SpoiledIds(before);
    }

    /** One change and one audit event for all repaired rows. */
    method AuditRepair(repaired: nat, now: int) returns (audit: Result<Event, StoreError>)
      requires Valid()
      modifies `events, `nextRow, `sequences, `quarantine, `counter
      ensures Valid()
      ensures match Audit(Bumped(old(Contents()), true), AuditDraft("local:recovery", SPOILED_CAUSE, repaired), now)
              case Success((after, e)) => audit == Success(e) && Contents() == after
              case Failure(error) => audit == Failure(error) && Contents() == Bumped(old(Contents()), true)
    {
      counter := counter + 1;
      assert Contents() == Bumped(old(Contents()), true);
      audit := JournalAudit(AuditDraft("local:recovery", SPOILED_CAUSE, repaired), now);
    }

    /** The body of the repair transaction. */
    method RepairRows(now: int) returns (r: Result<nat, StoreError>)
      requires Valid()
      modifies `events, `nextRow, `sequences, `quarantine, `counter, `operations
      ensures Valid()
      ensures match Repair(old(Contents()), now)
              case Success((after, repaired)) => r == Success(repaired) && Contents() == after
              case Failure(error) =>
                r == Failure(error) && Contents() == Bumped(TakenOut(old(Contents()), SpoiledIds(old(Contents()))), true)
    {
      ghost var before := Contents();
      var repaired := TakeOutAll();
      if repaired == 0 {
        NothingSpoiled(before, now);
        return Success(0);
      }
      SomethingSpoiled(before, now);
      var audit := AuditRepair(repaired, now);
      return if audit.Failure? then Failure(audit.error) else Success(repaired);
    }

    method RepairPending(now: int) returns (r: Result<nat, StoreError>)
      requires Valid()
      modifies `events, `nextRow, `sequences, `quarantine, `counter, `operations
      ensures Valid()
      ensures match Repair(old(Contents()), now)
              case Success((after, repaired)) => r == Success(repaired) && Contents() == after
              case Failure(error) => r == Failure(error) && Contents() == old(Contents())
    {
      var saved := (events, quarantine, operations, counter);
      PutBack(Contents(), SpoiledIds(Contents()));
      r := RepairRows(now);
      if r.Failure? {
        events, quarantine, operations, counter := saved.0, saved.1, saved.2, saved.3;
      }
    }

    method CollectExpired(cutoff: int, now: int) returns (r: Result<nat, StoreError>)
      requires Valid()
      modifies `events, `nextRow, `sequences, `quarantine, `counter
      ensures Valid()
      ensures match Collect(old(Contents()), cutoff, now)
              case Success((after, removed)) => r == Success(removed) && Contents() == after
              case Failure(error) => r == Failure(error) && Contents() == old(Contents())
    {
      var saved := events;
      var expired := set id | id in events && events[id].role == Some(Acked)
                              && events[id].ackedAt.Some? && events[id].ackedAt.value < cutoff;
      var removed := |expired|;
      ghost var s := Contents();
      assert expired == ExpiredIds(s, cutoff);
      if removed == 0 {
        return Success(0);
      }
      events := map id | id in events :: if id in expired then events[id].(role := None) else events[id];
      assert Contents() == Expire(s, expired);
      var audit := JournalAudit(AuditDraft("local:gc", EXPIRED_CAUSE, removed), now);
      if audit.Failure? {
        events := saved;
        return Failure(audit.error);
      }
      return Success(removed);
    }

    /** The put loop of an import: all or nothing. */
    method ImportAll(puts: seq<PutArg>, now: int) returns (error: Option<StoreError>)
      requires Valid()
      modifies `events, `nextRow, `sequences, `quarantine
      ensures Valid()
      ensures match PutAll(old(Contents()), puts, now)
              case Success(after) => error == None && Contents() == after
              case Failure(e) => error == Some(e) && Contents() == old(Contents())
    {
      var saved := (events, nextRow, sequences, quarantine);
      ghost var before := Contents();
      for i := 0 to |puts|
        invariant Valid() && PutAll(before, puts[..i], now) == Success(Contents())
      {
        var item := puts[i];
        PutAllStep(before, puts, i, now);
        var put := Put(item.event, item.role, item.journaled, now);
        if put.Failure? {
          assert PutAll(before, puts[..i + 1], now) == Failure(put.error);
          FailsForGood(before, puts, i + 1, now);
          assert PutAll(before, puts, now) == Failure(put.error);
          events, nextRow, sequences, quarantine := saved.0, saved.1, saved.2, saved.3;
          return Some(put.error);
        }
      }
      assert puts[..|puts|] == puts;
      return None;
    }

    method PrepareOperation(q: Request, intent: Json) returns (r: Result<bool, StoreError>)
      requires Valid() && Indexed()
      modifies `operations, `keys
      ensures Valid() && Indexed()
      ensures match Prepare(old(Contents()), q, intent)
              case Success((after, repeated)) => r == Success(repeated) && Contents() == after
              case Failure(error) => r == Failure(error) && Contents() == old(Contents())
    {
      if !GoodRequest(q) {
        return Failure(BadArgument);
      }
      if q.key in keys {
        var op := operations[keys[q.key]];
        var same := keys[q.key] == q.id && op.producer == q.producer && op.kind == q.kind && op.intent == intent
                    && op.correlation == q.correlation;
        return if same then Success(true) else Failure(KeyCollision);
      }
      if q.id in operations {
        return Failure(OperationIdCollision);
      }
      operations := operations[q.id := Operation(q.key, q.producer, q.kind, q.correlation, Prepared, intent, None, None)];
      keys := keys[q.key := q.id];
      return Success(false);
    }

    method RecordedBefore(q: Request, intent: Json) returns (r: Result<(Event, bool), StoreError>)
      requires Indexed() && q.key in keys
      ensures var op := operations[keys[q.key]];
        r == if !SameRequest(Contents(), q, intent) || op.state != Recorded || op.eventId.None? then Failure(KeyCollision)
             else if op.eventId.value !in events then Failure(MissingEvent)
             else
               match ReadBack(events[op.eventId.value])
               case Failure(error) => Failure(error)
               case Success(e) => Success((e, true))
    {
      var op := operations[keys[q.key]];
      var same := keys[q.key] == q.id && op.producer == q.producer && op.kind == q.kind && op.intent == intent
                  && op.correlation == q.correlation && op.state == Recorded && op.eventId.Some?;
      if !same {
        return Failure(KeyCollision);
      }
      if op.eventId.value !in events {
        return Failure(MissingEvent);
      }
      var read := ReadBack(events[op.eventId.value]);
      return if read.Failure? then Failure(read.error) else Success((read.value, true));
    }

    method RecordEvent(q: Request, d: Draft, now: int) returns (r: Result<(Event, bool), StoreError>)
      requires Valid() && Indexed()
      requires d.producer == q.producer && d.kind == q.kind && d.correlation == q.correlation
      modifies `events, `nextRow, `sequences, `quarantine, `counter, `operations, `keys
      ensures Valid() && Indexed()
      ensures match Record(old(Contents()), q, d, now)
              case Success((after, e, repeated)) => r == Success((e, repeated)) && Contents() == after
              case Failure(error) => r == Failure(error) && Contents() == old(Contents())
    {
      if !GoodRequest(q) || !GoodName(d.node) {
        return Failure(BadArgument);
      }
      var intent := RecordIntent(d.node, d.payload, d.causes);
      if q.key in keys {
        r := RecordedBefore(q, intent);
        return;
      }
      if q.id in operations {
        return Failure(OperationIdCollision);
      }
      RegisteringKeepsIndex(keys, operations, q.id, q.key);
      r := RecordNew(q, d, now);
    }

    method RecordNew(q: Request, d: Draft, now: int) returns (r: Result<(Event, bool), StoreError>)
      requires Valid() && q.key !in keys && q.id !in operations
      modifies `events, `nextRow, `sequences, `quarantine, `counter, `operations, `keys
      ensures Valid()
      ensures match Emit(old(Contents()), d, now)
              case Success((after, e)) =>
                r == Success((e, false)) && Contents() == Registered(after, q, Operation(q.key, q.producer, q.kind, q.correlation,
                  Recorded, RecordIntent(d.node, d.payload, d.causes), Some(e.id), None))
              case Failure(error) => r == Failure(error) && Contents() == old(Contents())
    {
      var emitted := EmitEvent(d, now);
      if emitted.Failure? {
        return Failure(emitted.error);
      }
      operations := operations[q.id := Operation(q.key, q.producer, q.kind, q.correlation, Recorded,
                                  RecordIntent(d.node, d.payload, d.causes), Some(emitted.value.id), None)];
      keys := keys[q.key := q.id];
      return Success((emitted.value, false));
    }

    method ResolvedBefore(op: Operation, expected: OpState, node: string, payload: Json, error: Option<string>)
      returns (r: Result<(Event, bool), StoreError>)
      requires op.eventId.Some?
      ensures r == if op.state != expected || op.error != Clip(error) then Failure(ConflictingResolution)
                   else if op.eventId.value !in events then Failure(MissingEvent)
                   else
                     match ReadBack(events[op.eventId.value])
                     case Failure(unread) => Failure(unread)
                     case Success(e) =>
                       if e.node != node || payload != op.intent || e.payload != payload then Failure(ConflictingResolution)
                       else Success((e, true))
    {
      if op.state != expected || op.error != Clip(error) {
        return Failure(ConflictingResolution);
      }
      if op.eventId.value !in events {
        return Failure(MissingEvent);
      }
      var read := ReadBack(events[op.eventId.value]);
      if read.Failure? {
        return Failure(read.error);
      }
      var e := read.value;
      if e.node != node || payload != op.intent || e.payload != payload {
        return Failure(ConflictingResolution);
      }
      return Success((e, true));
    }

    method ResolveOperation(id: string, node: string, payload: Json, succeeded: bool, error: Option<string>,
                            subject: string, sound: bool, now: int) returns (r: Result<(Event, bool), StoreError>)
      requires Valid() && Indexed()
      modifies `events, `nextRow, `sequences, `quarantine, `counter, `operations
      ensures Valid() && Indexed()
      ensures match Resolve(old(Contents()), id, node, payload, succeeded, error, subject, sound, now)
              case Success((after, e, repeated)) => r == Success((e, repeated)) && Contents() == after
              case Failure(e) => r == Failure(e) && Contents() == old(Contents())
    {
      var expected := if succeeded then Applied else Failed;
      if !GoodName(id) {
        return Failure(BadArgument);
      }
      if id !in operations {
        return Failure(UnknownOperation);
      }
      var op := operations[id];
      if op.state == Indeterminate {
        return Failure(IndeterminateOperation);
      }
      if op.eventId.Some? {
        r := ResolvedBefore(op, expected, node, payload, error);
        return;
      }
      if op.state != Prepared {
        return Failure(NotPrepared);
      }
      if payload != op.intent {
        return Failure(IntentDiffers);
      }
      RewritingKeepsIndex(keys, operations, id);
      r := ResolveNew(id, op, expected, Draft(op.producer, subject, node, op.kind, op.intent, op.correlation, [], sound), error, now);
    }

    method ResolveNew(id: string, op: Operation, expected: OpState, d: Draft, error: Option<string>, now: int)
      returns (r: Result<(Event, bool), StoreError>)
      requires Valid() && id in operations && operations[id] == op
      modifies `events, `nextRow, `sequences, `quarantine, `counter, `operations
      ensures Valid()
      ensures operations == old(operations) ||
        exists op' :: operations == old(operations)[id := op'] && op'.key == op.key
      ensures match ResolveFirst(old(Contents()), id, op, expected, d, error, now)
              case Success((after, e, repeated)) => r == Success((e, repeated)) && Contents() == after
              case Failure(e) => r == Failure(e) && Contents() == old(Contents())
    {
      var emitted := EmitEvent(d, now);
      if emitted.Failure? {
        return Failure(emitted.error);
      }
      operations := operations[id := op.(state := expected, eventId := Some(emitted.value.id), error := Clip(error))];
      return Success((emitted.value, false));
    }

    method MarkOperation(id: string, error: string) returns (failed: Option<StoreError>)
      requires Valid() && Indexed()
      modifies `operations
      ensures Valid() && Indexed()
      ensures match MarkIndeterminate(old(Contents()), id, error)
              case Success(after) => failed == None && Contents() == after
              case Failure(e) => failed == Some(e) && Contents() == old(Contents())
    {
      if id !in operations || operations[id].state != Prepared {
        return Some(NotPrepared);
      }
      operations := operations[id := operations[id].(state := Indeterminate, error := Clip(Some(error)))];
      return None;
    }
  }

  lemma RegisteringKeepsIndex(keys: map<string, string>, operations: map<string, Operation>, id: string, key: string)
    requires KeysIndex(keys, operations) && id !in operations && key !in keys
    ensures forall op: Operation :: op.key == key ==> KeysIndex(keys[key := id], operations[id := op])
  {
  }

  lemma RewritingKeepsIndex(keys: map<string, string>, operations: map<string, Operation>, id: string)
    requires KeysIndex(keys, operations) && id in operations
    ensures forall op: Operation :: op.key == operations[id].key ==> KeysIndex(keys, operations[id := op])
  {
  }

  lemma TakenOutOne(s: Store, id: string)
    requires id in s.events && s.events[id].damaged.Some?
    ensures TakenOut(s, {id}) ==
      s.(events := s.events[id := s.events[id].(role := None)],
         quarantine := s.quarantine + multiset{Quarantined(id, s.events[id].damaged.value.raw, MISMATCH)},
         operations := map o | o in s.operations :: Released(s.operations[o], {id}))
  {
    assert Evidence(s, {id}) == {Quarantined(id, s.events[id].damaged.value.raw, MISMATCH)};
    assert TakenOut(s, {id}).events == s.events[id := s.events[id].(role := None)];
  }

  lemma NothingSpoiled(s: Store, now: int)
    requires NonNegative(s.sequences) && |SpoiledIds(s)| == 0
    ensures Repair(s, now) == Success((s, 0)) && TakenOut(s, SpoiledIds(s)) == s
  {
    assert SpoiledIds(s) == {};
    TakeNone(s);
  }

  lemma SomethingSpoiled(s: Store, now: int)
    requires NonNegative(s.sequences) && |SpoiledIds(s)| != 0
    ensures var ids := SpoiledIds(s);
      Repair(s, now) ==
        match Audit(Bumped(TakenOut(s, ids), true), AuditDraft("local:recovery", SPOILED_CAUSE, |ids|), now)
        case Failure(error) => Failure(error)
        case Success((s', _)) => Success((s', |ids|))
  {
  }

  /** The rest of the tables is not touched. */
  lemma PutBack(s: Store, ids: set<string>)
    ensures Bumped(TakenOut(s, ids), true).(events := s.events, quarantine := s.quarantine, operations := s.operations,
              counter := s.counter) == s
  {
  }

  lemma TakeNone(s: Store)
    ensures TakenOut(s, {}) == s
  {
    assert Evidence(s, {}) == {};
    assert s.quarantine + multiset(Evidence(s, {})) == s.quarantine;
    assert TakenOut(s, {}).events == s.events;
    assert forall o :: o in s.operations ==> Released(s.operations[o], {}) == s.operations[o];
    assert TakenOut(s, {}).operations == s.operations;
  }

  lemma EvidenceGrows(s: Store, done: set<string>, id: string)
    requires done <= SpoiledIds(s) && id in SpoiledIds(s) && id !in done
    ensures multiset(Evidence(s, done + {id}))
         == multiset(Evidence(s, done)) + multiset{Quarantined(id, s.events[id].damaged.value.raw, MISMATCH)}
  {
    var more := Quarantined(id, s.events[id].damaged.value.raw, MISMATCH);
    assert Evidence(s, done + {id}) == Evidence(s, done) + {more};
    assert more !in Evidence(s, done);
    assert multiset({more}) == multiset{more};
  }

  lemma TakeOneMore(s: Store, done: set<string>, id: string)
    requires done <= SpoiledIds(s) && id in SpoiledIds(s) && id !in done
    ensures TakenOut(TakenOut(s, done), {id}) == TakenOut(s, done + {id})
    ensures id in TakenOut(s, done).events && TakenOut(s, done).events[id] == s.events[id]
  {
    var u := TakenOut(s, done);
    TakenOutOne(u, id);
    EvidenceGrows(s, done, id);
    assert TakenOut(u, {id}).events == TakenOut(s, done + {id}).events;
    assert TakenOut(u, {id}).operations == TakenOut(s, done + {id}).operations;
  }

  lemma PutAllStep(s: Store, puts: seq<PutArg>, i: nat, now: int)
    requires i < |puts| && PutAll(s, puts[..i], now).Success?
    ensures PutAll(s, puts[..i + 1], now) ==
      match StoreTables.Put(PutAll(s, puts[..i], now).value, puts[i].event, puts[i].role, puts[i].journaled, now)
      case Failure(e) => Failure(e)
      case Success((s', _)) => Success(s')
  {
    assert puts[..i + 1][..i] == puts[..i];
  }

  lemma {:induction false} FailsForGood(s: Store, puts: seq<PutArg>, n: nat, now: int)
    requires n <= |puts| && PutAll(s, puts[..n], now).Failure?
    ensures PutAll(s, puts, now) == PutAll(s, puts[..n], now)
    decreases |puts| - n
  {
    if n < |puts| {
      assert puts[..n + 1][..n] == puts[..n];
      FailsForGood(s, puts, n + 1, now);
    } else {
      assert puts[..n] == puts;
    }
  }
}
