/** What the operation ledger says about each operation (anvil_events/storage/operations.py), and what
    quarantine does to it (anvil_events/storage/delivery.py:19-68): which requests are accepted, what they
    store, and that an operation is APPLIED or FAILED as its resolution said. */
module OperationRuns {
  import opened Basics
  import opened StoreTables
  import opened StoreJoin
  import opened StoreRuns
  import Delivery
  import AckRuns

  /** A text of 1 to 256 characters. */
  predicate Named(text: string) {
    1 <= |text| <= 256
  }

  /** At most the first 300 characters of an error, if there is one. */
  function Cut(error: Option<string>): Option<string> {
    if error.None? then None else Some(error.value[..if |error.value| < 300 then |error.value| else 300])
  }

  lemma CutIsClip(error: Option<string>)
    ensures Clip(error) == Cut(error)
  {
    if error.Some? {
      assert error.value[..|error.value|] == error.value;
    }
  }

  /** A new pending row with this event at the end of the table, and one change more. */
  ghost predicate Stored(s: Store, s': Store, e: Event) {
    && e.id !in s.events && e.number == LastSequence(s, e.producer) + 1
    && s'.events == s.events[e.id := Row(s.nextRow, e, None, Some(Pending), false, None, None)]
    && s'.counter == s.counter + 1
  }

  /** The event says what it was drafted to say. */
  predicate Says(e: Event, producer: string, subject: string, node: string, kind: string, payload: Json,
                 correlation: Option<string>, causes: seq<string>) {
    && e.producer == producer && e.subject == subject && e.node == node && e.kind == kind && e.payload == payload
    && e.correlation == correlation && e.causes == causes
  }

  /** Emitting stores the next event of its producer, with the members of its draft. */
  lemma EmitStores(s: Store, d: Draft, now: int)
    requires RowsInv(s) && d.sound
    ensures Emit(s, d, now).Success?
    ensures var (s', e) := Emit(s, d, now).value;
      Stored(s, s', e) && Says(e, d.producer, d.subject, d.node, d.kind, d.payload, d.correlation, d.causes)
  {
    EmitSucceeds(s, d, now);
  }

  lemma EmitFails(s: Store, d: Draft, now: int)
    requires RowsInv(s) && !d.sound
    ensures Emit(s, d, now).Failure?
  {
    EmitSucceeds(s, d, now);
  }

  // ---------------------------------------------------------------------------------
  // Preparing
  // ---------------------------------------------------------------------------------

  /** A request under a key that is taken is a repetition exactly if all members agree; under a new key
      it is accepted exactly if its names are in order and its id is new. */
  lemma PrepareExactly(s: Store, q: Request, intent: Json)
    requires KeysIndex(s.keys, s.operations)
    ensures var named := Named(q.id) && Named(q.key) && Named(q.producer) && Named(q.kind);
      if q.key in s.keys then
        var op := s.operations[s.keys[q.key]];
        && (Prepare(s, q, intent).Success? <==>
              named && s.keys[q.key] == q.id && op.producer == q.producer && op.kind == q.kind
              && op.correlation == q.correlation && op.intent == intent)
        && (Prepare(s, q, intent).Success? ==> Prepare(s, q, intent) == Success((s, true)))
      else
        && (Prepare(s, q, intent).Success? <==> named && q.id !in s.operations)
        && (Prepare(s, q, intent).Success? ==>
              !Prepare(s, q, intent).value.1
              && Prepare(s, q, intent).value.0 == s.(
                   operations := s.operations[q.id := Operation(q.key, q.producer, q.kind, q.correlation, Prepared, intent, None, None)],
                   keys := s.keys[q.key := q.id]))
  {
  }

  // ---------------------------------------------------------------------------------
  // Recording
  // ---------------------------------------------------------------------------------

  /** A request under a new key is accepted exactly if its names are in order, its id is new and its event
      is sound; it then stores this event and its RECORDED operation. */
  lemma RecordsNew(s: Store, q: Request, subject: string, node: string, payload: Json, causes: seq<string>, sound: bool, now: int)
    requires RowsInv(s) && KeysIndex(s.keys, s.operations) && q.key !in s.keys
    ensures var r := Record(s, q, RecordDraft(q, subject, node, payload, causes, sound), now);
      && (r.Success? <==>
            Named(q.id) && Named(q.key) && Named(q.producer) && Named(q.kind) && Named(node) && q.id !in s.operations && sound)
      && (r.Success? ==>
            var (s', e, repeated) := r.value;
            && !repeated && Stored(s, s', e) && Says(e, q.producer, subject, node, q.kind, payload, q.correlation, causes)
            && s'.keys == s.keys[q.key := q.id]
            && s'.operations == s.operations[q.id :=
                 Operation(q.key, q.producer, q.kind, q.correlation, Recorded, RecordIntent(node, payload, causes), Some(e.id), None)])
  {
    var d := RecordDraft(q, subject, node, payload, causes, sound);
    if sound {
      EmitStores(s, d, now);
    } else {
      EmitFails(s, d, now);
    }
    EmitLeavesLedger(s, d, now);
  }

  /** Under a taken key a request whose members differ from those recorded is refused, and one whose
      members agree is answered from the store (`StoreRuns.RecordIsIdempotent`). */
  lemma RecordsAgain(s: Store, q: Request, subject: string, node: string, payload: Json, causes: seq<string>, sound: bool, now: int)
    requires RowsInv(s) && KeysIndex(s.keys, s.operations) && q.key in s.keys
    ensures var op, r := s.operations[s.keys[q.key]], Record(s, q, RecordDraft(q, subject, node, payload, causes, sound), now);
      r.Success? <==>
        && Named(q.id) && Named(q.key) && Named(q.producer) && Named(q.kind) && Named(node)
        && s.keys[q.key] == q.id && op.producer == q.producer && op.kind == q.kind && op.correlation == q.correlation
        && op.intent == RecordIntent(node, payload, causes) && op.state == Recorded
        && op.eventId.Some? && op.eventId.value in s.events
        && (s.events[op.eventId.value].damaged.Some? ==> s.events[op.eventId.value].damaged.value.parsed.Some?)
  {
  }

  // ---------------------------------------------------------------------------------
  // Resolving
  // ---------------------------------------------------------------------------------

  /** Every operation has a name of 1 to 256 characters. */
  ghost predicate AllNamed(s: Store) {
    forall id :: id in s.operations ==> Named(id)
  }

  lemma StepKeepsNames(s: Store, step: Step, now: int)
    requires RowsInv(s) && KeysIndex(s.keys, s.operations) && AllNamed(s)
    ensures AllNamed(StoreAfter(s, step, now))
  {
    if step.DoRecord? {
      RecordRegisters(s, step, now);
      EmitLeavesLedger(s, StepDraft(step), now);
    } else if step.DoResolve? {
      ResolveTouches(s, step, now);
    } else if step.DoRepair? {
      if Repair(s, now).Success? {
        RepairLedger(s, now);
      }
    } else if !step.DoPrepare? && !step.DoMark? {
      OthersLeaveLedger(s, step, now);
    }
  }

  lemma {:induction false} NamesAreKept(worlds: seq<World>, actions: seq<Action>, i: nat)
    requires Run(worlds, actions) && i < |worlds|
    ensures AllNamed(worlds[i].store)
    decreases i
  {
    if i == 0 {
    } else {
      NamesAreKept(worlds, actions, i - 1);
      RunKeepsInv(worlds, actions, i - 1);
      StepKeepsNames(worlds[i - 1].store, actions[i - 1].step, actions[i - 1].now);
    }
  }

  /** The operation after its first resolution. */
  function ResolvedAs(op: Operation, succeeded: bool, error: Option<string>, event: string): Operation {
    Operation(op.key, op.producer, op.kind, op.correlation, if succeeded then Applied else Failed, op.intent, Some(event), Cut(error))
  }

  /** In every reachable store a PREPARED operation can be resolved with its own intent: it becomes APPLIED
      or FAILED as told, with the error cut to 300 characters, and its event is stored. */
  lemma FirstResolution(worlds: seq<World>, actions: seq<Action>, i: nat, id: string, node: string, succeeded: bool,
                        error: Option<string>, subject: string, now: int)
    requires Run(worlds, actions) && i < |worlds|
    requires id in worlds[i].store.operations && worlds[i].store.operations[id].state.Prepared?
    ensures RowsInv(worlds[i].store)
    ensures var s := worlds[i].store;
      var op := s.operations[id];
      var r := Resolve(s, id, node, op.intent, succeeded, error, subject, true, now);
      && r.Success?
      && var (s', e, repeated) := r.value;
        && !repeated && Stored(s, s', e) && Says(e, op.producer, subject, node, op.kind, op.intent, op.correlation, [])
        && s'.keys == s.keys && s'.operations == s.operations[id := ResolvedAs(op, succeeded, error, e.id)]
  {
    var s := worlds[i].store;
    var op := s.operations[id];
    RunKeepsInv(worlds, actions, i);
    NamesAreKept(worlds, actions, i);
    assert OperationInv(s, worlds[i].emitted, id);
    Resolves(s, id, op, node, succeeded, error, subject, now);
  }

  lemma Resolves(s: Store, id: string, op: Operation, node: string, succeeded: bool, error: Option<string>, subject: string, now: int)
    requires RowsInv(s) && id in s.operations && s.operations[id] == op && Named(id) && op.state.Prepared? && op.eventId.None?
    ensures var r := Resolve(s, id, node, op.intent, succeeded, error, subject, true, now);
      && r.Success?
      && var (s', e, repeated) := r.value;
        && !repeated && Stored(s, s', e) && Says(e, op.producer, subject, node, op.kind, op.intent, op.correlation, [])
        && s'.keys == s.keys && s'.operations == s.operations[id := ResolvedAs(op, succeeded, error, e.id)]
  {
    var d := Draft(op.producer, subject, node, op.kind, op.intent, op.correlation, [], true);
    CutIsClip(error);
    EmitStores(s, d, now);
    EmitLeavesLedger(s, d, now);
  }

  /** Resolving a resolved operation whose event is intact changes nothing, and is accepted exactly if it
      says the same: the same result, the same error, the node and the payload of the event. */
  lemma ResolvesAgain(s: Store, id: string, node: string, payload: Json, succeeded: bool, error: Option<string>,
                      subject: string, sound: bool, now: int)
    requires RowsInv(s) && id in s.operations && Named(id) && (s.operations[id].state.Applied? || s.operations[id].state.Failed?)
    requires s.operations[id].eventId.Some? && s.operations[id].eventId.value in s.events
    requires s.events[s.operations[id].eventId.value].damaged.None?
    ensures var op, r := s.operations[id], Resolve(s, id, node, payload, succeeded, error, subject, sound, now);
      var e := s.events[op.eventId.value].event;
      && (r.Success? <==> op.state.Applied? == succeeded && op.error == Cut(error) && op.intent == payload
                          && e.payload == payload && e.node == node)
      && (r.Success? ==> r == Success((s, e, true)))
  {
    CutIsClip(error);
  }

  /** With action `k` a resolution with this answer gave operation `id` its event. */
  ghost predicate ResolvedAt(worlds: seq<World>, actions: seq<Action>, k: nat, id: string, succeeded: bool, event: string) {
    && k < |actions| < |worlds|
    && actions[k].step.DoResolve? && actions[k].step.id == id && actions[k].step.succeeded == succeeded
    && event !in worlds[k].store.events && event in worlds[k + 1].store.events
    && id in worlds[k].store.operations && worlds[k].store.operations[id].state.Prepared?
    && id in worlds[k + 1].store.operations && worlds[k + 1].store.operations[id].eventId == Some(event)
  }

  /** No other resolution is accepted: not of an unknown or INDETERMINATE operation, not of a RECORDED one,
      and not of a PREPARED one with another intent. Marking takes PREPARED operations only. */
  lemma OthersAreRefused(s: Store, id: string, node: string, payload: Json, succeeded: bool, error: Option<string>,
                         subject: string, sound: bool, message: string, now: int)
    requires NonNegative(s.sequences)
    ensures var r, marked := Resolve(s, id, node, payload, succeeded, error, subject, sound, now), MarkIndeterminate(s, id, message);
      if id !in s.operations then r.Failure? && marked.Failure?
      else
        var op := s.operations[id];
        && (op.state.Indeterminate? || op.state.Recorded? || (op.state.Prepared? && op.eventId.None? && payload != op.intent) ==>
              r.Failure?)
        && (marked.Success? <==> op.state.Prepared?)
        && (marked.Success? ==>
              marked.value == s.(operations := s.operations[id := op.(state := Indeterminate, error := Cut(Some(message)))]))
  {
    CutIsClip(Some(message));
  }

  predicate IsResolved(op: Operation) {
    op.state.Applied? || op.state.Failed?
  }

  ghost predicate PreparedHaveNone(s: Store) {
    forall o :: o in s.operations && s.operations[o].state.Prepared? ==> s.operations[o].eventId.None?
  }

  /** A step leaves a resolved operation as it was, or resolves it. */
  lemma StepResolves(s: Store, step: Step, now: int, id: string)
    requires RowsInv(s) && KeysIndex(s.keys, s.operations)
    requires PreparedHaveNone(s)
    requires id in StoreAfter(s, step, now).operations && IsResolved(StoreAfter(s, step, now).operations[id])
    ensures var s', op := StoreAfter(s, step, now), StoreAfter(s, step, now).operations[id];
      || (id in s.operations && s.operations[id] == op)
      || (&& step.DoResolve? && step.id == id && step.succeeded == op.state.Applied?
          && id in s.operations && s.operations[id].state.Prepared?
          && op.eventId.Some? && op.eventId.value !in s.events && op.eventId.value in s'.events)
  {
    if step.DoRecord? {
      RecordRegisters(s, step, now);
      EmitLeavesLedger(s, StepDraft(step), now);
    } else if step.DoResolve? {
      ResolveTouches(s, step, now);
      ResolutionIsTold(s, step, now);
    } else if step.DoRepair? {
      if Repair(s, now).Success? {
        RepairLedger(s, now);
      }
    } else if !step.DoPrepare? && !step.DoMark? {
      OthersLeaveLedger(s, step, now);
    }
  }

  lemma ResolutionIsTold(s: Store, step: Step, now: int)
    requires RowsInv(s) && KeysIndex(s.keys, s.operations) && step.DoResolve?
    requires step.id in s.operations && s.operations[step.id].state.Prepared? ==> s.operations[step.id].eventId.None?
    ensures var s' := StoreAfter(s, step, now);
      s'.operations == s.operations
      || (&& step.id in s.operations && s.operations[step.id].state.Prepared? && step.id in s'.operations
          && var op := s'.operations[step.id];
            && (op.state.Applied? <==> step.succeeded)
            && op.eventId.Some? && op.eventId.value !in s.events && op.eventId.value in s'.events)
  {
    if StoreAfter(s, step, now).operations != s.operations {
      var op := s.operations[step.id];
      var d := Draft(op.producer, step.subject, step.node, op.kind, op.intent, op.correlation, [], step.sound);
      EmitIsFresh(s, d);
      EmitSucceeds(s, d, now);
    }
  }

  lemma TablesInOrder(worlds: seq<World>, actions: seq<Action>, i: nat)
    requires Run(worlds, actions) && i < |worlds|
    ensures var s := worlds[i].store; RowsInv(s) && KeysIndex(s.keys, s.operations) && PreparedHaveNone(s)
  {
    var w := worlds[i];
    RunKeepsInv(worlds, actions, i);
    forall o | o in w.store.operations && w.store.operations[o].state.Prepared?
      ensures w.store.operations[o].eventId.None?
    {
      assert OperationInv(w.store, w.emitted, o);
    }
  }

  lemma LastStepResolves(worlds: seq<World>, actions: seq<Action>, k: nat, id: string)
    requires Run(worlds, actions) && k < |actions|
    requires id in worlds[k + 1].store.operations && IsResolved(worlds[k + 1].store.operations[id])
    ensures var op := worlds[k + 1].store.operations[id];
      || (id in worlds[k].store.operations && worlds[k].store.operations[id] == op)
      || (op.eventId.Some? && ResolvedAt(worlds, actions, k, id, op.state.Applied?, op.eventId.value))
  {
    TablesInOrder(worlds, actions, k);
    assert worlds[k + 1].store == StoreAfter(worlds[k].store, actions[k].step, actions[k].now);
    StepResolves(worlds[k].store, actions[k].step, actions[k].now, id);
  }

  /** In every run an operation is APPLIED only through a resolution that said so, and FAILED only through
      one that said so; that resolution emitted its event. */
  lemma {:induction false} ResolutionsAreTold(worlds: seq<World>, actions: seq<Action>, i: nat, id: string) returns (k: nat)
    requires Run(worlds, actions) && i < |worlds|
    requires id in worlds[i].store.operations && IsResolved(worlds[i].store.operations[id])
    ensures var op := worlds[i].store.operations[id];
      && op.eventId.Some? && k < i && ResolvedAt(worlds, actions, k, id, op.state.Applied?, op.eventId.value)
    decreases i
  {
    assert i > 0;
    LastStepResolves(worlds, actions, i - 1, id);
    if id in worlds[i - 1].store.operations && worlds[i - 1].store.operations[id] == worlds[i].store.operations[id] {
      k := ResolutionsAreTold(worlds, actions, i - 1, id);
    } else {
      k := i - 1;
    }
  }

  // ---------------------------------------------------------------------------------
  // Quarantine
  // ---------------------------------------------------------------------------------

  predicate Waits(s: Store, id: string) {
    id in s.events && s.events[id].role == Some(Pending)
  }

  /** The repair took the event out of delivery. */
  predicate TakenOutBy(s: Store, s': Store, id: string) {
    Waits(s, id) && !Waits(s', id)
  }

  lemma TakesOutSpoiled(s: Store, now: int)
    requires RowsInv(s)
    ensures Repair(s, now).Success?
    ensures forall id :: TakenOutBy(s, Repair(s, now).value.0, id) <==> id in SpoiledIds(s)
  {
    if SpoiledIds(s) != {} {
      var audit := Delivery.RepairRows(s, now);
    }
  }

  /** After a repair the RECORDED operation of each event taken out is INDETERMINATE and says why; all other
      operations are as before. */
  lemma RepairReleases(s: Store, now: int, o: string)
    requires RowsInv(s) && o in s.operations
    ensures Repair(s, now).Success?
    ensures var s', op := Repair(s, now).value.0, s.operations[o];
      && o in s'.operations
      && s'.operations[o] ==
           if op.state.Recorded? && op.eventId.Some? && TakenOutBy(s, s', op.eventId.value)
           then op.(state := Indeterminate, error := Some("event record quarantined"))
           else op
  {
    TakesOutSpoiled(s, now);
    RepairLedger(s, now);
  }

  /** And the text of each row taken out is put aside, once; nothing else is. */
  lemma RepairKeepsTexts(s: Store, now: int, entry: Quarantined)
    requires RowsInv(s)
    ensures Repair(s, now).Success?
    ensures var s' := Repair(s, now).value.0;
      s'.quarantine[entry] == s.quarantine[entry] +
        if && TakenOutBy(s, s', entry.eventId) && s.events[entry.eventId].damaged.Some?
           && entry.raw == s.events[entry.eventId].damaged.value.raw && entry.reason == "canonical event integrity mismatch"
        then 1 else 0
  {
    TakesOutSpoiled(s, now);
    var ids := SpoiledIds(s);
    if ids != {} {
      AuditKeepsTexts(Bumped(TakenOut(s, ids), true), AuditDraft("local:recovery", SPOILED_CAUSE, |ids|), now);
      EvidenceHolds(s, ids, entry);
    }
  }

  lemma AuditKeepsTexts(s: Store, d: Draft, now: int)
    requires NonNegative(s.sequences) && Audit(s, d, now).Success?
    requires Envelope(d, LastSequence(s, d.producer) + 1).id !in s.events
    ensures Audit(s, d, now).value.0.quarantine == s.quarantine
  {
  }

  lemma EvidenceHolds(s: Store, ids: set<string>, entry: Quarantined)
    ensures entry in Evidence(s, ids) <==>
              && entry.eventId in ids && entry.eventId in s.events && s.events[entry.eventId].damaged.Some?
              && entry.raw == s.events[entry.eventId].damaged.value.raw && entry.reason == "canonical event integrity mismatch"
  {
  }

  /** Redelivering an event whose stored text is damaged puts that text aside, once, and stores the event's
      own text again; nothing else is put aside by a put. */
  lemma HealingKeepsText(s: Store, e: Event, role: Option<Role>, journaled: bool, now: int, entry: Quarantined)
    requires Put(s, e, role, journaled, now).Success?
    ensures var s' := Put(s, e, role, journaled, now).value.0;
      && e.id in s'.events && s'.events[e.id].damaged.None?
      && s'.quarantine[entry] == s.quarantine[entry] +
           if && entry.eventId == e.id && e.id in s.events && s.events[e.id].damaged.Some?
              && entry.raw == s.events[e.id].damaged.value.raw
              && entry.reason == "stored envelope healed by canonical redelivery"
           then 1 else 0
  {
    PutShape(s, e, role, journaled, now);
  }

  /** An audit event: journaled, never delivered, saying how many records the cause concerns. */
  ghost predicate Audited(s: Store, s': Store, producer: string, cause: string, records: nat) {
    exists e ::
      && Says(e, producer, "anvil.fleet.local.event.degraded", "local", "event.degraded", Degraded(cause, records), None, [])
      && e.id !in s.events && s'.events.Keys == s.events.Keys + {e.id} && s'.events[e.id] == Row(s.nextRow, e, None, None, true, None, None)
  }

  lemma AuditSays(s: Store, u: Store, producer: string, cause: string, records: nat, now: int)
    requires RowsInv(u) && u.events.Keys == s.events.Keys && u.nextRow == s.nextRow
    ensures Audit(u, AuditDraft(producer, cause, records), now).Success?
    ensures Audited(s, Audit(u, AuditDraft(producer, cause, records), now).value.0, producer, cause, records)
  {
    Delivery.AuditShape(u, AuditDraft(producer, cause, records), now);
    var (s', e) := Audit(u, AuditDraft(producer, cause, records), now).value;
    assert s'.events.Keys == s.events.Keys + {e.id};
  }

  /** A repair that took something out says so, and one that did not adds nothing. */
  lemma RepairIsAudited(s: Store, now: int)
    requires RowsInv(s)
    ensures Repair(s, now).Success?
    ensures var (s', n) := Repair(s, now).value;
      if n == 0 then s' == s else Audited(s, s', "local:recovery", "invalid pending records quarantined", n)
  {
    var ids := SpoiledIds(s);
    if ids != {} {
      Delivery.TakenOutRows(s, ids);
      AuditSays(s, Bumped(TakenOut(s, ids), true), "local:recovery", SPOILED_CAUSE, |ids|, now);
    }
  }

  /** So does a collection. */
  lemma CollectionIsAudited(s: Store, cutoff: int, now: int)
    requires RowsInv(s)
    ensures Collect(s, cutoff, now).Success?
    ensures var (s', n) := Collect(s, cutoff, now).value;
      if n == 0 then s' == s else Audited(s, s', "local:gc", "retention sweep deleted expired archives", n)
  {
    var ids := ExpiredIds(s, cutoff);
    if ids != {} {
      AckRuns.ExpireKeepsRows(s, ids);
      AuditSays(s, Expire(s, ids), "local:gc", EXPIRED_CAUSE, |ids|, now);
    }
  }
}
