/** What the change counter of pending work tells (anvil_events/storage/events.py:25-34, 126-214): it moves by
    one with each step that changes the role of a row, and with no other. Only retention changes roles
    without it. */
module ChangeRuns {
  import opened Basics
  import opened StoreTables
  import opened StoreJoin
  import opened StoreRuns
  import Delivery

  function RoleOf(s: Store, id: string): Option<Role> {
    if id in s.events then s.events[id].role else None
  }

  ghost predicate SameRoles(s: Store, s': Store) {
    forall id :: RoleOf(s', id) == RoleOf(s, id)
  }

  /** One more change if and only if some role changed. */
  ghost predicate Counts(s: Store, s': Store) {
    s'.counter == if SameRoles(s, s') then s.counter else s.counter + 1
  }

  /** One row changed or was added. */
  lemma OneRowCounts(s: Store, s': Store, id: string, row: Row)
    requires s'.events == s.events[id := row]
    requires s'.counter == if row.role == RoleOf(s, id) then s.counter else s.counter + 1
    ensures Counts(s, s')
  {
    assert RoleOf(s', id) == row.role;
    if row.role == RoleOf(s, id) {
      forall o
        ensures RoleOf(s', o) == RoleOf(s, o)
      {
      }
    }
  }

  lemma PutCounts(s: Store, e: Event, role: Option<Role>, journaled: bool, now: int)
    requires Put(s, e, role, journaled, now).Success?
    ensures var (s', r) := Put(s, e, role, journaled, now).value; Counts(s, Bumped(s', r.changed))
    ensures role == None ==> Counts(s, Put(s, e, role, journaled, now).value.0)
  {
    PutShape(s, e, role, journaled, now);
    PutCounter(s, e, role, journaled, now);
    var (s', r) := Put(s, e, role, journaled, now).value;
    var row := RowAfter(s, e, role, journaled, now);
    OneRowCounts(s, Bumped(s', r.changed), e.id, row);
    if role == None {
      OneRowCounts(s, s', e.id, row);
    }
  }

  lemma EmitCounts(s: Store, d: Draft, now: int)
    requires NonNegative(s.sequences) && Emit(s, d, now).Success?
    ensures Counts(s, Emit(s, d, now).value.0)
  {
    PutCounts(s, Envelope(d, LastSequence(s, d.producer) + 1), Some(Pending), false, now);
  }

  lemma NoChangeCounts(s: Store, s': Store)
    requires s'.events == s.events && s'.counter == s.counter
    ensures Counts(s, s')
  {
    assert SameRoles(s, s');
  }

  lemma EmitsOrNotCounts(s: Store, d: Draft, now: int, s': Store)
    requires NonNegative(s.sequences) && EmitsOrNot(s, d, now, s')
    ensures Counts(s, s')
  {
    if s' == s {
      NoChangeCounts(s, s');
    } else {
      EmitCounts(s, d, now);
      var u := Emit(s, d, now).value.0;
      assert SameRoles(s, u) <==> SameRoles(s, s') by {
        assert forall id :: RoleOf(u, id) == RoleOf(s', id);
      }
    }
  }

  lemma LedgerStepCounts(s: Store, step: Step, now: int)
    requires Enforced(s) && (step.DoRecord? || step.DoResolve?)
    ensures Counts(s, StoreAfter(s, step, now))
  {
    if step.DoRecord? {
      RecordEmits(s, step, now);
      EmitsOrNotCounts(s, StepDraft(step), now, StoreAfter(s, step, now));
    } else {
      ResolveEmits(s, step, now);
      if step.id in s.operations {
        var op := s.operations[step.id];
        EmitsOrNotCounts(s, Draft(op.producer, step.subject, step.node, op.kind, op.intent, op.correlation, [], step.sound), now,
          StoreAfter(s, step, now));
      } else {
        NoChangeCounts(s, s);
      }
    }
  }

  lemma PutStepCounts(s: Store, step: Step, now: int)
    requires Enforced(s) && (step.DoAppend? || step.DoJournal? || step.DoEmit?)
    ensures Counts(s, StoreAfter(s, step, now))
  {
    NoChangeCounts(s, s);
    if step.DoAppend? && Put(s, step.event, Some(Pending), false, now).Success? {
      PutCounts(s, step.event, Some(Pending), false, now);
    } else if step.DoJournal? && Put(s, step.event, None, true, now).Success? {
      PutCounts(s, step.event, None, true, now);
    } else if step.DoEmit? && Emit(s, step.draft, now).Success? {
      EmitCounts(s, step.draft, now);
    }
  }

  lemma AckCounts(s: Store, step: Step, now: int)
    requires Enforced(s) && step.DoAck?
    ensures Counts(s, StoreAfter(s, step, now))
  {
    NoChangeCounts(s, s);
    if RecordPuback(s, step.event, step.puback, now).Success? {
      AckWrites(s, step.event, step.puback, now);
      OneRowCounts(s, StoreAfter(s, step, now), step.event.id, AckRow(s.events[step.event.id], step.puback, now));
    }
  }

  lemma RepairCounts(s: Store, now: int)
    requires RowsInv(s) && Enforced(s)
    ensures Counts(s, StoreAfter(s, DoRepair, now))
  {
    NoChangeCounts(s, s);
    if id :| id in SpoiledIds(s) {
      var audit := Delivery.RepairRows(s, now);
      var s' := StoreAfter(s, DoRepair, now);
      assert RoleOf(s, id) == Some(Pending) && RoleOf(s', id) == None;
      RepairBumps(s, now);
    }
  }

  lemma RepairBumps(s: Store, now: int)
    requires RowsInv(s) && SpoiledIds(s) != {} && Repair(s, now).Success?
    ensures Repair(s, now).value.0.counter == s.counter + 1
  {
    var ids := SpoiledIds(s);
    var u := Bumped(TakenOut(s, ids), true);
    AuditLeavesCounter(u, AuditDraft("local:recovery", SPOILED_CAUSE, |ids|), now);
  }

  lemma AuditLeavesCounter(s: Store, d: Draft, now: int)
    requires NonNegative(s.sequences) && Audit(s, d, now).Success?
    ensures Audit(s, d, now).value.0.counter == s.counter
  {
    PutCounter(s, Envelope(d, LastSequence(s, d.producer) + 1), None, true, now);
  }

  lemma QuietStepCounts(s: Store, step: Step, now: int)
    requires Enforced(s) && (step.DoPrepare? || step.DoMark? || step.Damage?)
    ensures Counts(s, StoreAfter(s, step, now))
  {
    if step.Damage? && step.id in s.events {
      OneRowCounts(s, StoreAfter(s, step, now), step.id, s.events[step.id].(damaged := Some(step.spoil)));
    } else {
      NoChangeCounts(s, StoreAfter(s, step, now));
    }
  }

  /** The counter moves, by one, exactly with the steps that change a role. Retention, which changes roles of
      acknowledged rows only, leaves it alone. */
  lemma CounterIsExact(s: Store, step: Step, now: int)
    requires RowsInv(s) && KeysIndex(s.keys, s.operations)
    ensures if step.DoCollect? then StoreAfter(s, step, now).counter == s.counter else Counts(s, StoreAfter(s, step, now))
  {
    match step
    case DoAppend(_) => PutStepCounts(s, step, now);
    case DoJournal(_) => PutStepCounts(s, step, now);
    case DoEmit(_) => PutStepCounts(s, step, now);
    case DoAck(_, _) => AckCounts(s, step, now);
    case DoRepair => RepairCounts(s, now);
    case DoCollect(cutoff) => CollectLeavesCounter(s, cutoff, now);
    case DoPrepare(_, _) => QuietStepCounts(s, step, now);
    case DoRecord(_, _, _, _, _, _) => LedgerStepCounts(s, step, now);
    case DoResolve(_, _, _, _, _, _, _) => LedgerStepCounts(s, step, now);
    case DoMark(_, _) => QuietStepCounts(s, step, now);
    case Damage(_, _) => QuietStepCounts(s, step, now);
  }

  lemma CollectLeavesCounter(s: Store, cutoff: int, now: int)
    requires NonNegative(s.sequences)
    ensures Collect(s, cutoff, now).Success? ==> Collect(s, cutoff, now).value.0.counter == s.counter
  {
    var ids := ExpiredIds(s, cutoff);
    var u, d := Expire(s, ids), AuditDraft("local:gc", EXPIRED_CAUSE, |ids|);
    if ids != {} && Audit(u, d, now).Success? {
      AuditLeavesCounter(u, d, now);
    }
  }
}
