/** Acknowledgements (anvil_events/storage/events.py:216-275) and how long they are kept
    (anvil_events/storage/retention.py): which evidence is accepted, that a row knows when the run first
    acknowledged it, and that retention takes out exactly what was acknowledged before the cutoff. Journal
    marks are kept for ever. */
module AckRuns {
  import opened Basics
  import opened StoreTables
  import opened StoreJoin
  import opened StoreRuns
  import Delivery

  // ---------------------------------------------------------------------------------
  // Evidence
  // ---------------------------------------------------------------------------------

  /** One or more of the letters A to Z and a to z, the digits, underscore and hyphen. */
  predicate SafeToken(text: string) {
    && text != []
    && forall i :: 0 <= i < |text| ==>
         var c := text[i] as int; 65 <= c <= 90 || 97 <= c <= 122 || 48 <= c <= 57 || c == 95 || c == 45
  }

  /** Evidence is accepted exactly for a stored event, with a positive sequence number of a stream whose name
      is a safe token, unless the event is acknowledged with another stream or number. */
  lemma AckAcceptedExactly(s: Store, e: Event, p: PubAck, now: int)
    requires RowsInv(s) && AckedInv(s)
    ensures RecordPuback(s, e, p, now).Success? <==>
      && SafeToken(p.stream) && p.number >= 1
      && e.id in s.events && s.events[e.id].event == e
      && (s.events[e.id].role == Some(Acked) ==>
            s.events[e.id].puback.value.stream == p.stream && s.events[e.id].puback.value.number == p.number)
    ensures SafeToken("ANVIL_EVENTS")
  {
    if e.id in s.events {
      assert RowOk(s.events[e.id], e.id, s.sequences);
    }
    PutFits(s, e, Some(Acked), false, now);
    if Put(s, e, Some(Acked), false, now).Success? {
      PutShape(s, e, Some(Acked), false, now);
    }
  }

  /** What an accepted acknowledgement stores: the evidence, the time if there was none, an intact text. */
  lemma AckStores(s: Store, e: Event, p: PubAck, now: int)
    requires RowsInv(s) && RecordPuback(s, e, p, now).Success?
    ensures var s' := RecordPuback(s, e, p, now).value;
      e.id in s.events
      && var row := s.events[e.id];
        s'.events == s.events[e.id :=
          Row(row.rowId, e, None, Some(Acked), row.journaled, if row.ackedAt.None? then Some(now) else row.ackedAt, Some(p))]
  {
    PutFits(s, e, Some(Acked), false, now);
    PutShape(s, e, Some(Acked), false, now);
    var (s1, r) := Put(s, e, Some(Acked), false, now).value;
    EvidenceOn(s, s1, e, p, PutOn(s.events[e.id], Some(Acked), false, now), r.changed, now);
  }

  lemma EvidenceOn(s: Store, s1: Store, e: Event, p: PubAck, row: Row, changed: bool, now: int)
    requires s1.events == s.events[e.id := row] && row.ackedAt.Some?
    ensures Acknowledged(s1, e, p, changed, now).events == s.events[e.id := row.(puback := Some(p))]
  {
  }

  // ---------------------------------------------------------------------------------
  // When an event was acknowledged
  // ---------------------------------------------------------------------------------

  /** The time of the first of the first `i` actions that acknowledged the event. */
  ghost function AckTime(worlds: seq<World>, actions: seq<Action>, i: nat, e: Event): Option<int>
    requires i < |worlds| && i <= |actions|
  {
    if i == 0 then None
    else if e in worlds[i - 1].acked then AckTime(worlds, actions, i - 1, e)
    else if e in worlds[i].acked then Some(actions[i - 1].now)
    else None
  }

  /** No row is acknowledged, and no acknowledgement or journal mark is forgotten. */
  ghost predicate KeepsMarks(s: Store, s': Store) {
    && (forall id :: id in s.events ==>
          id in s'.events && s'.events[id].event == s.events[id].event && s'.events[id].ackedAt == s.events[id].ackedAt
          && (s.events[id].journaled ==> s'.events[id].journaled))
    && (forall id :: id in s'.events && id !in s.events ==> s'.events[id].ackedAt == None)
  }

  lemma TimesTwice(a: Store, b: Store, c: Store)
    requires KeepsMarks(a, b) && KeepsMarks(b, c)
    ensures KeepsMarks(a, c)
  {
  }

  lemma PutKeepsMarks(s: Store, e: Event, role: Option<Role>, journaled: bool, now: int)
    requires AckedInv(s) && Put(s, e, role, journaled, now).Success? && role != Some(Acked)
    ensures KeepsMarks(s, Put(s, e, role, journaled, now).value.0)
  {
    PutShape(s, e, role, journaled, now);
  }

  lemma EmitKeepsMarks(s: Store, d: Draft, now: int)
    requires RowsInv(s) && AckedInv(s)
    ensures Emit(s, d, now).Success? ==> KeepsMarks(s, Emit(s, d, now).value.0)
  {
    var e := Envelope(d, LastSequence(s, d.producer) + 1);
    if Put(s, e, Some(Pending), false, now).Success? {
      PutKeepsMarks(s, e, Some(Pending), false, now);
    }
  }

  lemma EmitsOrNotKeepsMarks(s: Store, d: Draft, now: int, s': Store)
    requires RowsInv(s) && AckedInv(s) && EmitsOrNot(s, d, now, s')
    ensures KeepsMarks(s, s')
  {
    EmitKeepsMarks(s, d, now);
  }

  lemma LedgerStepKeepsMarks(s: Store, step: Step, now: int)
    requires RowsInv(s) && AckedInv(s) && KeysIndex(s.keys, s.operations) && (step.DoRecord? || step.DoResolve?)
    ensures KeepsMarks(s, StoreAfter(s, step, now))
  {
    if step.DoRecord? {
      RecordEmits(s, step, now);
      EmitsOrNotKeepsMarks(s, StepDraft(step), now, StoreAfter(s, step, now));
    } else {
      ResolveEmits(s, step, now);
      if step.id in s.operations {
        var op := s.operations[step.id];
        EmitsOrNotKeepsMarks(s, Draft(op.producer, step.subject, step.node, op.kind, op.intent, op.correlation, [], step.sound), now,
          StoreAfter(s, step, now));
      }
    }
  }

  lemma RepairKeepsMarks(s: Store, now: int)
    requires RowsInv(s) && Repair(s, now).Success?
    ensures KeepsMarks(s, Repair(s, now).value.0)
  {
    if SpoiledIds(s) != {} {
      RepairTimes(s, now);
    }
  }

  lemma RepairTimes(s: Store, now: int)
    requires RowsInv(s) && SpoiledIds(s) != {}
    ensures Repair(s, now).Success? && KeepsMarks(s, Repair(s, now).value.0)
  {
    var ids := SpoiledIds(s);
    var u := Bumped(TakenOut(s, ids), true);
    Delivery.TakenOutRows(s, ids);
    AuditAddsRow(u, AuditDraft("local:recovery", SPOILED_CAUSE, |ids|), now);
    TimesTwice(s, u, Repair(s, now).value.0);
  }

  /** What retention does: it takes out the rows acknowledged before the cutoff and adds an audit row. */
  lemma CollectRows(s: Store, cutoff: int, now: int)
    requires RowsInv(s)
    ensures Collect(s, cutoff, now).Success?
    ensures var s' := Collect(s, cutoff, now).value.0;
      && KeepsMarks(s, s')
      && forall id :: id in s.events ==>
           var row := s.events[id];
           s'.events[id] ==
             if row.role == Some(Acked) && row.ackedAt.Some? && row.ackedAt.value < cutoff then row.(role := None) else row
  {
    var ids := ExpiredIds(s, cutoff);
    forall id | id in s.events
      ensures id in ids <==> s.events[id].role == Some(Acked) && s.events[id].ackedAt.Some? && s.events[id].ackedAt.value < cutoff
    {
    }
    if ids != {} {
      ExpireAndAudit(s, ids, AuditDraft("local:gc", EXPIRED_CAUSE, |ids|), now);
    }
  }

  lemma ExpireAndAudit(s: Store, ids: set<string>, d: Draft, now: int)
    requires RowsInv(s) && d.sound
    ensures Audit(Expire(s, ids), d, now).Success?
    ensures var s' := Audit(Expire(s, ids), d, now).value.0;
      && KeepsMarks(s, s')
      && forall id :: id in s.events ==> s'.events[id] == if id in ids then s.events[id].(role := None) else s.events[id]
  {
    ExpireKeepsRows(s, ids);
    AuditAddsRow(Expire(s, ids), d, now);
    TimesTwice(s, Expire(s, ids), Audit(Expire(s, ids), d, now).value.0);
  }

  lemma AuditAddsRow(s: Store, d: Draft, now: int)
    requires RowsInv(s) && d.sound
    ensures Audit(s, d, now).Success?
    ensures var s' := Audit(s, d, now).value.0;
      KeepsMarks(s, s') && forall id :: id in s.events ==> s'.events[id] == s.events[id]
  {
    Delivery.AuditShape(s, d, now);
  }

  lemma ExpireKeepsRows(s: Store, ids: set<string>)
    requires RowsInv(s)
    ensures RowsInv(Expire(s, ids))
  {
    forall id | id in s.events
      ensures RowOk(Expire(s, ids).events[id], id, s.sequences)
    {
      assert RowOk(s.events[id], id, s.sequences);
    }
  }

  lemma PutStepKeepsMarks(s: Store, step: Step, now: int)
    requires AckedInv(s) && Enforced(s) && (step.DoAppend? || step.DoJournal?)
    ensures KeepsMarks(s, StoreAfter(s, step, now))
  {
    if step.DoAppend? {
      if Put(s, step.event, Some(Pending), false, now).Success? {
        PutKeepsMarks(s, step.event, Some(Pending), false, now);
      }
    } else if Put(s, step.event, None, true, now).Success? {
      PutKeepsMarks(s, step.event, None, true, now);
    }
  }

  lemma SweepStepKeepsMarks(s: Store, step: Step, now: int)
    requires RowsInv(s) && Enforced(s) && (step.DoCollect? || step.DoRepair?)
    ensures KeepsMarks(s, StoreAfter(s, step, now))
  {
    if step.DoCollect? {
      CollectRows(s, step.cutoff, now);
    } else if Repair(s, now).Success? {
      RepairKeepsMarks(s, now);
    }
  }

  lemma QuietStepKeepsMarks(s: Store, step: Step, now: int)
    requires Enforced(s) && (step.DoPrepare? || step.DoMark? || step.Damage?)
    ensures KeepsMarks(s, StoreAfter(s, step, now))
  {
  }

  lemma StepKeepsMarks(s: Store, step: Step, now: int)
    requires RowsInv(s) && AckedInv(s) && KeysIndex(s.keys, s.operations) && !step.DoAck?
    ensures KeepsMarks(s, StoreAfter(s, step, now))
  {
    match step
    case DoAppend(_) => PutStepKeepsMarks(s, step, now);
    case DoJournal(_) => PutStepKeepsMarks(s, step, now);
    case DoEmit(d) => EmitKeepsMarks(s, d, now);
    case DoRepair => SweepStepKeepsMarks(s, step, now);
    case DoCollect(_) => SweepStepKeepsMarks(s, step, now);
    case DoPrepare(_, _) => QuietStepKeepsMarks(s, step, now);
    case DoRecord(_, _, _, _, _, _) => LedgerStepKeepsMarks(s, step, now);
    case DoResolve(_, _, _, _, _, _, _) => LedgerStepKeepsMarks(s, step, now);
    case DoMark(_, _) => QuietStepKeepsMarks(s, step, now);
    case Damage(_, _) => QuietStepKeepsMarks(s, step, now);
  }

  /** Every row knows when its event was first acknowledged. */
  ghost predicate TimesAre(worlds: seq<World>, actions: seq<Action>, i: nat)
    requires i < |worlds| && i <= |actions|
  {
    forall id :: id in worlds[i].store.events ==>
      var row := worlds[i].store.events[id];
      && row.ackedAt == AckTime(worlds, actions, i, row.event)
      && (row.ackedAt.Some? <==> row.event in worlds[i].acked)
  }

  ghost predicate AckedAreStored(w: World) {
    forall e :: e in w.acked ==> e.id in w.store.events && w.store.events[e.id].event == e
  }

  /** What a step does to the times, given what it does to the set of acknowledged events. */
  ghost predicate TimeAfter(w: World, w': World, now: int, id: string)
    requires id in w'.store.events
  {
    var row := w'.store.events[id];
    && (row.ackedAt.Some? <==> row.event in w'.acked)
    && (if id in w.store.events then
          row.event == w.store.events[id].event
          && row.ackedAt == (if w.store.events[id].ackedAt.Some? then w.store.events[id].ackedAt
                             else if row.event in w'.acked then Some(now) else None)
        else row.ackedAt == None && row.event !in w.acked && row.event !in w'.acked)
  }

  lemma AckTimes(w: World, step: Step, now: int, id: string)
    requires RowsInv(w.store) && Enforced(w.store) && id in Next(w, step, now).store.events
    requires id in w.store.events ==> (w.store.events[id].ackedAt.Some? <==> w.store.events[id].event in w.acked)
    requires AckedAreStored(w) && step.DoAck? && RecordPuback(w.store, step.event, step.puback, now).Success?
    ensures TimeAfter(w, Next(w, step, now), now, id)
  {
    AckStores(w.store, step.event, step.puback, now);
    if id in w.store.events && id != step.event.id {
      assert RowOk(w.store.events[id], id, w.store.sequences);
      assert w.store.events[id].event != step.event;
    }
  }

  /** One more step: of the rows only that of an acknowledged event can get a time. */
  lemma StepTimes(w: World, step: Step, now: int, id: string)
    requires Inv(w) && id in Next(w, step, now).store.events
    requires id in w.store.events ==> (w.store.events[id].ackedAt.Some? <==> w.store.events[id].event in w.acked)
    requires AckedAreStored(w)
    ensures TimeAfter(w, Next(w, step, now), now, id)
  {
    if step.DoAck? && RecordPuback(w.store, step.event, step.puback, now).Success? {
      AckTimes(w, step, now, id);
    } else {
      if !step.DoAck? {
        StepKeepsMarks(w.store, step, now);
      }
      assert Next(w, step, now).acked == w.acked;
      if id !in w.store.events {
        NewRowsAreNew(w, step, now, id);
      }
    }
  }

  lemma NewRowsAreNew(w: World, step: Step, now: int, id: string)
    requires Inv(w) && AckedAreStored(w) && id !in w.store.events && id in Next(w, step, now).store.events
    ensures Next(w, step, now).store.events[id].event !in w.acked
  {
    StepKeepsInv(w, step, now);
    assert RowOk(Next(w, step, now).store.events[id], id, Next(w, step, now).store.sequences);
  }

  lemma StepKeepsAcked(w: World, step: Step, now: int)
    requires Inv(w) && AckedAreStored(w)
    ensures AckedAreStored(Next(w, step, now))
  {
    var s, w' := w.store, Next(w, step, now);
    EveryStepConserves(s, step, now);
    forall e | e in w'.acked
      ensures e.id in w'.store.events && w'.store.events[e.id].event == e
    {
      if e in w.acked {
        assert RowConserved(s, step, w'.store, e.id);
      } else {
        AckStores(s, step.event, step.puback, now);
      }
    }
  }

  lemma {:induction false} RowsKnowTheirTimes(worlds: seq<World>, actions: seq<Action>, i: nat)
    requires Run(worlds, actions) && i < |worlds|
    ensures TimesAre(worlds, actions, i) && AckedAreStored(worlds[i])
    decreases i
  {
    if i == 0 {
    } else {
      RowsKnowTheirTimes(worlds, actions, i - 1);
      RunKeepsInv(worlds, actions, i - 1);
      var w, step, now := worlds[i - 1], actions[i - 1].step, actions[i - 1].now;
      StepKeepsAcked(w, step, now);
      forall id | id in worlds[i].store.events
        ensures worlds[i].store.events[id].ackedAt == AckTime(worlds, actions, i, worlds[i].store.events[id].event)
        ensures worlds[i].store.events[id].ackedAt.Some? <==> worlds[i].store.events[id].event in worlds[i].acked
      {
        StepTimes(w, step, now, id);
      }
    }
  }

  lemma CollectStep(w: World, step: Step, now: int, id: string)
    requires Inv(w) && step.DoCollect? && id in w.store.events
    ensures var row := w.store.events[id];
      && id in Next(w, step, now).store.events && (row.role == Some(Acked) ==> row.ackedAt.Some?)
      && Next(w, step, now).store.events[id] ==
           if row.role == Some(Acked) && row.ackedAt.value < step.cutoff then row.(role := None) else row
  {
    CollectRows(w.store, step.cutoff, now);
  }

  /** In every run, retention takes out of its role exactly each acknowledged row whose event the run first
      acknowledged before the cutoff. Every other row stays as it is. */
  lemma RetentionTakesOld(worlds: seq<World>, actions: seq<Action>, i: nat, id: string)
    requires Run(worlds, actions) && i < |actions| && actions[i].step.DoCollect? && id in worlds[i].store.events
    ensures var row := worlds[i].store.events[id];
      && id in worlds[i + 1].store.events
      && (row.role == Some(Acked) ==> AckTime(worlds, actions, i, row.event).Some?)
      && worlds[i + 1].store.events[id] ==
           if row.role == Some(Acked) && AckTime(worlds, actions, i, row.event).value < actions[i].step.cutoff
           then row.(role := None)
           else row
  {
    RowsKnowTheirTimes(worlds, actions, i);
    RunKeepsInv(worlds, actions, i);
    CollectStep(worlds[i], actions[i].step, actions[i].now, id);
  }

  // ---------------------------------------------------------------------------------
  // The journal
  // ---------------------------------------------------------------------------------

  predicate Journaled(s: Store, id: string) {
    id in s.events && s.events[id].journaled
  }

  lemma AckKeepsJournal(s: Store, step: Step, now: int, id: string)
    requires RowsInv(s) && Enforced(s) && step.DoAck? && Journaled(s, id)
    ensures Journaled(StoreAfter(s, step, now), id)
  {
    if RecordPuback(s, step.event, step.puback, now).Success? {
      AckStores(s, step.event, step.puback, now);
    }
  }

  lemma StepKeepsJournal(w: World, step: Step, now: int, id: string)
    requires Inv(w) && Journaled(w.store, id)
    ensures Journaled(Next(w, step, now).store, id)
  {
    if step.DoAck? {
      AckKeepsJournal(w.store, step, now, id);
    } else {
      StepKeepsMarks(w.store, step, now);
    }
  }

  lemma {:induction false} JournalKeeps(worlds: seq<World>, actions: seq<Action>, i: nat, j: nat, id: string)
    requires Run(worlds, actions) && i <= j < |worlds| && Journaled(worlds[i].store, id)
    ensures Journaled(worlds[j].store, id)
    decreases j
  {
    if i < j {
      JournalKeeps(worlds, actions, i, j - 1, id);
      RunKeepsInv(worlds, actions, j - 1);
      StepKeepsJournal(worlds[j - 1], actions[j - 1].step, actions[j - 1].now, id);
    }
  }

  /** An event that the journal takes is journaled from then on, and only its first acceptance is told as
      new: of two in one run the second never is. */
  lemma JournalTellsFirst(worlds: seq<World>, actions: seq<Action>, i: nat, j: nat, e: Event)
    requires Run(worlds, actions) && i < |actions| && actions[i].step == DoJournal(e)
    requires AppendJournal(worlds[i].store, e, actions[i].now).Success?
    ensures AppendJournal(worlds[i].store, e, actions[i].now).value.1 <==> !Journaled(worlds[i].store, e.id)
    ensures i < j < |actions| && actions[j].step == DoJournal(e) ==>
              && Journaled(worlds[j].store, e.id)
              && AppendJournal(worlds[j].store, e, actions[j].now).Success?
              && !AppendJournal(worlds[j].store, e, actions[j].now).value.1
  {
    RunKeepsInv(worlds, actions, i);
    PutShape(worlds[i].store, e, None, true, actions[i].now);
    PutFits(worlds[i].store, e, None, true, actions[i].now);
    if i < j < |actions| {
      JournalKeeps(worlds, actions, i + 1, j, e.id);
      RowsAreForever(worlds, actions, i + 1, j, e.id);
      RunKeepsInv(worlds, actions, j);
      PutFits(worlds[j].store, e, None, true, actions[j].now);
    }
  }
}
