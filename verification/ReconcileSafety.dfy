/** What every run of the reconciling processes guarantees. */
module ReconcileSafety {
  import opened Basics
  import opened ReconcileTables
  import opened ReconcileEngine
  import opened ReconcileSystem

  /** A finite run: states joined by steps, from the empty store on. */
  ghost predicate Run(hash: ShardHash, states: seq<System>, events: seq<Event>) {
    && |states| == |events| + 1
    && Init(states[0])
    && forall i :: 0 <= i < |events| ==> Step(hash, states[i], events[i], states[i + 1])
  }

  lemma {:induction false} RunKeepsInv(hash: ShardHash, states: seq<System>, events: seq<Event>, i: nat)
    requires Run(hash, states, events) && i < |states|
    ensures Inv(hash, states[i])
    decreases i
  {
    if i == 0 {
    } else {
      RunKeepsInv(hash, states, events, i - 1);
      StepKeeps(hash, states[i - 1], events[i - 1], states[i]);
    }
  }

  // ---------------------------------------------------------------------------------
  // Applies are never silently replayed
  // ---------------------------------------------------------------------------------

  /** At most one apply of a generation is not accounted for by a verified completion. */
  lemma AppliesBounded(hash: ShardHash, states: seq<System>, events: seq<Event>, i: nat, slot: Slot)
    requires Run(hash, states, events) && i < |states|
    ensures states[i].begun[slot] <= states[i].completed[slot] + 1
  {
    var s := states[i];
    RunKeepsInv(hash, states, events, i);
    assert SlotInv(s, slot);
    if op :| Owns(s.tables, op, slot.place, slot.generation) {
      assert HistoryInv(s, op);
    }
  }

  lemma PreviewedIsUnbroken(s: System, pid: Pid)
    requires pid in s.procs && s.procs[pid].pc.Previewed? && ProcInv(s, pid)
    requires HistoryInv(s, s.procs[pid].pc.op)
    ensures JobSlot(s.procs[pid].job) !in s.broken
  {
  }

  /** A step never begins an apply for a generation one of whose applies was broken off. */
  lemma BrokenStaysBroken(hash: ShardHash, s: System, e: Event, s': System, slot: Slot)
    requires Inv(hash, s) && Step(hash, s, e, s') && slot in s.broken
    ensures slot in s'.broken && s'.begun[slot] == s.begun[slot]
  {
    match e
    case Move(pid, a) =>
      if s.procs[pid].pc.Previewed? {
        assert ProcInv(s, pid);
        PreviewedIsUnbroken(s, pid);
      }
    case _ =>
  }

  /** Once an apply of a generation crashed, raised or failed verification, no run begins another. */
  lemma {:induction false} NoReplay(hash: ShardHash, states: seq<System>, events: seq<Event>, i: nat, j: nat, slot: Slot)
    requires Run(hash, states, events) && i <= j < |states| && slot in states[i].broken
    ensures slot in states[j].broken && states[j].begun[slot] == states[i].begun[slot]
    decreases j
  {
    if i == j {
    } else {
      NoReplay(hash, states, events, i, j - 1, slot);
      RunKeepsInv(hash, states, events, j - 1);
      BrokenStaysBroken(hash, states[j - 1], events[j - 1], states[j], slot);
    }
  }

  // ---------------------------------------------------------------------------------
  // Claims sweep only the applications of dead processes
  // ---------------------------------------------------------------------------------

  lemma ApplyKept(t: Tables, t': Tables, job: Job, pc: Pc, broken: set<Slot>, place: Place)
    requires OnlyAt(t, t', place) && JobPlace(job) != place && InApply(pc) && PcInv(t, job, pc, broken)
    ensures JobPlace(job) in t'.applications && t'.applications[JobPlace(job)] == pc.op
    ensures pc.op in t.attempts && t.attempts[pc.op].state.Prepared?
    ensures pc.op in t'.attempts && t'.attempts[pc.op] == t.attempts[pc.op]
  {
  }

  /** A live pass inside its apply is never at a place that another process works on, and the
      steps of all other processes leave its attempt and its application row alone. */
  lemma LiveApplyKept(hash: ShardHash, s: System, pid: Pid, a: Answers, q: Pid)
    requires Inv(hash, s) && pid in s.procs && !Over(s.procs[pid].pc) && pid != q
    requires q in s.procs && InApply(s.procs[q].pc)
    ensures JobPlace(s.procs[q].job) != JobPlace(s.procs[pid].job)
    ensures var op, place, t' := s.procs[q].pc.op, JobPlace(s.procs[q].job), MoveAfter(s, pid, a).tables;
      && place in t'.applications && t'.applications[place] == op
      && op in s.tables.attempts && s.tables.attempts[op].state.Prepared?
      && op in t'.attempts && t'.attempts[op] == s.tables.attempts[op]
  {
    DistinctPlaces(hash, s, pid, q);
    assert ProcInv(s, q);
    MovedOwn(s, pid, a);
    ApplyKept(s.tables, MoveAfter(s, pid, a).tables, s.procs[q].job, s.procs[q].pc, s.broken, JobPlace(s.procs[pid].job));
  }

  /** When a claim turns an attempt INDETERMINATE, no live pass is inside that attempt's apply. */
  lemma SweptOnlyIfDead(hash: ShardHash, s: System, pid: Pid, a: Answers, op: OperationId, q: Pid)
    requires Inv(hash, s) && pid in s.procs && s.procs[pid].pc.Claiming? && q in s.procs
    requires op in s.tables.attempts && !s.tables.attempts[op].state.Indeterminate?
    requires op in MoveAfter(s, pid, a).tables.attempts && MoveAfter(s, pid, a).tables.attempts[op].state.Indeterminate?
    ensures InApply(s.procs[q].pc) ==> s.procs[q].pc.op != op
  {
    if InApply(s.procs[q].pc) && q != pid {
      LiveApplyKept(hash, s, pid, a, q);
    }
  }

  /** FAILED and INDETERMINATE attempts are final. */
  lemma NextLeavesFinal(t: Tables, job: Job, pc: Pc, a: Answers, op: OperationId, broken: set<Slot>)
    requires PcInv(t, job, pc, broken)
    requires JobPlace(job) in t.applications ==>
      t.applications[JobPlace(job)] in t.attempts && t.attempts[t.applications[JobPlace(job)]].state.Prepared?
    requires op in t.attempts && (t.attempts[op].state.Failed? || t.attempts[op].state.Indeterminate?)
    ensures op in Next(t, job, pc, a).0.attempts && Next(t, job, pc, a).0.attempts[op] == t.attempts[op]
  {
  }

  /** No attempt disappears or changes its slot, and a final one does not change at all. */
  lemma AttemptsStay(hash: ShardHash, s: System, e: Event, s': System, op: OperationId)
    requires Inv(hash, s) && Step(hash, s, e, s') && op in s.tables.attempts
    ensures op in s'.tables.attempts
    ensures s'.tables.attempts[op].place == s.tables.attempts[op].place
    ensures s'.tables.attempts[op].generation == s.tables.attempts[op].generation
    ensures s.tables.attempts[op].state.Failed? || s.tables.attempts[op].state.Indeterminate? ==>
              s'.tables.attempts[op] == s.tables.attempts[op]
  {
    if e.Move? {
      MovedOwn(s, e.pid, e.answers);
      if s.tables.attempts[op].state.Failed? || s.tables.attempts[op].state.Indeterminate? {
        MoveLeavesFinal(s, e.pid, e.answers, op);
      }
    }
  }

  lemma MoveLeavesFinal(s: System, pid: Pid, a: Answers, op: OperationId)
    requires TablesInv(s) && pid in s.procs && ProcInv(s, pid)
    requires op in s.tables.attempts && (s.tables.attempts[op].state.Failed? || s.tables.attempts[op].state.Indeterminate?)
    ensures op in MoveAfter(s, pid, a).tables.attempts
    ensures MoveAfter(s, pid, a).tables.attempts[op] == s.tables.attempts[op]
  {
    var job := s.procs[pid].job;
    if JobPlace(job) in s.tables.applications {
      assert ApplicationInv(s, JobPlace(job));
    }
    NextLeavesFinal(s.tables, job, s.procs[pid].pc, a, op, s.broken);
  }

  lemma {:induction false} FinalIsForever(hash: ShardHash, states: seq<System>, events: seq<Event>, i: nat, j: nat, op: OperationId)
    requires Run(hash, states, events) && i <= j < |states| && op in states[i].tables.attempts
    requires states[i].tables.attempts[op].state.Failed? || states[i].tables.attempts[op].state.Indeterminate?
    ensures op in states[j].tables.attempts && states[j].tables.attempts[op] == states[i].tables.attempts[op]
    decreases j
  {
    if i == j {
    } else {
      FinalIsForever(hash, states, events, i, j - 1, op);
      RunKeepsInv(hash, states, events, j - 1);
      AttemptsStay(hash, states[j - 1], events[j - 1], states[j], op);
    }
  }

  // ---------------------------------------------------------------------------------
  // Generations
  // ---------------------------------------------------------------------------------

  /** The row of a place stays, does not go back, and does not change within a generation. */
  ghost predicate RowAdvances(before: map<Place, Resource>, after: map<Place, Resource>, place: Place) {
    place in before ==>
      && place in after
      && before[place].generation <= after[place].generation
      && (before[place].generation == after[place].generation ==>
            && before[place].revision == after[place].revision
            && before[place].digest == after[place].digest
            && before[place].adapter == after[place].adapter)
  }

  lemma NextAdvances(t: Tables, job: Job, pc: Pc, a: Answers, broken: set<Slot>, place: Place)
    requires PcInv(t, job, pc, broken)
    ensures RowAdvances(t.resources, Next(t, job, pc, a).0.resources, place)
  {
  }

  lemma StepAdvances(hash: ShardHash, s: System, e: Event, s': System, place: Place)
    requires Inv(hash, s) && Step(hash, s, e, s')
    ensures RowAdvances(s.tables.resources, s'.tables.resources, place)
  {
    if e.Move? {
      assert ProcInv(s, e.pid);
      NextAdvances(s.tables, s.procs[e.pid].job, s.procs[e.pid].pc, e.answers, s.broken, place);
    }
  }

  lemma {:induction false} GenerationsNeverGoBack(hash: ShardHash, states: seq<System>, events: seq<Event>, i: nat, j: nat, place: Place)
    requires Run(hash, states, events) && i <= j < |states|
    ensures RowAdvances(states[i].tables.resources, states[j].tables.resources, place)
    decreases j
  {
    if i == j {
    } else {
      GenerationsNeverGoBack(hash, states, events, i, j - 1, place);
      RunKeepsInv(hash, states, events, j - 1);
      StepAdvances(hash, states[j - 1], events[j - 1], states[j], place);
    }
  }

  /** A new attempt lies above every earlier attempt of its place. */
  lemma NextInsertsAbove(t: Tables, job: Job, pc: Pc, a: Answers, op: OperationId, o: OperationId)
    requires op in Next(t, job, pc, a).0.attempts && op !in t.attempts && o in t.attempts
    requires t.attempts[o].place == Next(t, job, pc, a).0.attempts[op].place
    requires JobPlace(job) in t.applications ==> t.applications[JobPlace(job)] in t.attempts
    ensures t.attempts[o].generation < Next(t, job, pc, a).0.attempts[op].generation
  {
    if pc.Claiming? {
      var u := Abandon(t, JobPlace(job));
      assert o in u.attempts && u.attempts[o].place == t.attempts[o].place && u.attempts[o].generation == t.attempts[o].generation;
      assert Owns(u, o, t.attempts[o].place, t.attempts[o].generation);
    }
  }

  /** Attempts of a place are inserted in strictly increasing generation: no insert meets the unique index. */
  lemma AttemptsIncrease(hash: ShardHash, states: seq<System>, events: seq<Event>, i: nat, op: OperationId, o: OperationId)
    requires Run(hash, states, events) && i < |events|
    requires op in states[i + 1].tables.attempts && op !in states[i].tables.attempts
    requires o in states[i].tables.attempts
    requires states[i].tables.attempts[o].place == states[i + 1].tables.attempts[op].place
    ensures states[i].tables.attempts[o].generation < states[i + 1].tables.attempts[op].generation
  {
    var s, e := states[i], events[i];
    RunKeepsInv(hash, states, events, i);
    assert Step(hash, s, e, states[i + 1]);
    if e.Move? {
      var job := s.procs[e.pid].job;
      if JobPlace(job) in s.tables.applications {
        assert ApplicationInv(s, JobPlace(job));
      }
      NextInsertsAbove(s.tables, job, s.procs[e.pid].pc, e.answers, op, o);
    }
  }

  /** The generation of a resource row is owned by exactly one attempt. */
  lemma RowHasOneAttempt(hash: ShardHash, states: seq<System>, events: seq<Event>, i: nat, place: Place)
    requires Run(hash, states, events) && i < |states| && place in states[i].tables.resources
    ensures exists op ::
              && Owns(states[i].tables, op, place, states[i].tables.resources[place].generation)
              && forall o :: Owns(states[i].tables, o, place, states[i].tables.resources[place].generation) ==> o == op
  {
    RunKeepsInv(hash, states, events, i);
    assert ResourceInv(states[i], place);
    var op :| Owns(states[i].tables, op, place, states[i].tables.resources[place].generation);
  }

  /** The content of a row is that of a journaled event for this very place. */
  lemma RowComesFromJournal(hash: ShardHash, states: seq<System>, events: seq<Event>, i: nat, place: Place)
    requires Run(hash, states, events) && i < |states| && place in states[i].tables.resources
    ensures var row := states[i].tables.resources[place];
      && row.eventId in states[i].journal
      && states[i].journal[row.eventId].resource == place.resource
      && RowOf(states[i].journal[row.eventId]) == row
  {
    RunKeepsInv(hash, states, events, i);
    assert ResourceInv(states[i], place);
  }

  /** The only way a pass can raise is a conflicting claim: no unique index is hit, and
      reopening, previewing, beginning, completing and failing always find what they need. */
  lemma OnlyConflictsRaise(hash: ShardHash, states: seq<System>, events: seq<Event>, i: nat, pid: Pid)
    requires Run(hash, states, events) && i < |states|
    requires pid in states[i].procs && states[i].procs[pid].pc.Raised?
    ensures states[i].procs[pid].pc.error in
              {StateError(AppliedGenerationConflict), StateError(GenerationReused)}
  {
    RunKeepsInv(hash, states, events, i);
    assert ProcInv(states[i], pid);
  }

  // ---------------------------------------------------------------------------------
  // Recovery
  // ---------------------------------------------------------------------------------

  ghost predicate FaultFree(d: Desired, a: Answers) {
    && ArtifactProblem(d, a.checked) == None && a.intact.Verified?
    && ArtifactProblem(d, a.resolved) == None && a.preview.Success? && a.allowed
    && a.applyError == None && a.verdict.Verified?
  }

  /** The states that pass `pid` goes through when every other process stands still. */
  ghost function Path(s: System, pid: Pid, a: Answers): (path: seq<System>)
    requires pid in s.procs
    ensures path != [] && path[0] == s && pid in path[|path| - 1].procs
    decreases Rank(s.procs[pid].pc)
  {
    if Over(s.procs[pid].pc) then [s] else [s] + Path(MoveAfter(s, pid, a), pid, a)
  }

  ghost predicate Moves(hash: ShardHash, path: seq<System>, e: Event) {
    forall i :: 0 <= i < |path| - 1 ==> Step(hash, path[i], e, path[i + 1])
  }

  lemma PrependMove(hash: ShardHash, s: System, rest: seq<System>, e: Event)
    requires rest != [] && Step(hash, s, e, rest[0]) && Moves(hash, rest, e)
    ensures Moves(hash, [s] + rest, e)
  {
    var path := [s] + rest;
    forall i | 0 <= i < |path| - 1
      ensures Step(hash, path[i], e, path[i + 1])
    {
      if i > 0 {
        assert path[i] == rest[i - 1] && path[i + 1] == rest[i - 1 + 1];
      }
    }
  }

  lemma MoveIsStep(hash: ShardHash, s: System, pid: Pid, a: Answers)
    requires pid in s.procs && !Over(s.procs[pid].pc)
    ensures Step(hash, s, Move(pid, a), MoveAfter(s, pid, a))
  {
  }

  lemma RankFalls(s: System, pid: Pid, a: Answers)
    requires pid in s.procs && !Over(s.procs[pid].pc)
    ensures Rank(MoveAfter(s, pid, a).procs[pid].pc) < Rank(s.procs[pid].pc)
  {
  }

  /** They are joined by steps of the concurrent system. */
  lemma {:induction false} PathIsSteps(hash: ShardHash, s: System, pid: Pid, a: Answers)
    requires pid in s.procs
    ensures Moves(hash, Path(s, pid, a), Move(pid, a))
    decreases Rank(s.procs[pid].pc)
  {
    if Over(s.procs[pid].pc) {
    } else {
      var next := MoveAfter(s, pid, a);
      MoveIsStep(hash, s, pid, a);
      RankFalls(s, pid, a);
      PathIsSteps(hash, next, pid, a);
      var rest := Path(next, pid, a);
      assert Path(s, pid, a) == [s] + rest;
      PrependMove(hash, s, rest, Move(pid, a));
    }
  }

  /** The straight-line engine is one of the interleavings: its effect is that of such a path. */
  lemma {:induction false} EnginePassIsARun(s: System, pid: Pid, a: Answers)
    requires pid in s.procs
    ensures var end := Path(s, pid, a)[|Path(s, pid, a)| - 1];
      (end.tables, end.procs[pid].pc) == RunPass(s.tables, s.procs[pid].job, s.procs[pid].pc, a)
    decreases Rank(s.procs[pid].pc)
  {
    if Over(s.procs[pid].pc) {
    } else {
      var next := MoveAfter(s, pid, a);
      Unroll(s.tables, s.procs[pid].job, s.procs[pid].pc, a);
      EnginePassIsARun(next, pid, a);
      assert Path(s, pid, a) == [s] + Path(next, pid, a);
    }
  }

  /** A process takes the lock of a job's place. */
  function Acquired(hash: ShardHash, s: System, pid: Pid, job: Job): System {
    s.(procs := s.procs[pid := Proc(job, Claiming)], holders := s.holders[ShardOf(hash, JobPlace(job)) := pid])
  }

  /** From every reachable state in which the lock of the place is free, whatever crashes led there, a
      process that acquires it for a fresh event above all attempted generations and meets no fault
      comes by steps of the system to the end of its pass with that event applied. */
  lemma FreshEventConverges(hash: ShardHash, states: seq<System>, events: seq<Event>, i: nat, pid: Pid, job: Job, a: Answers)
    requires Run(hash, states, events) && i < |states|
    requires pid !in states[i].procs && ShardOf(hash, JobPlace(job)) !in states[i].holders
    requires job.desired.targets.Some? ==> job.node in job.desired.targets.value
    requires job.desired.eventId in states[i].journal && states[i].journal[job.desired.eventId] == job.desired
    requires forall o :: o in states[i].tables.attempts && states[i].tables.attempts[o].place == JobPlace(job) ==>
               states[i].tables.attempts[o].generation < job.desired.generation
    requires FaultFree(job.desired, a)
    ensures Step(hash, states[i], Acquire(pid, job), Acquired(hash, states[i], pid, job))
    ensures var path := Path(Acquired(hash, states[i], pid, job), pid, a);
      Moves(hash, path, Move(pid, a))
      && var end := path[|path| - 1];
         && end.procs[pid].pc == AppliedResult(job, OwnOperation(job))
         && JobPlace(job) in end.tables.resources && end.tables.resources[JobPlace(job)] == RowOf(job.desired)
         && OwnOperation(job) in end.tables.attempts && end.tables.attempts[OwnOperation(job)].state.Applied?
         && JobPlace(job) !in end.tables.applications
  {
    var s := Acquired(hash, states[i], pid, job);
    RunKeepsInv(hash, states, events, i);
    FreshPass(states[i], job, a);
    PathIsSteps(hash, s, pid, a);
    EnginePassIsARun(s, pid, a);
  }

  lemma FreshPass(s: System, job: Job, a: Answers)
    requires TablesInv(s)
    requires job.desired.eventId in s.journal && s.journal[job.desired.eventId] == job.desired
    requires forall o :: o in s.tables.attempts && s.tables.attempts[o].place == JobPlace(job) ==>
               s.tables.attempts[o].generation < job.desired.generation
    requires FaultFree(job.desired, a)
    ensures var (t', pc') := RunPass(s.tables, job, Claiming, a);
      && pc' == AppliedResult(job, OwnOperation(job))
      && JobPlace(job) in t'.resources && t'.resources[JobPlace(job)] == RowOf(job.desired)
      && OwnOperation(job) in t'.attempts && t'.attempts[OwnOperation(job)].state.Applied?
      && JobPlace(job) !in t'.applications
  {
    var own := OwnOperation(job);
    FreshClaim(s, job);
    var u := ClaimStep(s.tables, job).0;
    Unroll(s.tables, job, Claiming, a);
    PreparedPass(u, job, own, a);
  }

  lemma OwnSlot(s: System, job: Job)
    requires OwnOperation(job) in s.tables.attempts && AttemptInv(s, OwnOperation(job))
    requires job.desired.eventId in s.journal && s.journal[job.desired.eventId] == job.desired
    ensures Owns(s.tables, OwnOperation(job), JobPlace(job), job.desired.generation)
  {
  }

  lemma FreshClaim(s: System, job: Job)
    requires TablesInv(s)
    requires job.desired.eventId in s.journal && s.journal[job.desired.eventId] == job.desired
    requires forall o :: o in s.tables.attempts && s.tables.attempts[o].place == JobPlace(job) ==>
               s.tables.attempts[o].generation < job.desired.generation
    ensures var (u, pc) := ClaimStep(s.tables, job);
      && pc == Resolving(OwnOperation(job))
      && PcInv(u, job, pc, {}) && ApplicationsInPlace(u)
  {
    var place := JobPlace(job);
    var own := OwnOperation(job);
    if own in s.tables.attempts {
      OwnSlot(s, job);
    }
    if place in s.tables.resources {
      assert ResourceInv(s, place);
      var o :| Owns(s.tables, o, place, s.tables.resources[place].generation);
    }
    forall p | p in s.tables.applications
      ensures s.tables.applications[p] in s.tables.attempts && s.tables.attempts[s.tables.applications[p]].place == p
    {
      assert ApplicationInv(s, p);
    }
    FreshInserts(s.tables, job);
  }

  /** The claim of a fresh generation sweeps the place and inserts a prepared attempt. */
  lemma FreshInserts(t: Tables, job: Job)
    requires ApplicationsInPlace(t) && OwnOperation(job) !in t.attempts
    requires JobPlace(job) in t.resources ==> t.resources[JobPlace(job)].generation < job.desired.generation
    requires forall o :: o in t.attempts && t.attempts[o].place == JobPlace(job) ==>
               t.attempts[o].generation < job.desired.generation
    ensures var (u, pc) := ClaimStep(t, job);
      && pc == Resolving(OwnOperation(job))
      && PcInv(u, job, pc, {}) && ApplicationsInPlace(u)
  {
    var u := Abandon(t, JobPlace(job));
    assert forall o :: o in u.attempts ==>
      (o in t.attempts && u.attempts[o].place == t.attempts[o].place
       && u.attempts[o].generation == t.attempts[o].generation);
    assert Admit(u, JobPlace(job), OwnOperation(job), job.desired).Success?;
  }

  /** From a prepared attempt with no application under way, a fault-free pass ends applied. */
  lemma PreparedPass(t: Tables, job: Job, op: OperationId, a: Answers)
    requires PcInv(t, job, Resolving(op), {}) && ApplicationsInPlace(t)
    requires FaultFree(job.desired, a)
    ensures var (t', pc') := RunPass(t, job, Resolving(op), a);
      && pc' == AppliedResult(job, op)
      && JobPlace(job) in t'.resources && t'.resources[JobPlace(job)] == RowOf(job.desired)
      && op in t'.attempts && t'.attempts[op].state.Applied?
      && JobPlace(job) !in t'.applications
      && (forall o :: o in t.attempts && o != op ==> o in t'.attempts && t'.attempts[o] == t.attempts[o])
      && t'.attempts.Keys == t.attempts.Keys
      && t'.attempts[op].place == t.attempts[op].place && t'.attempts[op].generation == t.attempts[op].generation
      && t'.resources == t.resources[JobPlace(job) := RowOf(job.desired)]
      && t'.applications == t.applications
  {
    Unroll(t, job, Resolving(op), a);
    PreviewedPass(ResolveStep(t, job, op, a).0, job, op, a);
  }

  /** The rest of such a pass, from the commit of the preview on. */
  lemma PreviewedPass(t: Tables, job: Job, op: OperationId, a: Answers)
    requires PcInv(t, job, Previewed(op), {}) && ApplicationsInPlace(t)
    requires FaultFree(job.desired, a)
    ensures var (t', pc') := RunPass(t, job, Previewed(op), a);
      && pc' == AppliedResult(job, op)
      && t' == Tables(t.attempts[op := t.attempts[op].(state := Applied)], t.applications,
                      t.resources[JobPlace(job) := RowOf(job.desired)])
  {
    assert op !in t.applications.Values;
    Unroll(t, job, Previewed(op), a);
    var t2 := t.(applications := t.applications[JobPlace(job) := op]);
    Unroll(t2, job, Applying(op), a);
    Unroll(t2, job, Verifying(op), a);
    assert t2.applications[JobPlace(job)] == op;
    DeletedInPlace(t2, op);
    assert t2.applications - {JobPlace(job)} == t.applications;
  }
}
