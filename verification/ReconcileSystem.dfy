/** Every interleaving of reconciling processes that may die between any two transactions.

    A state holds the journal, the three tables, the holders of the sharded resource locks
    (anvil_events/reconciliation/resource_lock.py) and the running passes. History counters
    record, per place and generation, the applies begun and the verified completions, and
    which generations had an apply that crashed, raised or failed verification. */
module ReconcileSystem {
  import opened Basics
  import opened ReconcileTables
  import opened ReconcileEngine

  type Pid = nat

  datatype Proc = Proc(job: Job, pc: Pc)

  /** One generation of one place. */
  datatype Slot = Slot(place: Place, generation: nat)

  datatype System = System(
    journal: map<string, Desired>,
    tables: Tables,
    holders: map<nat, Pid>,
    procs: map<Pid, Proc>,
    begun: multiset<Slot>,
    completed: multiset<Slot>,
    broken: set<Slot>)

  const SHARDS := 64

  /** The lock file of a place: a hash, of which only determinism matters, modulo 64. */
  type ShardHash = Place -> nat

  function ShardOf(hash: ShardHash, place: Place): nat {
    hash(place) % SHARDS
  }

  function JobPlace(job: Job): Place {
    PlaceOf(job.node, job.desired)
  }

  function JobSlot(job: Job): Slot {
    Slot(JobPlace(job), job.desired.generation)
  }

  /** Between the commit of `begin_apply` and the commit of `complete` or `fail`. */
  predicate InApply(pc: Pc) {
    pc.Applying? || pc.Verifying?
  }

  datatype Event =
    | Journal(desired: Desired)
    | Acquire(pid: Pid, job: Job)
    | Move(pid: Pid, answers: Answers)
    | Release(pid: Pid)
    | Crash(pid: Pid)

  ghost predicate Init(s: System) {
    s == System(map[], Tables(map[], map[], map[]), map[], map[], multiset{}, multiset{}, {})
  }

  /** A verified completion: the step from `Verifying` that ends the pass as applied. */
  predicate Completes(before: Pc, after: Pc) {
    before.Verifying? && after.Finished? && after.result.state.PassApplied?
  }

  ghost function MoveAfter(s: System, pid: Pid, a: Answers): System
    requires pid in s.procs
  {
    var Proc(job, pc) := s.procs[pid];
    var (t', pc') := Next(s.tables, job, pc, a);
    var slot := JobSlot(job);
    s.(tables := t',
       procs := s.procs[pid := Proc(job, pc')],
       begun := if pc.Previewed? && pc'.Applying? then s.begun + multiset{slot} else s.begun,
       completed := if Completes(pc, pc') then s.completed + multiset{slot} else s.completed,
       broken := if InApply(pc) && !InApply(pc') && !Completes(pc, pc') then s.broken + {slot} else s.broken)
  }

  /** The process is gone and the operating system drops its lock. */
  ghost function Gone(s: System, hash: ShardHash, pid: Pid): System
    requires pid in s.procs
  {
    s.(procs := s.procs - {pid}, holders := s.holders - {ShardOf(hash, JobPlace(s.procs[pid].job))})
  }

  ghost predicate Step(hash: ShardHash, s: System, e: Event, s': System) {
    match e
    case Journal(d) =>
      // an event id names one envelope
      && (d.eventId in s.journal ==> s.journal[d.eventId] == d)
      && s' == s.(journal := s.journal[d.eventId := d])
    case Acquire(pid, job) =>
      && pid !in s.procs
      && job.desired.eventId in s.journal && s.journal[job.desired.eventId] == job.desired
      && (job.desired.targets.Some? ==> job.node in job.desired.targets.value)
      && ShardOf(hash, JobPlace(job)) !in s.holders
      && s' == s.(procs := s.procs[pid := Proc(job, Claiming)],
                  holders := s.holders[ShardOf(hash, JobPlace(job)) := pid])
    case Move(pid, a) =>
      pid in s.procs && !Over(s.procs[pid].pc) && s' == MoveAfter(s, pid, a)
    case Release(pid) =>
      pid in s.procs && Over(s.procs[pid].pc) && s' == Gone(s, hash, pid)
    case Crash(pid) =>
      && pid in s.procs
      && s' == Gone(s, hash, pid).(
           broken := if InApply(s.procs[pid].pc) then s.broken + {JobSlot(s.procs[pid].job)} else s.broken)
  }

  // ---------------------------------------------------------------------------------
  // The inductive invariant
  // ---------------------------------------------------------------------------------

  /** Running passes and held shard locks correspond one to one. */
  ghost predicate LockInv(hash: ShardHash, s: System) {
    && (forall pid :: pid in s.procs ==>
          var shard := ShardOf(hash, JobPlace(s.procs[pid].job));
          shard in s.holders && s.holders[shard] == pid)
    && (forall shard :: shard in s.holders ==>
          s.holders[shard] in s.procs && ShardOf(hash, JobPlace(s.procs[s.holders[shard]].job)) == shard)
  }

  ghost predicate AttemptInv(s: System, op: OperationId)
    requires op in s.tables.attempts
  {
    var a := s.tables.attempts[op];
    && op.node == a.place.node
    && op.eventId in s.journal
    && s.journal[op.eventId].resource == a.place.resource
    && s.journal[op.eventId].generation == a.generation
    && (a.state.Applied? ==>
          a.place in s.tables.resources && a.generation <= s.tables.resources[a.place].generation)
  }

  ghost predicate ApplicationInv(s: System, place: Place)
    requires place in s.tables.applications
  {
    var op := s.tables.applications[place];
    op in s.tables.attempts && s.tables.attempts[op].place == place && s.tables.attempts[op].state.Prepared?
  }

  /** A resource row was written from a journaled event, and its generation was attempted. */
  ghost predicate ResourceInv(s: System, place: Place)
    requires place in s.tables.resources
  {
    var row := s.tables.resources[place];
    && row.eventId in s.journal
    && s.journal[row.eventId].resource == place.resource
    && RowOf(s.journal[row.eventId]) == row
    && exists op :: Owns(s.tables, op, place, row.generation)
  }

  ghost predicate OpenApplication(t: Tables, op: OperationId)
    requires op in t.attempts
  {
    var place := t.attempts[op].place;
    place in t.applications && t.applications[place] == op
  }

  /** What the history may be, given the state of the attempt that owns the slot. */
  ghost predicate HistoryInv(s: System, op: OperationId)
    requires op in s.tables.attempts
  {
    var a := s.tables.attempts[op];
    var slot := Slot(a.place, a.generation);
    if a.state.Failed? || a.state.Indeterminate? then
      s.begun[slot] <= s.completed[slot] + 1
    else if OpenApplication(s.tables, op) then
      s.begun[slot] == s.completed[slot] + 1
    else
      s.begun[slot] == s.completed[slot] && slot !in s.broken
  }

  ghost predicate SlotInv(s: System, slot: Slot) {
    (forall op :: !Owns(s.tables, op, slot.place, slot.generation)) ==>
      s.begun[slot] == 0 && s.completed[slot] == 0 && slot !in s.broken
  }

  ghost predicate TablesInv(s: System) {
    && UniqueGenerations(s.tables)
    && (forall id :: id in s.journal ==> s.journal[id].eventId == id)
    && (forall op :: op in s.tables.attempts ==> AttemptInv(s, op))
    && (forall op :: op in s.tables.attempts ==> HistoryInv(s, op))
    && (forall slot :: SlotInv(s, slot))
    && (forall place :: place in s.tables.applications ==> ApplicationInv(s, place))
    && (forall place :: place in s.tables.resources ==> ResourceInv(s, place))
  }

  /** The row of the place lies below the desired generation or has its very content. */
  ghost predicate RowAllows(t: Tables, job: Job) {
    var place := JobPlace(job);
    place in t.resources ==>
      || t.resources[place].generation < job.desired.generation
      || (t.resources[place].generation == job.desired.generation && SameContent(t.resources[place], job.desired))
  }

  /** What a running pass relies on while it holds the lock of its place. */
  ghost predicate PcInv(t: Tables, job: Job, pc: Pc, broken: set<Slot>) {
    var place := JobPlace(job);
    var d := job.desired;
    match pc
    case Claiming => true
    case Checking(op) =>
      && Owns(t, op, place, d.generation) && t.attempts[op].state.Applied?
      && place !in t.applications
      && place in t.resources && t.resources[place].generation == d.generation && SameContent(t.resources[place], d)
    case Resolving(op) =>
      && Owns(t, op, place, d.generation) && (t.attempts[op].state.Prepared? || t.attempts[op].state.AwaitingApproval?)
      && place !in t.applications && RowAllows(t, job)
    case Previewed(op) =>
      && Owns(t, op, place, d.generation) && t.attempts[op].state.Prepared?
      && place !in t.applications && RowAllows(t, job)
    case Applying(op) =>
      && Owns(t, op, place, d.generation) && t.attempts[op].state.Prepared?
      && place in t.applications && t.applications[place] == op && RowAllows(t, job)
      && JobSlot(job) !in broken
    case Verifying(op) =>
      && Owns(t, op, place, d.generation) && t.attempts[op].state.Prepared?
      && place in t.applications && t.applications[place] == op && RowAllows(t, job)
      && JobSlot(job) !in broken
    case Finished(_) => true
    case Raised(e) => e == StateError(AppliedGenerationConflict) || e == StateError(GenerationReused)
  }

  ghost predicate ProcInv(s: System, pid: Pid)
    requires pid in s.procs
  {
    var Proc(job, pc) := s.procs[pid];
    && job.desired.eventId in s.journal && s.journal[job.desired.eventId] == job.desired
    && PcInv(s.tables, job, pc, s.broken)
  }

  ghost predicate Inv(hash: ShardHash, s: System) {
    LockInv(hash, s) && TablesInv(s) && forall pid :: pid in s.procs ==> ProcInv(s, pid)
  }

  // ---------------------------------------------------------------------------------
  // One step of one pass
  // ---------------------------------------------------------------------------------

  /** Rows of other places are untouched, and no attempt moves or disappears. */
  ghost predicate OnlyAt(t: Tables, t': Tables, place: Place) {
    && (forall op :: op in t.attempts ==>
          op in t'.attempts && t'.attempts[op].place == t.attempts[op].place
          && t'.attempts[op].generation == t.attempts[op].generation
          && (t.attempts[op].place != place ==> t'.attempts[op] == t.attempts[op]))
    && (forall op :: op in t'.attempts && op !in t.attempts ==> t'.attempts[op].place == place)
    && (forall p :: p != place ==> (p in t.applications <==> p in t'.applications))
    && (forall p :: p != place && p in t.applications ==> t.applications[p] == t'.applications[p])
    && (forall p :: p != place ==> (p in t.resources <==> p in t'.resources))
    && (forall p :: p != place && p in t.resources ==> t.resources[p] == t'.resources[p])
  }

  /** `s'` rewrites the attempt `op`, and perhaps the application, row and history of its slot. */
  ghost predicate Edited(s: System, s': System, op: OperationId) {
    && op in s.tables.attempts && op in s'.tables.attempts
    && s'.journal == s.journal
    && s'.tables.attempts == s.tables.attempts[op := s'.tables.attempts[op]]
    && s'.tables.attempts[op].place == s.tables.attempts[op].place
    && s'.tables.attempts[op].generation == s.tables.attempts[op].generation
    && OnlyAt(s.tables, s'.tables, s.tables.attempts[op].place)
    && forall slot :: slot != Slot(s.tables.attempts[op].place, s.tables.attempts[op].generation) ==>
         && s'.begun[slot] == s.begun[slot]
         && s'.completed[slot] == s.completed[slot]
         && (slot in s'.broken <==> slot in s.broken)
  }

  /** What an edit must leave behind at its own place. */
  ghost predicate EditSound(s: System, s': System, op: OperationId) {
    && Edited(s, s', op)
    && var place := s.tables.attempts[op].place;
    && (place in s.tables.applications ==> s.tables.applications[place] == op)
    && (place in s'.tables.applications ==>
          s'.tables.applications[place] == op && s'.tables.attempts[op].state.Prepared?)
    && (place in s.tables.resources ==>
          place in s'.tables.resources
          && s.tables.resources[place].generation <= s'.tables.resources[place].generation)
    && (place in s'.tables.resources ==> ResourceInv(s', place))
    && (s'.tables.attempts[op].state.Applied? ==>
          place in s'.tables.resources
          && s'.tables.attempts[op].generation <= s'.tables.resources[place].generation)
    && HistoryInv(s', op)
  }

  lemma EditAttempt(s: System, s': System, op: OperationId, o: OperationId)
    requires EditSound(s, s', op)
    requires o in s.tables.attempts && AttemptInv(s, o) && HistoryInv(s, o)
    requires o != op ==> s.tables.attempts[o].place == s.tables.attempts[op].place ==>
               s.tables.attempts[o].generation != s.tables.attempts[op].generation
    requires AttemptInv(s, op)
    ensures AttemptInv(s', o) && HistoryInv(s', o)
  {
    if o != op {
      assert s.tables.attempts[o] == s'.tables.attempts[o];
      assert OpenApplication(s.tables, o) == OpenApplication(s'.tables, o);
    }
  }

  lemma EditSlot(s: System, s': System, op: OperationId, slot: Slot)
    requires EditSound(s, s', op) && SlotInv(s, slot)
    ensures SlotInv(s', slot)
  {
    if forall o :: !Owns(s'.tables, o, slot.place, slot.generation) {
      assert !Owns(s'.tables, op, slot.place, slot.generation);
      forall o
        ensures !Owns(s.tables, o, slot.place, slot.generation)
      {
        assert !Owns(s'.tables, o, slot.place, slot.generation);
      }
    }
  }

  lemma EditResource(s: System, s': System, op: OperationId, p: Place)
    requires EditSound(s, s', op)
    requires p in s'.tables.resources && (p in s.tables.resources ==> ResourceInv(s, p))
    ensures ResourceInv(s', p)
  {
    if p != s.tables.attempts[op].place {
      var o :| Owns(s.tables, o, p, s.tables.resources[p].generation);
      assert Owns(s'.tables, o, p, s'.tables.resources[p].generation);
    }
  }

  lemma EditKeeps(s: System, s': System, op: OperationId)
    requires TablesInv(s) && EditSound(s, s', op)
    ensures TablesInv(s')
  {
    forall o | o in s'.tables.attempts
      ensures AttemptInv(s', o) && HistoryInv(s', o)
    {
      EditAttempt(s, s', op, o);
    }
    forall slot
      ensures SlotInv(s', slot)
    {
      EditSlot(s, s', op, slot);
    }
    forall p | p in s'.tables.applications
      ensures ApplicationInv(s', p)
    {
      if p != s.tables.attempts[op].place {
        assert ApplicationInv(s, p);
        assert s'.tables.applications[p] != op;
      }
    }
    forall p | p in s'.tables.resources
      ensures ResourceInv(s', p)
    {
      EditResource(s, s', op, p);
    }
  }

  /** A row that was there before an edit still has its attempt. */
  lemma RowStays(s: System, s': System, place: Place)
    requires s'.journal == s.journal && OnlyAt(s.tables, s'.tables, place)
    requires place in s.tables.resources && ResourceInv(s, place) && place in s'.tables.resources
    requires s'.tables.resources[place] == s.tables.resources[place]
    ensures ResourceInv(s', place)
  {
    var o :| Owns(s.tables, o, place, s.tables.resources[place].generation);
    assert Owns(s'.tables, o, place, s'.tables.resources[place].generation);
  }

  /** Nothing but the running passes and the locks differs. */
  lemma SameTables(s: System, s': System)
    requires TablesInv(s)
    requires s'.journal == s.journal && s'.tables == s.tables
    requires s'.begun == s.begun && s'.completed == s.completed && s'.broken == s.broken
    ensures TablesInv(s')
  {
    forall o | o in s'.tables.attempts
      ensures AttemptInv(s', o) && HistoryInv(s', o)
    {
      assert AttemptInv(s, o) && HistoryInv(s, o);
    }
    forall slot
      ensures SlotInv(s', slot)
    {
      assert SlotInv(s, slot);
    }
    forall p | p in s'.tables.applications
      ensures ApplicationInv(s', p)
    {
      assert ApplicationInv(s, p);
    }
    forall p | p in s'.tables.resources
      ensures ResourceInv(s', p)
    {
      assert ResourceInv(s, p);
    }
  }

  /** What is needed to know about the slot of a running pass beside `ProcInv`. */
  ghost predicate Local(s: System, pid: Pid, op: OperationId)
    requires pid in s.procs
  {
    var place := JobPlace(s.procs[pid].job);
    && ProcInv(s, pid)
    && Owns(s.tables, op, place, s.procs[pid].job.desired.generation)
    && HistoryInv(s, op) && AttemptInv(s, op)
    && (place in s.tables.resources ==> ResourceInv(s, place))
  }

  /** A step of pass `pid` is either an edit of its attempt or leaves tables and history alone. */
  ghost predicate StepSound(s: System, pid: Pid, a: Answers, op: OperationId)
    requires pid in s.procs
  {
    var s' := MoveAfter(s, pid, a);
    && ProcInv(s', pid)
    && OnlyAt(s.tables, s'.tables, JobPlace(s.procs[pid].job))
    && (EditSound(s, s', op)
        || (s'.tables == s.tables && s'.begun == s.begun && s'.completed == s.completed && s'.broken == s.broken))
  }

  lemma MoveChecking(s: System, pid: Pid, a: Answers, op: OperationId)
    requires pid in s.procs && s.procs[pid].pc == Checking(op) && Local(s, pid, op)
    ensures StepSound(s, pid, a, op)
  {
    var s' := MoveAfter(s, pid, a);
    if s'.tables != s.tables {
      RowStays(s, s', JobPlace(s.procs[pid].job));
    }
  }

  ghost predicate ApplicationsInPlace(t: Tables) {
    forall p :: p in t.applications ==>
      t.applications[p] in t.attempts && t.attempts[t.applications[p]].place == p
  }

  /** Deleting the application of `op` touches no other place. */
  lemma DeletedInPlace(t: Tables, op: OperationId)
    requires ApplicationsInPlace(t) && op in t.attempts
    requires t.attempts[op].place in t.applications ==> t.applications[t.attempts[op].place] == op
    ensures WithoutApplication(t.applications, op) == t.applications - {t.attempts[op].place}
  {
  }

  lemma FailSound(s: System, s': System, op: OperationId, error: string, indeterminate: bool)
    requires op in s.tables.attempts && HistoryInv(s, op) && ApplicationsInPlace(s.tables)
    requires var place := s.tables.attempts[op].place;
      && (place in s.tables.applications ==> s.tables.applications[place] == op)
      && (place in s.tables.resources ==> ResourceInv(s, place))
      && s'.journal == s.journal && s'.tables == FailAfter(s.tables, op, error, indeterminate)
      && s'.begun == s.begun && s'.completed == s.completed
      && s'.broken - {Slot(place, s.tables.attempts[op].generation)} == s.broken - {Slot(place, s.tables.attempts[op].generation)}
    ensures EditSound(s, s', op)
  {
    var place := s.tables.attempts[op].place;
    DeletedInPlace(s.tables, op);
    assert OnlyAt(s.tables, s'.tables, place);
    if place in s.tables.resources {
      RowStays(s, s', place);
    }
    var mine := Slot(place, s.tables.attempts[op].generation);
    forall slot | slot != mine
      ensures slot in s'.broken <==> slot in s.broken
    {
      assert slot in s'.broken - {mine} <==> slot in s'.broken;
      assert slot in s.broken - {mine} <==> slot in s.broken;
    }
  }

  lemma CompleteSound(s: System, s': System, op: OperationId, job: Job)
    requires op in s.tables.attempts && HistoryInv(s, op) && ApplicationsInPlace(s.tables)
    requires PcInv(s.tables, job, Verifying(op), s.broken)
    requires job.desired.eventId in s.journal && s.journal[job.desired.eventId] == job.desired
    requires CompleteAfter(s.tables, op, job.desired, job.node) == Success(s'.tables)
    requires s'.journal == s.journal && s'.begun == s.begun && s'.broken == s.broken
    requires s'.completed == s.completed + multiset{JobSlot(job)}
    ensures EditSound(s, s', op)
  {
    var place := JobPlace(job);
    DeletedInPlace(s.tables, op);
    assert OnlyAt(s.tables, s'.tables, place);
    assert Owns(s'.tables, op, place, s'.tables.resources[place].generation);
  }

  lemma MoveResolving(s: System, pid: Pid, a: Answers, op: OperationId)
    requires pid in s.procs && s.procs[pid].pc == Resolving(op) && Local(s, pid, op)
    requires ApplicationsInPlace(s.tables)
    ensures StepSound(s, pid, a, op)
  {
    var s' := MoveAfter(s, pid, a);
    var Proc(job, pc) := s.procs[pid];
    var place := JobPlace(job);
    if ArtifactProblem(job.desired, a.resolved).Some? {
      FailSound(s, s', op, Detail(job.desired, a.resolved), false);
    } else if a.preview.Failure? {
      FailSound(s, s', op, a.preview.error, false);
    } else if place in s.tables.resources {
      RowStays(s, s', place);
    }
  }

  lemma MovePreviewed(s: System, pid: Pid, a: Answers, op: OperationId)
    requires pid in s.procs && s.procs[pid].pc == Previewed(op) && Local(s, pid, op)
    requires ApplicationsInPlace(s.tables)
    ensures StepSound(s, pid, a, op)
    ensures MoveAfter(s, pid, a).procs[pid].pc == Applying(op)
  {
    var s' := MoveAfter(s, pid, a);
    var place := JobPlace(s.procs[pid].job);
    assert op !in s.tables.applications.Values;
    if place in s.tables.resources {
      RowStays(s, s', place);
    }
  }

  lemma MoveApplying(s: System, pid: Pid, a: Answers, op: OperationId)
    requires pid in s.procs && s.procs[pid].pc == Applying(op) && Local(s, pid, op)
    requires ApplicationsInPlace(s.tables)
    ensures StepSound(s, pid, a, op)
  {
    var s' := MoveAfter(s, pid, a);
    if a.applyError.Some? {
      FailSound(s, s', op, a.applyError.value, true);
    }
  }

  lemma MoveVerifying(s: System, pid: Pid, a: Answers, op: OperationId)
    requires pid in s.procs && s.procs[pid].pc == Verifying(op) && Local(s, pid, op)
    requires ApplicationsInPlace(s.tables)
    ensures StepSound(s, pid, a, op)
    ensures a.verdict.Verified? ==> Completes(Verifying(op), MoveAfter(s, pid, a).procs[pid].pc)
  {
    var s' := MoveAfter(s, pid, a);
    var Proc(job, pc) := s.procs[pid];
    if a.verdict.Verified? {
      assert s.tables.applications[JobPlace(job)] == op;
      CompleteSound(s, s', op, job);
    } else {
      FailSound(s, s', op, VerifyDetail(a), false);
    }
  }

  /** The tables after a claim has swept an abandoned application. */
  ghost function Swept(s: System, place: Place): System {
    s.(tables := Abandon(s.tables, place))
  }

  lemma SweepKeeps(s: System, place: Place)
    requires TablesInv(s)
    ensures TablesInv(Swept(s, place))
    ensures OnlyAt(s.tables, Swept(s, place).tables, place)
    ensures place !in Swept(s, place).tables.applications
  {
    if place in s.tables.applications {
      var op := s.tables.applications[place];
      assert ApplicationInv(s, place);
      SweepSound(s, place, op);
      EditKeeps(s, Swept(s, place), op);
    }
  }

  lemma SweepSound(s: System, place: Place, op: OperationId)
    requires place in s.tables.applications && s.tables.applications[place] == op
    requires ApplicationInv(s, place) && HistoryInv(s, op)
    requires place in s.tables.resources ==> ResourceInv(s, place)
    ensures EditSound(s, Swept(s, place), op)
  {
    if place in s.tables.resources {
      RowStays(s, Swept(s, place), place);
    }
  }

  /** A new attempt above every attempt of its place. */
  lemma InsertKeeps(s: System, s': System, op: OperationId, place: Place, generation: nat)
    requires TablesInv(s) && op !in s.tables.attempts && place !in s.tables.applications
    requires forall o :: o in s.tables.attempts && s.tables.attempts[o].place == place ==>
               s.tables.attempts[o].generation < generation
    requires s' == s.(tables := s.tables.(attempts := s.tables.attempts[op := Attempt(place, generation, Prepared, None, None)]))
    requires op.node == place.node && op.eventId in s.journal
    requires s.journal[op.eventId].resource == place.resource && s.journal[op.eventId].generation == generation
    ensures TablesInv(s') && OnlyAt(s.tables, s'.tables, place)
  {
    assert SlotInv(s, Slot(place, generation));
    InsertKeepsRows(s, s', op, place, generation);
    forall o | o in s'.tables.attempts
      ensures AttemptInv(s', o) && HistoryInv(s', o)
    {
      if o != op {
        assert AttemptInv(s, o) && HistoryInv(s, o);
      }
    }
    forall slot
      ensures SlotInv(s', slot)
    {
      assert SlotInv(s, slot);
      if forall o :: !Owns(s'.tables, o, slot.place, slot.generation) {
        forall o
          ensures !Owns(s.tables, o, slot.place, slot.generation)
        {
          assert !Owns(s'.tables, o, slot.place, slot.generation);
        }
      }
    }
  }

  lemma InsertKeepsRows(s: System, s': System, op: OperationId, place: Place, generation: nat)
    requires forall p :: p in s.tables.applications ==> ApplicationInv(s, p)
    requires forall p :: p in s.tables.resources ==> ResourceInv(s, p)
    requires op !in s.tables.attempts
    requires s' == s.(tables := s.tables.(attempts := s.tables.attempts[op := Attempt(place, generation, Prepared, None, None)]))
    ensures forall p :: p in s'.tables.applications ==> ApplicationInv(s', p)
    ensures forall p :: p in s'.tables.resources ==> ResourceInv(s', p)
  {
    forall p | p in s'.tables.applications
      ensures ApplicationInv(s', p)
    {
      assert ApplicationInv(s, p);
    }
    forall p | p in s'.tables.resources
      ensures ResourceInv(s', p)
    {
      assert ResourceInv(s, p);
      var o :| Owns(s.tables, o, p, s.tables.resources[p].generation);
      assert Owns(s'.tables, o, p, s'.tables.resources[p].generation);
    }
  }

  function OwnOperation(job: Job): OperationId {
    OperationId(job.node, job.desired.eventId)
  }

  function Fresh(job: Job): Attempt {
    Attempt(JobPlace(job), job.desired.generation, Prepared, None, None)
  }

  /** `claim` either leaves the tables alone or inserts above all attempts of the place. */
  lemma AdmitLocal(s: System, job: Job)
    requires JobPlace(job) !in s.tables.applications
    requires job.desired.eventId in s.journal && s.journal[job.desired.eventId] == job.desired
    requires OwnOperation(job) in s.tables.attempts ==> AttemptInv(s, OwnOperation(job))
    requires JobPlace(job) in s.tables.resources ==> ResourceInv(s, JobPlace(job))
    ensures match Admit(s.tables, JobPlace(job), OwnOperation(job), job.desired)
            case Failure(e) => e == AppliedGenerationConflict || e == GenerationReused
            case Success((t', r)) =>
              && PcInv(t', job, AfterClaim(job, r), s.broken)
              && (t' == s.tables
                  || (&& OwnOperation(job) !in s.tables.attempts
                      && t' == s.tables.(attempts := s.tables.attempts[OwnOperation(job) := Fresh(job)])
                      && forall o :: o in s.tables.attempts && s.tables.attempts[o].place == JobPlace(job) ==>
                           s.tables.attempts[o].generation < job.desired.generation))
  {
    var t, place, d := s.tables, JobPlace(job), job.desired;
    if forall o :: !Owns(t, o, place, d.generation) {
      forall o | o in t.attempts && t.attempts[o].place == place
        ensures t.attempts[o].generation != d.generation
      {
        assert !Owns(t, o, place, d.generation);
      }
    }
  }

  lemma AdmitKeeps(s: System, job: Job)
    requires TablesInv(s) && JobPlace(job) !in s.tables.applications
    requires job.desired.eventId in s.journal && s.journal[job.desired.eventId] == job.desired
    ensures match Admit(s.tables, JobPlace(job), OwnOperation(job), job.desired)
            case Failure(e) => e == AppliedGenerationConflict || e == GenerationReused
            case Success((t', r)) =>
              TablesInv(s.(tables := t')) && OnlyAt(s.tables, t', JobPlace(job)) && PcInv(t', job, AfterClaim(job, r), s.broken)
  {
    AdmitLocal(s, job);
    match Admit(s.tables, JobPlace(job), OwnOperation(job), job.desired)
    case Failure(e) =>
    case Success((t', r)) =>
      if t' == s.tables {
        SameTables(s, s.(tables := t'));
      } else {
        InsertKeeps(s, s.(tables := t'), OwnOperation(job), JobPlace(job), job.desired.generation);
      }
  }

  lemma OnlyAtTransitive(t0: Tables, t1: Tables, t2: Tables, place: Place)
    requires OnlyAt(t0, t1, place) && OnlyAt(t1, t2, place)
    ensures OnlyAt(t0, t2, place)
  {
  }

  /** The system after the transaction of a claim, and where the pass then stands. */
  ghost predicate ClaimSound(s: System, job: Job, t': Tables, r: ClaimResult) {
    TablesInv(s.(tables := t')) && OnlyAt(s.tables, t', JobPlace(job)) && PcInv(t', job, AfterClaim(job, r), s.broken)
  }

  /** After the sweep a claim of the abandoned attempt itself is over, and others are admitted. */
  lemma ClaimSplits(s: System, job: Job)
    ensures var place, u := JobPlace(job), Swept(s, JobPlace(job)).tables;
      ClaimAfter(s.tables, job.node, job.desired) ==
        if place in s.tables.applications && s.tables.applications[place] == OwnOperation(job)
        then Success((u, ClaimResult(InState(Indeterminate), OwnOperation(job))))
        else Admit(u, place, OwnOperation(job), job.desired)
  {
  }

  lemma ClaimKeeps(s: System, job: Job)
    requires TablesInv(s)
    requires job.desired.eventId in s.journal && s.journal[job.desired.eventId] == job.desired
    ensures match ClaimAfter(s.tables, job.node, job.desired)
            case Failure(e) => e == AppliedGenerationConflict || e == GenerationReused
            case Success((t', r)) => ClaimSound(s, job, t', r)
  {
    var place := JobPlace(job);
    SweepKeeps(s, place);
    ClaimSplits(s, job);
    if place in s.tables.applications && s.tables.applications[place] == OwnOperation(job) {
      OwnSweepSound(s, job);
    } else {
      AdmitSound(s, job);
    }
  }

  /** A claim of the abandoned attempt itself ends the pass. */
  lemma OwnSweepSound(s: System, job: Job)
    requires TablesInv(Swept(s, JobPlace(job))) && OnlyAt(s.tables, Swept(s, JobPlace(job)).tables, JobPlace(job))
    ensures ClaimSound(s, job, Swept(s, JobPlace(job)).tables, ClaimResult(InState(Indeterminate), OwnOperation(job)))
  {
  }

  lemma AdmitSound(s: System, job: Job)
    requires TablesInv(Swept(s, JobPlace(job))) && OnlyAt(s.tables, Swept(s, JobPlace(job)).tables, JobPlace(job))
    requires JobPlace(job) !in Swept(s, JobPlace(job)).tables.applications
    requires job.desired.eventId in s.journal && s.journal[job.desired.eventId] == job.desired
    ensures match Admit(Swept(s, JobPlace(job)).tables, JobPlace(job), OwnOperation(job), job.desired)
            case Failure(e) => e == AppliedGenerationConflict || e == GenerationReused
            case Success((t', r)) => ClaimSound(s, job, t', r)
  {
    var u := Swept(s, JobPlace(job));
    AdmitKeeps(u, job);
    match Admit(u.tables, JobPlace(job), OwnOperation(job), job.desired)
    case Failure(_) =>
    case Success((t', r)) =>
      OnlyAtTransitive(s.tables, u.tables, t', JobPlace(job));
      assert s.(tables := t') == u.(tables := t');
  }

  lemma MoveClaiming(s: System, pid: Pid, a: Answers)
    requires TablesInv(s) && pid in s.procs && ProcInv(s, pid) && s.procs[pid].pc.Claiming?
    ensures TablesInv(MoveAfter(s, pid, a))
    ensures ProcInv(MoveAfter(s, pid, a), pid)
    ensures OnlyAt(s.tables, MoveAfter(s, pid, a).tables, JobPlace(s.procs[pid].job))
  {
    var s' := MoveAfter(s, pid, a);
    var job := s.procs[pid].job;
    ClaimKeeps(s, job);
    match ClaimAfter(s.tables, job.node, job.desired)
    case Failure(_) => SameTables(s, s');
    case Success((t', r)) => SameTables(s.(tables := t'), s');
  }

  // ---------------------------------------------------------------------------------
  // Every step keeps the invariant
  // ---------------------------------------------------------------------------------

  /** Two running passes never share a place: they would share its lock. */
  lemma DistinctPlaces(hash: ShardHash, s: System, p: Pid, q: Pid)
    requires LockInv(hash, s) && p in s.procs && q in s.procs && p != q
    ensures JobPlace(s.procs[p].job) != JobPlace(s.procs[q].job)
  {
  }

  lemma OtherProc(t: Tables, t': Tables, job: Job, pc: Pc, broken: set<Slot>, broken': set<Slot>, place: Place)
    requires OnlyAt(t, t', place) && JobPlace(job) != place && PcInv(t, job, pc, broken)
    requires forall slot: Slot :: slot.place != place ==> (slot in broken <==> slot in broken')
    ensures PcInv(t', job, pc, broken')
  {
  }

  lemma MovedOwn(s: System, pid: Pid, a: Answers)
    requires TablesInv(s) && pid in s.procs && ProcInv(s, pid) && !Over(s.procs[pid].pc)
    ensures TablesInv(MoveAfter(s, pid, a)) && ProcInv(MoveAfter(s, pid, a), pid)
    ensures OnlyAt(s.tables, MoveAfter(s, pid, a).tables, JobPlace(s.procs[pid].job))
  {
    if s.procs[pid].pc.Claiming? {
      MoveClaiming(s, pid, a);
    } else {
      var op := s.procs[pid].pc.op;
      OwnStep(s, pid, a, op);
      if EditSound(s, MoveAfter(s, pid, a), op) {
        EditKeeps(s, MoveAfter(s, pid, a), op);
      } else {
        SameTables(s, MoveAfter(s, pid, a));
      }
    }
  }

  lemma OwnStep(s: System, pid: Pid, a: Answers, op: OperationId)
    requires TablesInv(s) && pid in s.procs && ProcInv(s, pid)
    requires !Over(s.procs[pid].pc) && !s.procs[pid].pc.Claiming? && s.procs[pid].pc.op == op
    ensures StepSound(s, pid, a, op)
  {
    assert ApplicationsInPlace(s.tables) by {
      forall p | p in s.tables.applications
        ensures s.tables.applications[p] in s.tables.attempts && s.tables.attempts[s.tables.applications[p]].place == p
      {
        assert ApplicationInv(s, p);
      }
    }
    assert Local(s, pid, op);
    match s.procs[pid].pc
    case Checking(_) => MoveChecking(s, pid, a, op);
    case Resolving(_) => MoveResolving(s, pid, a, op);
    case Previewed(_) => MovePreviewed(s, pid, a, op);
    case Applying(_) => MoveApplying(s, pid, a, op);
    case Verifying(_) => MoveVerifying(s, pid, a, op);
  }

  lemma MoveKeeps(hash: ShardHash, s: System, pid: Pid, a: Answers)
    requires Inv(hash, s) && pid in s.procs && !Over(s.procs[pid].pc)
    ensures Inv(hash, MoveAfter(s, pid, a))
  {
    var s' := MoveAfter(s, pid, a);
    MovedOwn(s, pid, a);
    forall q | q in s'.procs
      ensures ProcInv(s', q)
    {
      if q != pid {
        DistinctPlaces(hash, s, pid, q);
        OtherProc(s.tables, s'.tables, s.procs[q].job, s.procs[q].pc, s.broken, s'.broken, JobPlace(s.procs[pid].job));
      }
    }
    assert forall q :: q in s'.procs ==> q in s.procs && s'.procs[q].job == s.procs[q].job;
  }

  lemma JournalKeeps(hash: ShardHash, s: System, d: Desired, s': System)
    requires Inv(hash, s) && Step(hash, s, Journal(d), s')
    ensures Inv(hash, s')
  {
    forall op | op in s'.tables.attempts
      ensures AttemptInv(s', op) && HistoryInv(s', op)
    {
      assert AttemptInv(s, op) && HistoryInv(s, op);
    }
    forall slot
      ensures SlotInv(s', slot)
    {
      assert SlotInv(s, slot);
    }
    forall p | p in s'.tables.applications
      ensures ApplicationInv(s', p)
    {
      assert ApplicationInv(s, p);
    }
    forall p | p in s'.tables.resources
      ensures ResourceInv(s', p)
    {
      assert ResourceInv(s, p);
    }
    forall q | q in s'.procs
      ensures ProcInv(s', q)
    {
      assert ProcInv(s, q);
    }
  }

  lemma AcquireKeeps(hash: ShardHash, s: System, pid: Pid, job: Job, s': System)
    requires Inv(hash, s) && Step(hash, s, Acquire(pid, job), s')
    ensures Inv(hash, s')
  {
    SameTables(s, s');
    forall q | q in s'.procs
      ensures ProcInv(s', q)
    {
      if q != pid {
        assert ProcInv(s, q);
      }
    }
  }

  /** A slot whose apply is broken off satisfies the invariant as broken. */
  lemma BreakKeeps(s: System, s': System, pid: Pid)
    requires TablesInv(s) && pid in s.procs && ProcInv(s, pid) && InApply(s.procs[pid].pc)
    requires s'.journal == s.journal && s'.tables == s.tables
    requires s'.begun == s.begun && s'.completed == s.completed
    requires s'.broken == s.broken + {JobSlot(s.procs[pid].job)}
    ensures TablesInv(s')
  {
    var op := s.procs[pid].pc.op;
    var mine := JobSlot(s.procs[pid].job);
    forall o | o in s'.tables.attempts
      ensures AttemptInv(s', o) && HistoryInv(s', o)
    {
      assert AttemptInv(s, o) && HistoryInv(s, o);
    }
    forall slot
      ensures SlotInv(s', slot)
    {
      assert SlotInv(s, slot);
      assert Owns(s'.tables, op, mine.place, mine.generation);
    }
    forall p | p in s'.tables.applications
      ensures ApplicationInv(s', p)
    {
      assert ApplicationInv(s, p);
    }
    forall p | p in s'.tables.resources
      ensures ResourceInv(s', p)
    {
      assert ResourceInv(s, p);
    }
  }

  /** The other passes keep their locks, and rely on tables that stay. */
  lemma EndKeepsOthers(hash: ShardHash, s: System, pid: Pid, s': System)
    requires LockInv(hash, s) && pid in s.procs && (forall q :: q in s.procs ==> ProcInv(s, q))
    requires s'.(broken := s.broken) == Gone(s, hash, pid)
    requires s'.broken == if InApply(s.procs[pid].pc) then s.broken + {JobSlot(s.procs[pid].job)} else s.broken
    ensures LockInv(hash, s') && forall q :: q in s'.procs ==> ProcInv(s', q)
  {
    forall q | q in s'.procs
      ensures ProcInv(s', q)
    {
      DistinctPlaces(hash, s, pid, q);
      assert ProcInv(s, q);
    }
  }

  lemma EndKeeps(hash: ShardHash, s: System, pid: Pid, s': System)
    requires Inv(hash, s) && pid in s.procs
    requires s'.(broken := s.broken) == Gone(s, hash, pid)
    requires s'.broken == if InApply(s.procs[pid].pc) then s.broken + {JobSlot(s.procs[pid].job)} else s.broken
    ensures Inv(hash, s')
  {
    if InApply(s.procs[pid].pc) {
      BreakKeeps(s, s', pid);
    } else {
      SameTables(s, s');
    }
    EndKeepsOthers(hash, s, pid, s');
  }

  lemma StepKeeps(hash: ShardHash, s: System, e: Event, s': System)
    requires Inv(hash, s) && Step(hash, s, e, s')
    ensures Inv(hash, s')
  {
    match e
    case Journal(d) => JournalKeeps(hash, s, d, s');
    case Acquire(pid, job) => AcquireKeeps(hash, s, pid, job, s');
    case Move(pid, a) => MoveKeeps(hash, s, pid, a);
    case Release(pid) => EndKeeps(hash, s, pid, s');
    case Crash(pid) => EndKeeps(hash, s, pid, s');
  }
}
