/** Reconciling processes together with the operation ledger: over every run, each delivered event has
    at most one recorded outcome of each kind, and a replayed delivery that ends as applied or
    awaiting approval meets the outcome recorded the first time. */
module OutcomeRuns {
  import opened Basics
  import T = ReconcileTables
  import E = ReconcileEngine
  import Y = ReconcileSystem
  import V = ReconcileSafety
  import S = StoreTables
  import J = StoreJoin
  import R = StoreRuns
  import opened Processor

  // ---------------------------------------------------------------------------------
  // Operations keep what identifies them
  // ---------------------------------------------------------------------------------

  predicate SameIdentity(a: S.Operation, b: S.Operation) {
    a.key == b.key && a.producer == b.producer && a.kind == b.kind && a.correlation == b.correlation && a.intent == b.intent
  }

  /** The key that a step may add to the ledger. */
  function KeyOf(step: R.Step): Option<string> {
    match step
    case DoPrepare(q, _) => Some(q.key)
    case DoRecord(q, _, _, _, _, _) => Some(q.key)
    case _ => None
  }

  ghost predicate Fixed(s: S.Store, s': S.Store, added: Option<string>) {
    && (forall o :: o in s.operations ==> o in s'.operations && SameIdentity(s.operations[o], s'.operations[o]))
    && (forall k :: k in s.keys ==> k in s'.keys && s'.keys[k] == s.keys[k])
    && (forall k :: k in s'.keys && k !in s.keys ==> added == Some(k))
  }

  lemma RecordFixes(s: S.Store, step: R.Step, now: int)
    requires S.NonNegative(s.sequences) && S.KeysIndex(s.keys, s.operations) && step.DoRecord?
    ensures Fixed(s, R.StoreAfter(s, step, now), KeyOf(step))
  {
    var d := S.RecordDraft(step.request, step.subject, step.node, step.payload, step.causes, step.sound);
    R.EmitLeavesLedger(s, d, now);
  }

  lemma ResolveFixes(s: S.Store, step: R.Step, now: int)
    requires S.NonNegative(s.sequences) && S.KeysIndex(s.keys, s.operations) && step.DoResolve?
    ensures Fixed(s, R.StoreAfter(s, step, now), KeyOf(step))
  {
    if step.id in s.operations {
      var op := s.operations[step.id];
      R.EmitLeavesLedger(s, S.Draft(op.producer, step.subject, step.node, op.kind, op.intent, op.correlation, [], step.sound), now);
    }
  }

  lemma RepairFixes(s: S.Store, now: int)
    requires J.RowsInv(s) && S.Repair(s, now).Success?
    ensures Fixed(s, S.Repair(s, now).value.0, None)
  {
    R.RepairLedger(s, now);
  }

  lemma PreparingFixes(s: S.Store, step: R.Step, now: int)
    requires S.NonNegative(s.sequences) && S.KeysIndex(s.keys, s.operations) && (step.DoPrepare? || step.DoMark?)
    ensures Fixed(s, R.StoreAfter(s, step, now), KeyOf(step))
  {
    if step.DoPrepare? {
      var q := step.request;
      if q.key !in s.keys && q.id !in s.operations {
        RegisteringFixes(s, q, S.Operation(q.key, q.producer, q.kind, q.correlation, S.Prepared, step.intent, None, None));
      }
    }
  }

  lemma RegisteringFixes(s: S.Store, q: S.Request, op: S.Operation)
    requires q.key !in s.keys && q.id !in s.operations
    ensures Fixed(s, S.Registered(s, q, op), Some(q.key))
  {
  }

  lemma StepFixes(s: S.Store, step: R.Step, now: int)
    requires J.RowsInv(s) && S.KeysIndex(s.keys, s.operations)
    ensures Fixed(s, R.StoreAfter(s, step, now), KeyOf(step))
  {
    if step.DoRecord? {
      RecordFixes(s, step, now);
    } else if step.DoResolve? {
      ResolveFixes(s, step, now);
    } else if step.DoRepair? {
      if S.Repair(s, now).Success? {
        RepairFixes(s, now);
      }
    } else if step.DoPrepare? || step.DoMark? {
      PreparingFixes(s, step, now);
    } else {
      R.OthersLeaveLedger(s, step, now);
    }
  }

  // ---------------------------------------------------------------------------------
  // The whole
  // ---------------------------------------------------------------------------------

  /** `known` are the operations of the deliveries that the processor handles; their hash texts do not
      collide. */
  datatype Setting = Setting(hash: Y.ShardHash, names: Names, producer: string, known: set<T.OperationId>)

  ghost predicate NoCollision(c: Setting) {
    Apart(c.names, c.known, {})
  }

  /** The operation of a delivery to the node of a job. */
  function OwnOf(job: E.Job): T.OperationId {
    T.OperationId(job.node, job.desired.eventId)
  }

  /** An outcome that a process has in hand after its pass. */
  datatype Due = Due(job: E.Job, outcome: E.Outcome)

  datatype Whole = Whole(system: Y.System, world: R.World, due: set<Due>)

  datatype Deed =
    | Reconcile(event: Y.Event)
    | Record(due: Due, sound: bool, now: int)
    | Use(step: R.Step, now: int)

  function DueOf(proc: Y.Proc): set<Due> {
    match Returned(proc.job, proc.pc)
    case Some(result) => if result.outcome.Some? then {Due(proc.job, result.outcome.value)} else {}
    case None => {}
  }

  /** Idempotency keys that only the processor uses. */
  predicate Reserved(key: string) {
    "outcome:" <= key
  }

  ghost predicate Done(c: Setting, w: Whole, deed: Deed, w': Whole) {
    match deed
    case Reconcile(e) =>
      && Y.Step(c.hash, w.system, e, w'.system) && w'.world == w.world
      && w'.due == w.due + if e.Release? then DueOf(w.system.procs[e.pid]) else {}
    case Record(due, sound, now) =>
      && due in w.due && OwnOf(due.job) in c.known
      && w' == w.(world := R.Next(w.world, OutcomeStep(c.names, c.producer, due.job, due.outcome, sound), now))
    case Use(step, now) =>
      && (KeyOf(step).Some? ==> !Reserved(KeyOf(step).value))
      && w' == w.(world := R.Next(w.world, step, now))
  }

  ghost predicate Run(c: Setting, wholes: seq<Whole>, deeds: seq<Deed>) {
    && |wholes| == |deeds| + 1 && NoCollision(c)
    && Y.Init(wholes[0].system) && wholes[0].world == R.World(S.Empty(), {}, {}) && wholes[0].due == {}
    && forall i :: 0 <= i < |deeds| ==> Done(c, wholes[i], deeds[i], wholes[i + 1])
  }

  // ---------------------------------------------------------------------------------
  // The invariant
  // ---------------------------------------------------------------------------------

  /** The kinds whose payload says nothing about an error. */
  predicate Settled(kind: E.OutcomeKind) {
    !kind.ReconcileFailed?
  }

  ghost predicate Journaled(s: Y.System, job: E.Job) {
    job.desired.eventId in s.journal && s.journal[job.desired.eventId] == job.desired
  }

  ghost predicate OwnsSlot(s: Y.System, op: T.OperationId, job: E.Job) {
    T.Owns(s.tables, op, Y.JobPlace(job), job.desired.generation)
  }

  /** A settled outcome is determined by the attempt that owns the generation. */
  ghost predicate OutcomeInv(s: Y.System, job: E.Job, outcome: E.Outcome) {
    && Journaled(s, job)
    && (Settled(outcome.kind) ==>
          OwnsSlot(s, outcome.payload.op, job) && outcome.payload == E.PayloadFor(job, outcome.payload.op, None))
  }

  ghost predicate PassInv(s: Y.System, proc: Y.Proc) {
    proc.pc.Finished? && proc.pc.result.outcome.Some? ==> OutcomeInv(s, proc.job, proc.pc.result.outcome.value)
  }

  function Intent(names: Names, job: E.Job, payload: E.Payload): S.Json {
    S.RecordIntent(job.node, Encode(names, payload), [job.desired.eventId])
  }

  /** The ledger row for an outcome of `job`, as `owner` determines it. */
  ghost predicate RecordedFor(c: Setting, s: Y.System, store: S.Store, job: E.Job, kind: E.OutcomeKind, owner: T.OperationId) {
    var q := OutcomeRequest(c.names, c.producer, job, kind);
    && OwnsSlot(s, owner, job) && S.GoodRequest(q) && S.GoodName(job.node)
    && q.key in store.keys && store.keys[q.key] in store.operations
    && S.SameRequest(store, q, Intent(c.names, job, E.PayloadFor(job, owner, None)))
  }

  ghost predicate LedgerInv(c: Setting, s: Y.System, store: S.Store, delivered: T.OperationId, kind: E.OutcomeKind) {
    Settled(kind) && OutcomeKey(c.names, delivered, kind) in store.keys ==>
      && delivered.eventId in s.journal
      && exists owner :: RecordedFor(c, s, store, E.Job(delivered.node, s.journal[delivered.eventId]), kind, owner)
  }

  ghost predicate Inv(c: Setting, w: Whole) {
    && NoCollision(c) && Y.Inv(c.hash, w.system) && R.Inv(w.world)
    && (forall due :: due in w.due ==> OutcomeInv(w.system, due.job, due.outcome))
    && (forall pid :: pid in w.system.procs ==> PassInv(w.system, w.system.procs[pid]))
    && (forall delivered, kind :: delivered in c.known ==> LedgerInv(c, w.system, w.world.store, delivered, kind))
  }

  // ---------------------------------------------------------------------------------
  // Steps of the reconciling processes
  // ---------------------------------------------------------------------------------

  /** Journal entries and owners of generations stay. */
  ghost predicate Grows(s: Y.System, s': Y.System) {
    && (forall id :: id in s.journal ==> id in s'.journal && s'.journal[id] == s.journal[id])
    && (forall op :: op in s.tables.attempts ==>
          op in s'.tables.attempts && s'.tables.attempts[op].place == s.tables.attempts[op].place
          && s'.tables.attempts[op].generation == s.tables.attempts[op].generation)
  }

  lemma StepGrows(hash: Y.ShardHash, s: Y.System, e: Y.Event, s': Y.System)
    requires Y.Inv(hash, s) && Y.Step(hash, s, e, s')
    ensures Grows(s, s')
  {
    forall op | op in s.tables.attempts
      ensures op in s'.tables.attempts && s'.tables.attempts[op].place == s.tables.attempts[op].place
      ensures s'.tables.attempts[op].generation == s.tables.attempts[op].generation
    {
      V.AttemptsStay(hash, s, e, s', op);
    }
  }

  /** A pass that ends settled ends with the owner of its generation. */
  lemma NextSettles(t: T.Tables, job: E.Job, pc: E.Pc, a: E.Answers, broken: set<Y.Slot>)
    requires Y.PcInv(t, job, pc, broken) && !E.Over(pc)
    requires var pc' := E.Next(t, job, pc, a).1;
      pc'.Finished? && pc'.result.outcome.Some? && Settled(pc'.result.outcome.value.kind)
    ensures var (t', pc') := E.Next(t, job, pc, a);
      var payload := pc'.result.outcome.value.payload;
      payload == E.PayloadFor(job, payload.op, None) && T.Owns(t', payload.op, Y.JobPlace(job), job.desired.generation)
  {
  }

  lemma MovedPass(hash: Y.ShardHash, s: Y.System, pid: Y.Pid, a: E.Answers)
    requires Y.Inv(hash, s) && pid in s.procs && !E.Over(s.procs[pid].pc)
    ensures PassInv(Y.MoveAfter(s, pid, a), Y.MoveAfter(s, pid, a).procs[pid])
  {
    var job, pc := s.procs[pid].job, s.procs[pid].pc;
    assert Y.ProcInv(s, pid);
    var pc' := E.Next(s.tables, job, pc, a).1;
    if pc'.Finished? && pc'.result.outcome.Some? && Settled(pc'.result.outcome.value.kind) {
      NextSettles(s.tables, job, pc, a, s.broken);
    }
  }

  lemma OutcomeStays(s: Y.System, s': Y.System, job: E.Job, outcome: E.Outcome)
    requires OutcomeInv(s, job, outcome) && Grows(s, s')
    ensures OutcomeInv(s', job, outcome)
  {
  }

  lemma LedgerStays(c: Setting, s: Y.System, s': Y.System, store: S.Store, delivered: T.OperationId, kind: E.OutcomeKind)
    requires LedgerInv(c, s, store, delivered, kind) && Grows(s, s')
    ensures LedgerInv(c, s', store, delivered, kind)
  {
    if Settled(kind) && OutcomeKey(c.names, delivered, kind) in store.keys {
      var job := E.Job(delivered.node, s.journal[delivered.eventId]);
      var owner :| RecordedFor(c, s, store, job, kind, owner);
      assert RecordedFor(c, s', store, job, kind, owner);
    }
  }

  lemma PassesStay(hash: Y.ShardHash, s: Y.System, e: Y.Event, s': Y.System, pid: Y.Pid)
    requires Y.Inv(hash, s) && Y.Step(hash, s, e, s') && Grows(s, s') && pid in s'.procs
    requires pid in s.procs ==> PassInv(s, s.procs[pid])
    ensures PassInv(s', s'.procs[pid])
  {
    if e.Move? && e.pid == pid {
      MovedPass(hash, s, pid, e.answers);
    } else if pid in s.procs && s.procs[pid].pc.Finished? && s.procs[pid].pc.result.outcome.Some? {
      OutcomeStays(s, s', s.procs[pid].job, s.procs[pid].pc.result.outcome.value);
    }
  }

  lemma ReleasedIsDue(hash: Y.ShardHash, s: Y.System, pid: Y.Pid, due: Due)
    requires Y.Inv(hash, s) && pid in s.procs && PassInv(s, s.procs[pid]) && due in DueOf(s.procs[pid])
    ensures OutcomeInv(s, due.job, due.outcome)
  {
    assert Y.ProcInv(s, pid);
  }

  lemma ReconcileKeeps(c: Setting, w: Whole, e: Y.Event, w': Whole)
    requires Inv(c, w) && Done(c, w, Reconcile(e), w')
    ensures Inv(c, w')
  {
    Y.StepKeeps(c.hash, w.system, e, w'.system);
    StepGrows(c.hash, w.system, e, w'.system);
    forall due | due in w'.due
      ensures OutcomeInv(w'.system, due.job, due.outcome)
    {
      if due !in w.due {
        ReleasedIsDue(c.hash, w.system, e.pid, due);
      }
      OutcomeStays(w.system, w'.system, due.job, due.outcome);
    }
    forall pid | pid in w'.system.procs
      ensures PassInv(w'.system, w'.system.procs[pid])
    {
      PassesStay(c.hash, w.system, e, w'.system, pid);
    }
    forall delivered, kind | delivered in c.known
      ensures LedgerInv(c, w'.system, w'.world.store, delivered, kind)
    {
      LedgerStays(c, w.system, w'.system, w.world.store, delivered, kind);
    }
  }

  // ---------------------------------------------------------------------------------
  // Steps of the store
  // ---------------------------------------------------------------------------------

  /** A key that a step does not add keeps its link. */
  lemma LedgerKept(c: Setting, s: Y.System, store: S.Store, store': S.Store, added: Option<string>,
                   delivered: T.OperationId, kind: E.OutcomeKind)
    requires S.KeysIndex(store.keys, store.operations)
    requires LedgerInv(c, s, store, delivered, kind) && Fixed(store, store', added)
    requires OutcomeKey(c.names, delivered, kind) in store.keys || added != Some(OutcomeKey(c.names, delivered, kind))
    ensures LedgerInv(c, s, store', delivered, kind)
  {
    if Settled(kind) && OutcomeKey(c.names, delivered, kind) in store'.keys {
      var job := E.Job(delivered.node, s.journal[delivered.eventId]);
      var owner :| RecordedFor(c, s, store, job, kind, owner);
      assert SameIdentity(store.operations[store.keys[OutcomeKey(c.names, delivered, kind)]],
                          store'.operations[store'.keys[OutcomeKey(c.names, delivered, kind)]]);
      assert RecordedFor(c, s, store', job, kind, owner);
    }
  }

  lemma OutcomeKeysAreReserved(names: Names, delivered: T.OperationId, kind: E.OutcomeKind)
    ensures Reserved(OutcomeKey(names, delivered, kind))
  {
    var key := OutcomeKey(names, delivered, kind);
    assert key[..8] == "outcome:";
  }

  lemma UseKeeps(c: Setting, w: Whole, step: R.Step, now: int, w': Whole)
    requires Inv(c, w) && Done(c, w, Use(step, now), w')
    ensures Inv(c, w')
  {
    R.StepKeepsInv(w.world, step, now);
    StepFixes(w.world.store, step, now);
    forall delivered, kind | delivered in c.known
      ensures LedgerInv(c, w'.system, w'.world.store, delivered, kind)
    {
      OutcomeKeysAreReserved(c.names, delivered, kind);
      LedgerKept(c, w.system, w.world.store, w'.world.store, KeyOf(step), delivered, kind);
    }
  }

  /** A request that is new leaves its row behind. */
  lemma RecordedNow(s: S.Store, step: R.Step, now: int)
    requires S.KeysIndex(s.keys, s.operations) && S.NonNegative(s.sequences)
    requires step.DoRecord? && step.request.key !in s.keys && step.request.key in R.StoreAfter(s, step, now).keys
    ensures var s' := R.StoreAfter(s, step, now);
      && s'.keys[step.request.key] in s'.operations
      && S.SameRequest(s', step.request, S.RecordIntent(step.node, step.payload, step.causes))
      && S.GoodRequest(step.request) && S.GoodName(step.node)
  {
    var d := S.RecordDraft(step.request, step.subject, step.node, step.payload, step.causes, step.sound);
    R.EmitLeavesLedger(s, d, now);
  }

  /** Recording an outcome links its own key, and leaves the others. */
  lemma RecordLinks(c: Setting, w: Whole, due: Due, sound: bool, now: int, delivered: T.OperationId, kind: E.OutcomeKind)
    requires NoCollision(c) && R.Inv(w.world) && OutcomeInv(w.system, due.job, due.outcome)
    requires delivered in c.known && OwnOf(due.job) in c.known
    requires LedgerInv(c, w.system, w.world.store, delivered, kind)
    ensures LedgerInv(c, w.system, R.Next(w.world, OutcomeStep(c.names, c.producer, due.job, due.outcome, sound), now).store,
              delivered, kind)
  {
    var step := OutcomeStep(c.names, c.producer, due.job, due.outcome, sound);
    var s, s' := w.world.store, R.StoreAfter(w.world.store, step, now);
    StepFixes(s, step, now);
    var key := OutcomeKey(c.names, delivered, kind);
    if key in s.keys || KeyOf(step) != Some(key) {
      LedgerKept(c, w.system, s, s', KeyOf(step), delivered, kind);
    } else if Settled(kind) && key in s'.keys {
      OutcomeKeyInjective(c.names, c.known, delivered, kind, OwnOf(due.job), due.outcome.kind);
      RecordedNow(s, step, now);
      assert RecordedFor(c, w.system, s', due.job, kind, due.outcome.payload.op);
    }
  }

  lemma RecordKeeps(c: Setting, w: Whole, due: Due, sound: bool, now: int, w': Whole)
    requires Inv(c, w) && Done(c, w, Record(due, sound, now), w')
    ensures Inv(c, w')
  {
    R.StepKeepsInv(w.world, OutcomeStep(c.names, c.producer, due.job, due.outcome, sound), now);
    forall delivered, kind | delivered in c.known
      ensures LedgerInv(c, w'.system, w'.world.store, delivered, kind)
    {
      RecordLinks(c, w, due, sound, now, delivered, kind);
    }
  }

  lemma InitiallyInv(c: Setting, w: Whole)
    requires NoCollision(c) && Y.Init(w.system) && w.world == R.World(S.Empty(), {}, {}) && w.due == {}
    ensures Inv(c, w)
  {
  }

  lemma {:induction false} RunKeepsInv(c: Setting, wholes: seq<Whole>, deeds: seq<Deed>, i: nat)
    requires Run(c, wholes, deeds) && i < |wholes|
    ensures Inv(c, wholes[i])
    decreases i
  {
    if i == 0 {
      InitiallyInv(c, wholes[0]);
    } else {
      RunKeepsInv(c, wholes, deeds, i - 1);
      match deeds[i - 1]
      case Reconcile(e) => ReconcileKeeps(c, wholes[i - 1], e, wholes[i]);
      case Record(due, sound, now) => RecordKeeps(c, wholes[i - 1], due, sound, now, wholes[i]);
      case Use(step, now) => UseKeeps(c, wholes[i - 1], step, now, wholes[i]);
    }
  }

  // ---------------------------------------------------------------------------------
  // Outcomes
  // ---------------------------------------------------------------------------------

  /** Each delivered event and outcome kind yields at most one outcome event, and no event is the
      outcome of two of them. */
  lemma OneOutcomeEach(c: Setting, wholes: seq<Whole>, deeds: seq<Deed>, i: nat, x: T.OperationId, j: E.OutcomeKind,
                       y: T.OperationId, k: E.OutcomeKind, a: string, b: string)
    requires Run(c, wholes, deeds) && i < |wholes| && x in c.known && y in c.known
    requires R.Emission(OutcomeKey(c.names, x, j), a) in wholes[i].world.emitted
    requires R.Emission(OutcomeKey(c.names, y, k), b) in wholes[i].world.emitted
    ensures a == b <==> x == y && j == k
  {
    RunKeepsInv(c, wholes, deeds, i);
    R.KeysNameEvents(wholes[i].world, R.Emission(OutcomeKey(c.names, x, j), a), R.Emission(OutcomeKey(c.names, y, k), b));
    if a == b {
      OutcomeKeyInjective(c.names, c.known, x, j, y, k);
    }
  }

  /** The recorded row fits the outcome in hand: both come from the owner of the generation. */
  lemma ReplayFits(c: Setting, w: Whole, due: Due)
    requires Inv(c, w) && due in w.due && OwnOf(due.job) in c.known && Settled(due.outcome.kind)
    requires OutcomeRequest(c.names, c.producer, due.job, due.outcome.kind).key in w.world.store.keys
    ensures S.SameRequest(w.world.store, OutcomeRequest(c.names, c.producer, due.job, due.outcome.kind),
              Intent(c.names, due.job, due.outcome.payload))
    ensures S.GoodRequest(OutcomeRequest(c.names, c.producer, due.job, due.outcome.kind)) && S.GoodName(due.job.node)
  {
    var delivered := OwnOf(due.job);
    assert OutcomeInv(w.system, due.job, due.outcome);
    assert LedgerInv(c, w.system, w.world.store, delivered, due.outcome.kind);
    var job := E.Job(delivered.node, w.system.journal[delivered.eventId]);
    assert job == due.job;
    var owner :| RecordedFor(c, w.system, w.world.store, job, due.outcome.kind, owner);
    assert owner == due.outcome.payload.op;
  }

  /** What repeating a recorded request comes to. */
  ghost predicate Replayed(store: S.Store, op: S.Operation, r: Result<(S.Store, S.Event, bool), S.StoreError>) {
    if op.state.Recorded? then
      && op.eventId.Some? && op.eventId.value in store.events
      && var row := store.events[op.eventId.value];
         && (row.damaged.None? ==> r == Success((store, row.event, true)))
         && (row.damaged.Some? ==>
               match row.damaged.value.parsed
               case None => r == Failure(S.Unreadable)
               case Some(e) => r == Success((store, e, true)))
         && (r == Success((store, row.event, true)) <==> row.damaged.None? || row.damaged.value.parsed == Some(row.event))
    else r == Failure(S.KeyCollision)
  }

  /** Replaying a delivery whose pass ends as applied or awaiting approval, when that outcome was
      recorded before. No replay is refused for a different payload, and the store does not change: if
      the operation is still RECORDED, what its stored text parses to comes back, which is the stored
      event if and only if the text is intact or still parses to it; a text that does not parse is an
      error; an operation whose event was quarantined is refused. */
  lemma ReplayReturnsStored(c: Setting, wholes: seq<Whole>, deeds: seq<Deed>, i: nat, due: Due, sound: bool, now: int)
    requires Run(c, wholes, deeds) && i < |wholes| && due in wholes[i].due && Settled(due.outcome.kind)
    requires OwnOf(due.job) in c.known
    requires OutcomeRequest(c.names, c.producer, due.job, due.outcome.kind).key in wholes[i].world.store.keys
    ensures R.Inv(wholes[i].world)
    ensures var store := wholes[i].world.store;
      var q := OutcomeRequest(c.names, c.producer, due.job, due.outcome.kind);
      q.id in store.operations
      && Replayed(store, store.operations[q.id],
           S.Record(store, q, OutcomeDraft(c.names, c.producer, due.job, due.outcome, sound), now))
  {
    RunKeepsInv(c, wholes, deeds, i);
    var w := wholes[i];
    ReplayFits(c, w, due);
    R.RecordIsIdempotent(w.world, OutcomeRequest(c.names, c.producer, due.job, due.outcome.kind),
      OutcomeDraft(c.names, c.producer, due.job, due.outcome, sound), now);
  }

  /** A failed outcome is another matter: its payload carries an error text. With an outcome of the same
      delivery and kind recorded, a payload with another text is refused, whatever the state of its
      operation; with the same payload the replay is that of a settled outcome. */
  lemma FailureReplaysOnSameText(c: Setting, w: R.World, job: E.Job, kind: E.OutcomeKind, p: E.Payload, q: E.Payload, sound: bool, now: int)
    requires R.Inv(w) && S.GoodName(job.node)
    requires var request := OutcomeRequest(c.names, c.producer, job, kind);
      && S.GoodRequest(request)
      && request.key in w.store.keys && S.SameRequest(w.store, request, Intent(c.names, job, p))
    ensures var request := OutcomeRequest(c.names, c.producer, job, kind);
      var r := S.Record(w.store, request, OutcomeDraft(c.names, c.producer, job, E.Outcome(kind, q), sound), now);
      && (q.error != p.error ==> r == Failure(S.KeyCollision))
      && (q == p ==> Replayed(w.store, w.store.operations[request.id], r))
  {
    if Encode(c.names, p) == Encode(c.names, q) {
      EncodesError(c.names, p, q);
    }
    if q == p {
      R.RecordIsIdempotent(w, OutcomeRequest(c.names, c.producer, job, kind),
        OutcomeDraft(c.names, c.producer, job, E.Outcome(kind, q), sound), now);
    }
  }

  // ---------------------------------------------------------------------------------
  // A failure is not replayed
  // ---------------------------------------------------------------------------------

  /** The texts of a pass that fails at its work. */
  predicate WorkError(error: Option<string>) {
    error in {Some(E.RESOLUTION_FAILED), Some(E.REVISION_MISMATCH), Some(E.DIGEST_MISMATCH), Some("adapter preview failed"),
              Some("adapter apply result is indeterminate"), Some("adapter verification failed"),
              Some("adapter verification and rollback failed")}
  }

  /** The texts of a pass that does not get to work. */
  predicate ClaimError(error: Option<string>) {
    error in {Some("reconciliation is failed"), Some("reconciliation is indeterminate"), Some(REJECTED)}
  }

  lemma ErrorsDiffer(one: Option<string>, other: Option<string>)
    requires WorkError(one) && ClaimError(other)
    ensures one != other
  {
    assert one.value[0] == 'a' && other.value[0] != 'a';
  }

  predicate Final(state: T.AttemptState) {
    state.Failed? || state.Indeterminate?
  }

  /** A pass beyond its claim and its check of an applied generation. */
  predicate AtWork(pc: E.Pc) {
    pc.Resolving? || pc.Applying? || pc.Verifying?
  }

  /** A pass that fails at its work leaves its attempt final. */
  lemma WorkFails(t: T.Tables, job: E.Job, pc: E.Pc, a: E.Answers, broken: set<Y.Slot>)
    requires Y.PcInv(t, job, pc, broken) && AtWork(pc)
    requires var pc' := E.Next(t, job, pc, a).1;
      pc'.Finished? && pc'.result.outcome.Some? && pc'.result.outcome.value.kind.ReconcileFailed?
    ensures var (t', pc') := E.Next(t, job, pc, a);
      && T.Owns(t', pc.op, Y.JobPlace(job), job.desired.generation) && Final(t'.attempts[pc.op].state)
      && WorkError(pc'.result.outcome.value.payload.error)
  {
  }

  /** What a pass whose generation has a final attempt can come to: superseded, or failed with a text of
      its claim. */
  ghost predicate EndsAtClaim(job: E.Job, end: E.Pc) {
    var result := Returned(job, end);
    && result.Some?
    && match result.value.outcome
       case None => result.value.state == E.PassSuperseded
       case Some(outcome) => outcome.kind == E.ReconcileFailed && ClaimError(outcome.payload.error)
  }

  lemma AdmitFinal(u: Y.System, job: E.Job, op: T.OperationId)
    requires Y.TablesInv(u) && Journaled(u, job) && OwnsSlot(u, op, job) && Final(u.tables.attempts[op].state)
    ensures match T.Admit(u.tables, Y.JobPlace(job), OwnOf(job), job.desired)
            case Failure(e) => e == T.AppliedGenerationConflict || e == T.GenerationReused
            case Success((t', r)) => EndsAtClaim(job, E.AfterClaim(job, r))
  {
    T.OwnerIs(u.tables, op, Y.JobPlace(job), job.desired.generation);
    if OwnOf(job) in u.tables.attempts {
      assert Y.AttemptInv(u, OwnOf(job));
    }
  }

  lemma ClaimFinal(s: Y.System, job: E.Job, op: T.OperationId, a: E.Answers)
    requires Y.TablesInv(s) && Journaled(s, job) && OwnsSlot(s, op, job) && Final(s.tables.attempts[op].state)
    ensures EndsAtClaim(job, E.RunPass(s.tables, job, E.Claiming, a).1)
  {
    ClaimEnds(s, job, op);
    ClaimIsOver(s.tables, job, a);
  }

  lemma ClaimEnds(s: Y.System, job: E.Job, op: T.OperationId)
    requires Y.TablesInv(s) && Journaled(s, job) && OwnsSlot(s, op, job) && Final(s.tables.attempts[op].state)
    ensures EndsAtClaim(job, E.ClaimStep(s.tables, job).1) && E.Over(E.ClaimStep(s.tables, job).1)
  {
    SweepLeavesFinal(s, job, op);
    AdmitFinal(Y.Swept(s, Y.JobPlace(job)), job, op);
    Y.ClaimSplits(s, job);
  }

  /** A pass that its claim ends goes no further. */
  lemma ClaimIsOver(t: T.Tables, job: E.Job, a: E.Answers)
    ensures E.Over(E.ClaimStep(t, job).1) ==> E.RunPass(t, job, E.Claiming, a) == E.ClaimStep(t, job)
  {
    E.Unroll(t, job, E.Claiming, a);
  }

  lemma SweepLeavesFinal(s: Y.System, job: E.Job, op: T.OperationId)
    requires Y.TablesInv(s) && Journaled(s, job) && OwnsSlot(s, op, job) && Final(s.tables.attempts[op].state)
    ensures var u := Y.Swept(s, Y.JobPlace(job));
      Y.TablesInv(u) && Journaled(u, job) && OwnsSlot(u, op, job) && Final(u.tables.attempts[op].state)
  {
    Y.SweepKeeps(s, Y.JobPlace(job));
    if Y.JobPlace(job) in s.tables.applications {
      assert Y.ApplicationInv(s, Y.JobPlace(job));
    }
  }

  /** The attempt of a journaled job's generation is FAILED or INDETERMINATE. */
  ghost predicate FinalAt(s: Y.System, job: E.Job, op: T.OperationId) {
    Journaled(s, job) && OwnsSlot(s, op, job) && Final(s.tables.attempts[op].state)
  }

  lemma FinalStaysOnce(c: Setting, w: Whole, deed: Deed, w': Whole, job: E.Job, op: T.OperationId)
    requires Y.Inv(c.hash, w.system) && Done(c, w, deed, w') && FinalAt(w.system, job, op)
    ensures FinalAt(w'.system, job, op)
  {
    if deed.Reconcile? {
      StepGrows(c.hash, w.system, deed.event, w'.system);
      V.AttemptsStay(c.hash, w.system, deed.event, w'.system, op);
    }
  }

  lemma FinalStaysAt(c: Setting, wholes: seq<Whole>, deeds: seq<Deed>, i: nat, job: E.Job, op: T.OperationId)
    requires Run(c, wholes, deeds) && i < |deeds| && FinalAt(wholes[i].system, job, op)
    ensures FinalAt(wholes[i + 1].system, job, op)
  {
    RunKeepsInv(c, wholes, deeds, i);
    FinalStaysOnce(c, wholes[i], deeds[i], wholes[i + 1], job, op);
  }

  lemma {:induction false} FinalStays(c: Setting, wholes: seq<Whole>, deeds: seq<Deed>, i: nat, j: nat, job: E.Job, op: T.OperationId)
    requires Run(c, wholes, deeds) && i <= j < |wholes| && FinalAt(wholes[i].system, job, op)
    ensures FinalAt(wholes[j].system, job, op)
    decreases j
  {
    if i == j {
    } else {
      FinalStays(c, wholes, deeds, i, j - 1, job, op);
      FinalStaysAt(c, wholes, deeds, j - 1, job, op);
    }
  }

  /** A request has its row in the ledger. */
  ghost predicate HasRow(store: S.Store, q: S.Request, intent: S.Json) {
    q.key in store.keys && store.keys[q.key] in store.operations && S.SameRequest(store, q, intent)
  }

  lemma {:induction false} RowsStay(c: Setting, wholes: seq<Whole>, deeds: seq<Deed>, i: nat, j: nat, q: S.Request, intent: S.Json)
    requires Run(c, wholes, deeds) && i <= j < |wholes| && HasRow(wholes[i].world.store, q, intent)
    ensures HasRow(wholes[j].world.store, q, intent)
    decreases j
  {
    if i == j {
    } else {
      RowsStay(c, wholes, deeds, i, j - 1, q, intent);
      RunKeepsInv(c, wholes, deeds, j - 1);
      var w := wholes[j - 1];
      assert Done(c, w, deeds[j - 1], wholes[j]);
      match deeds[j - 1]
      case Reconcile(_) =>
      case Record(due, sound, now) =>
        StepFixes(w.world.store, OutcomeStep(c.names, c.producer, due.job, due.outcome, sound), now);
      case Use(step, now) => StepFixes(w.world.store, step, now);
    }
  }

  /** A request that was accepted has its row, and was well formed. */
  lemma AcceptedHasRow(s: S.Store, q: S.Request, d: S.Draft, now: int)
    requires R.Enforced(s) && d.producer == q.producer && d.kind == q.kind && d.correlation == q.correlation
    requires S.Record(s, q, d, now).Success?
    ensures HasRow(S.Record(s, q, d, now).value.0, q, S.RecordIntent(d.node, d.payload, d.causes))
    ensures S.GoodRequest(q) && S.GoodName(d.node)
  {
    R.EmitLeavesLedger(s, d, now);
  }

  ghost predicate FailsAtWork(t: T.Tables, proc: Y.Proc, a: E.Answers, job: E.Job, outcome: E.Outcome) {
    var after := E.Next(t, proc.job, proc.pc, a).1;
    && proc.job == job && AtWork(proc.pc)
    && after.Finished? && after.result.outcome == Some(outcome) && outcome.kind.ReconcileFailed?
  }

  /** The deeds of a failure: at `i` the pass of `pid` fails at its work, and at `k` its outcome is accepted. */
  ghost predicate FailureRecorded(c: Setting, wholes: seq<Whole>, deeds: seq<Deed>, i: nat, k: nat, job: E.Job, outcome: E.Outcome) {
    && i < k < |deeds| < |wholes| && deeds[i].Reconcile? && deeds[i].event.Move? && deeds[i].event.pid in wholes[i].system.procs
    && FailsAtWork(wholes[i].system.tables, wholes[i].system.procs[deeds[i].event.pid], deeds[i].event.answers, job, outcome)
    && deeds[k].Record? && deeds[k].due == Due(job, outcome)
    && Accepts(c, wholes[k].world.store, job, outcome, deeds[k].sound, deeds[k].now)
  }

  /** The ledger accepts the outcome, on tables in order. */
  ghost predicate Accepts(c: Setting, store: S.Store, job: E.Job, outcome: E.Outcome, sound: bool, now: int) {
    R.Enforced(store) ==>
      S.Record(store, OutcomeRequest(c.names, c.producer, job, outcome.kind),
        OutcomeDraft(c.names, c.producer, job, outcome, sound), now).Success?
  }

  lemma FailureLeaves(c: Setting, wholes: seq<Whole>, deeds: seq<Deed>, i: nat, k: nat, job: E.Job, outcome: E.Outcome) returns (op: T.OperationId)
    requires Run(c, wholes, deeds) && FailureRecorded(c, wholes, deeds, i, k, job, outcome)
    ensures Journaled(wholes[i + 1].system, job) && OwnsSlot(wholes[i + 1].system, op, job)
    ensures Final(wholes[i + 1].system.tables.attempts[op].state) && WorkError(outcome.payload.error)
  {
    RunKeepsInv(c, wholes, deeds, i);
    assert Done(c, wholes[i], deeds[i], wholes[i + 1]);
    var s, pid, a := wholes[i].system, deeds[i].event.pid, deeds[i].event.answers;
    assert Y.ProcInv(s, pid);
    op := s.procs[pid].pc.op;
    WorkFails(s.tables, job, s.procs[pid].pc, a, s.broken);
    assert wholes[i + 1].system == Y.MoveAfter(s, pid, a);
  }

  lemma TablesInOrder(c: Setting, wholes: seq<Whole>, deeds: seq<Deed>, k: nat)
    requires Run(c, wholes, deeds) && k < |wholes|
    ensures R.Enforced(wholes[k].world.store)
  {
    RunKeepsInv(c, wholes, deeds, k);
  }

  lemma FailureHasRow(c: Setting, wholes: seq<Whole>, deeds: seq<Deed>, i: nat, k: nat, job: E.Job, outcome: E.Outcome)
    requires Run(c, wholes, deeds) && FailureRecorded(c, wholes, deeds, i, k, job, outcome)
    ensures var q := OutcomeRequest(c.names, c.producer, job, outcome.kind);
      HasRow(wholes[k + 1].world.store, q, Intent(c.names, job, outcome.payload)) && S.GoodRequest(q) && S.GoodName(job.node)
  {
    TablesInOrder(c, wholes, deeds, k);
    assert Done(c, wholes[k], deeds[k], wholes[k + 1]);
    AcceptedHasRow(wholes[k].world.store, OutcomeRequest(c.names, c.producer, job, outcome.kind),
      OutcomeDraft(c.names, c.producer, job, outcome, deeds[k].sound), deeds[k].now);
  }

  /** Once a pass failed at its work and its outcome was accepted, every later pass for the same delivery,
      whatever the host answers, is superseded, or ends with a `reconcile.failed` outcome whose text
      differs; and the ledger refuses that outcome as a key collision. */
  lemma SecondFailureCollides(c: Setting, wholes: seq<Whole>, deeds: seq<Deed>, i: nat, k: nat, j: nat, job: E.Job,
                              first: E.Outcome, a: E.Answers, sound: bool, now: int)
    requires Run(c, wholes, deeds) && FailureRecorded(c, wholes, deeds, i, k, job, first) && k < j < |wholes|
    ensures R.Inv(wholes[j].world)
    ensures var store := wholes[j].world.store;
      var result := Returned(job, E.RunPass(wholes[j].system.tables, job, E.Claiming, a).1);
      && result.Some?
      && match result.value.outcome
         case None => result.value.state == E.PassSuperseded
         case Some(second) =>
           && second.kind == first.kind && second.payload.error != first.payload.error
           && S.Record(store, OutcomeRequest(c.names, c.producer, job, second.kind),
                OutcomeDraft(c.names, c.producer, job, second, sound), now) == Failure(S.KeyCollision)
  {
    var op := FailureLeaves(c, wholes, deeds, i, k, job, first);
    FailureHasRow(c, wholes, deeds, i, k, job, first);
    var q := OutcomeRequest(c.names, c.producer, job, first.kind);
    FinalStays(c, wholes, deeds, i + 1, j, job, op);
    RowsStay(c, wholes, deeds, k + 1, j, q, Intent(c.names, job, first.payload));
    RunKeepsInv(c, wholes, deeds, j);
    ClaimFinal(wholes[j].system, job, op, a);
    var result := Returned(job, E.RunPass(wholes[j].system.tables, job, E.Claiming, a).1);
    if result.value.outcome.Some? {
      var second := result.value.outcome.value;
      ErrorsDiffer(first.payload.error, second.payload.error);
      FailureReplaysOnSameText(c, wholes[j].world, job, first.kind, first.payload, second.payload, sound, now);
    }
  }
}
