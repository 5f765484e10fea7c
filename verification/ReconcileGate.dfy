/** The gate in front of every apply, and how each pass ends (anvil_events/reconciliation/engine.py:74-189).

    Nothing is applied unless the policy allowed it and the artifact is the one that the event names, in
    every run. What a pass answers and leaves behind is stated answer by answer, in terms of the artifact,
    the policy and the adapter. */
module ReconcileGate {
  import opened Basics
  import opened ReconcileTables
  import opened ReconcileEngine
  import opened ReconcileSystem
  import opened ReconcileSafety

  /** The artifact that the event names: its revision, and its content by digest. */
  predicate RightArtifact(d: Desired, resolved: Result<Artifact, string>) {
    resolved.Success? && resolved.value.revision == d.revision && Sha256(resolved.value.data) == d.digest
  }

  /** The policy said yes to the preview of the right artifact. */
  predicate Cleared(d: Desired, a: Answers) {
    RightArtifact(d, a.resolved) && a.preview.Success? && a.allowed
  }

  // ---------------------------------------------------------------------------------
  // Over every run
  // ---------------------------------------------------------------------------------

  predicate PastGate(pc: Pc) {
    pc.Previewed? || pc.Applying? || pc.Verifying?
  }

  /** With step `k` the pass of `pid` was cleared, and that pass is still running at `i`. */
  ghost predicate ClearedAt(states: seq<System>, events: seq<Event>, k: nat, i: nat, pid: Pid) {
    && k < i < |states| && k < |events|
    && pid in states[k].procs && states[k].procs[pid].pc.Resolving?
    && events[k].Move? && events[k].pid == pid
    && Cleared(states[k].procs[pid].job.desired, events[k].answers)
    && forall j :: k <= j <= i ==> pid in states[j].procs && states[j].procs[pid].job == states[k].procs[pid].job
  }

  lemma GateIsPassedCleared(t: Tables, job: Job, pc: Pc, a: Answers)
    requires PastGate(Next(t, job, pc, a).1)
    ensures PastGate(pc) || (pc.Resolving? && Cleared(job.desired, a))
  {
  }

  /** What one step does to a pass that is past the gate after it. */
  lemma StepPastGate(hash: ShardHash, s: System, e: Event, s': System, pid: Pid)
    requires Step(hash, s, e, s') && pid in s'.procs && PastGate(s'.procs[pid].pc)
    ensures pid in s.procs && s'.procs[pid].job == s.procs[pid].job
    ensures PastGate(s.procs[pid].pc)
            || (s.procs[pid].pc.Resolving? && e.Move? && e.pid == pid && Cleared(s.procs[pid].job.desired, e.answers))
  {
    if e.Move? && e.pid == pid {
      GateIsPassedCleared(s.tables, s.procs[pid].job, s.procs[pid].pc, e.answers);
    }
  }

  /** A pass past the gate was cleared. */
  lemma {:induction false} WasCleared(hash: ShardHash, states: seq<System>, events: seq<Event>, i: nat, pid: Pid) returns (k: nat)
    requires Run(hash, states, events) && i < |states| && pid in states[i].procs && PastGate(states[i].procs[pid].pc)
    ensures ClearedAt(states, events, k, i, pid)
    decreases i
  {
    assert i > 0;
    StepPastGate(hash, states[i - 1], events[i - 1], states[i], pid);
    if PastGate(states[i - 1].procs[pid].pc) {
      k := WasCleared(hash, states, events, i - 1, pid);
    } else {
      k := i - 1;
    }
  }

  /** In every run, a step that begins an apply belongs to a pass whose policy said yes to the preview of
      the very artifact that its event names. */
  lemma AppliesAreCleared(hash: ShardHash, states: seq<System>, events: seq<Event>, i: nat, slot: Slot) returns (pid: Pid, k: nat)
    requires Run(hash, states, events) && i < |events| && states[i + 1].begun[slot] != states[i].begun[slot]
    ensures ClearedAt(states, events, k, i, pid) && events[i].Move? && events[i].pid == pid
    ensures slot.place.node == states[i].procs[pid].job.node
    ensures slot.place.resource == states[i].procs[pid].job.desired.resource
    ensures slot.generation == states[i].procs[pid].job.desired.generation
    ensures states[i + 1].begun[slot] == states[i].begun[slot] + 1
  {
    assert Step(hash, states[i], events[i], states[i + 1]);
    pid := events[i].pid;
    k := WasCleared(hash, states, events, i, pid);
  }

  /** And a row is written only by such a pass, once the adapter has verified the apply. */
  lemma RowsAreVerified(hash: ShardHash, states: seq<System>, events: seq<Event>, i: nat) returns (pid: Pid, k: nat)
    requires Run(hash, states, events) && i < |events| && states[i + 1].tables.resources != states[i].tables.resources
    ensures ClearedAt(states, events, k, i, pid) && events[i].Move? && events[i].pid == pid
    ensures states[i].procs[pid].pc.Verifying? && events[i].answers.verdict.Verified?
    ensures var d, place := states[i].procs[pid].job.desired, Place(states[i].procs[pid].job.node, states[i].procs[pid].job.desired.resource);
      states[i + 1].tables.resources
      == states[i].tables.resources[place := Resource(d.generation, d.revision, d.digest, d.adapter, d.eventId)]
  {
    assert Step(hash, states[i], events[i], states[i + 1]);
    pid := events[i].pid;
    OnlyVerifiedWrites(states[i].tables, states[i].procs[pid].job, states[i].procs[pid].pc, events[i].answers);
    k := WasCleared(hash, states, events, i, pid);
  }

  lemma OnlyVerifiedWrites(t: Tables, job: Job, pc: Pc, a: Answers)
    requires Next(t, job, pc, a).0.resources != t.resources
    ensures pc.Verifying? && a.verdict.Verified?
    ensures Next(t, job, pc, a).0.resources == t.resources[PlaceOf(job.node, job.desired) := RowOf(job.desired)]
  {
  }

  ghost predicate AlwaysDenied(events: seq<Event>) {
    forall i :: 0 <= i < |events| && events[i].Move? ==> !events[i].answers.allowed
  }

  /** Under the default policy, which always says no, no run begins an apply or writes a row. */
  lemma {:induction false} DenialBeginsNothing(hash: ShardHash, states: seq<System>, events: seq<Event>, i: nat)
    requires Run(hash, states, events) && i < |states| && AlwaysDenied(events)
    ensures states[i].begun == multiset{} && states[i].tables.resources == map[]
    decreases i
  {
    if i == 0 {
    } else {
      DenialBeginsNothing(hash, states, events, i - 1);
      forall slot
        ensures states[i].begun[slot] == states[i - 1].begun[slot]
      {
        if states[i - 1 + 1].begun[slot] != states[i - 1].begun[slot] {
          var pid, k := AppliesAreCleared(hash, states, events, i - 1, slot);
        }
      }
      if states[i - 1 + 1].tables.resources != states[i - 1].tables.resources {
        var pid, k := RowsAreVerified(hash, states, events, i - 1);
      }
    }
  }

  // ---------------------------------------------------------------------------------
  // How a pass ends
  // ---------------------------------------------------------------------------------

  /** The system when the pass of `pid` is over and the others stood still. */
  ghost function EndOf(s: System, pid: Pid, a: Answers): System
    requires pid in s.procs
    decreases Rank(s.procs[pid].pc)
  {
    if Over(s.procs[pid].pc) then s else EndOf(MoveAfter(s, pid, a), pid, a)
  }

  /** That is the last state of its path, */
  lemma {:induction false} EndIsLast(s: System, pid: Pid, a: Answers)
    requires pid in s.procs
    ensures EndOf(s, pid, a) == Path(s, pid, a)[|Path(s, pid, a)| - 1] && pid in EndOf(s, pid, a).procs
    decreases Rank(s.procs[pid].pc)
  {
    if Over(s.procs[pid].pc) {
    } else {
      RankFalls(s, pid, a);
      EndIsLast(MoveAfter(s, pid, a), pid, a);
    }
  }

  /** and what the engine leaves behind and answers. */
  lemma EndIsEngine(s: System, pid: Pid, a: Answers)
    requires pid in s.procs
    ensures pid in EndOf(s, pid, a).procs
    ensures (EndOf(s, pid, a).tables, EndOf(s, pid, a).procs[pid].pc)
         == RunPass(s.tables, s.procs[pid].job, s.procs[pid].pc, a)
  {
    EndIsLast(s, pid, a);
    EnginePassIsARun(s, pid, a);
  }

  /** What is told: the result of a pass, and in its outcome whatever the event says. */
  predicate Told(pc: Pc, job: Job, op: OperationId, state: PassState, kind: OutcomeKind, error: Option<string>) {
    && pc.Finished? && pc.result.state == state && pc.result.op == Some(op)
    && pc.result.outcome.Some? && pc.result.outcome.value.kind == kind
    && var p, d := pc.result.outcome.value.payload, job.desired;
      && p.resource == d.resource && p.generation == d.generation && p.revision == d.revision
      && p.digest == Some(d.digest) && p.adapter == d.adapter && p.op == op && p.node == job.node && p.error == error
  }

  /** At most the first 300 characters. */
  function Cut(text: string): string {
    text[..if |text| < 300 then |text| else 300]
  }

  lemma CutIsClip(text: string)
    ensures Clip(text) == Cut(text)
  {
    assert text[..|text|] == text;
  }

  /** Of the tables only the attempt `op` changed, and it has this state, error and preview. */
  ghost predicate Left(t: Tables, t': Tables, op: OperationId, state: AttemptState, error: Option<string>, preview: Option<Preview>) {
    && op in t.attempts && t'.applications == t.applications && t'.resources == t.resources
    && t'.attempts == t.attempts[op := Attempt(t.attempts[op].place, t.attempts[op].generation, state, preview, error)]
  }

  /** Nothing was begun, completed or broken off. */
  predicate NothingBegun(s: System, end: System) {
    end.begun == s.begun && end.completed == s.completed && end.broken == s.broken
  }

  /** One apply was begun, and broken off. */
  predicate OneBroken(s: System, end: System, slot: Slot) {
    end.begun == s.begun + multiset{slot} && end.completed == s.completed && end.broken == s.broken + {slot}
  }

  /** The pass of `pid` has its attempt in hand, and no application of its place is under way. */
  ghost predicate Ready(s: System, pid: Pid, op: OperationId) {
    && pid in s.procs && s.procs[pid].pc == Resolving(op)
    && PcInv(s.tables, s.procs[pid].job, Resolving(op), s.broken) && ApplicationsInPlace(s.tables)
  }

  /** That is so in every reachable state. */
  lemma ResolvingIsReady(hash: ShardHash, states: seq<System>, events: seq<Event>, i: nat, pid: Pid)
    requires Run(hash, states, events) && i < |states| && pid in states[i].procs && states[i].procs[pid].pc.Resolving?
    ensures Ready(states[i], pid, states[i].procs[pid].pc.op)
  {
    var s := states[i];
    RunKeepsInv(hash, states, events, i);
    assert ProcInv(s, pid);
    forall p | p in s.tables.applications
      ensures s.tables.applications[p] in s.tables.attempts && s.tables.attempts[s.tables.applications[p]].place == p
    {
      assert ApplicationInv(s, p);
    }
  }

  lemma NoApplicationOf(t: Tables, op: OperationId)
    requires ApplicationsInPlace(t) && op in t.attempts && t.attempts[op].place !in t.applications
    ensures op !in t.applications.Values && WithoutApplication(t.applications, op) == t.applications
  {
  }

  /** The artifact does not resolve, or is not the right one: the attempt fails and nothing is begun. */
  lemma WrongArtifactFails(s: System, pid: Pid, op: OperationId, a: Answers)
    requires Ready(s, pid, op) && !RightArtifact(s.procs[pid].job.desired, a.resolved)
    ensures var end, job := EndOf(s, pid, a), s.procs[pid].job;
      var said :=
        if a.resolved.Failure? then "artifact or adapter resolution failed"
        else if a.resolved.value.revision != job.desired.revision then "artifact revision mismatch"
        else "artifact digest mismatch";
      && pid in end.procs && Told(end.procs[pid].pc, job, op, PassFailed, ReconcileFailed, Some(said))
      && Left(s.tables, end.tables, op, Failed, Some(Cut(if a.resolved.Failure? then a.resolved.error else said)),
           s.tables.attempts[op].preview)
      && NothingBegun(s, end)
  {
    NoApplicationOf(s.tables, op);
    CutIsClip(Detail(s.procs[pid].job.desired, a.resolved));
    assert EndOf(s, pid, a) == MoveAfter(s, pid, a);
  }

  lemma PreviewRaises(s: System, pid: Pid, op: OperationId, a: Answers)
    requires Ready(s, pid, op) && RightArtifact(s.procs[pid].job.desired, a.resolved) && a.preview.Failure?
    ensures var end, job := EndOf(s, pid, a), s.procs[pid].job;
      && pid in end.procs && Told(end.procs[pid].pc, job, op, PassFailed, ReconcileFailed, Some("adapter preview failed"))
      && Left(s.tables, end.tables, op, Failed, Some(Cut(a.preview.error)), s.tables.attempts[op].preview)
      && NothingBegun(s, end)
  {
    NoApplicationOf(s.tables, op);
    CutIsClip(a.preview.error);
    assert EndOf(s, pid, a) == MoveAfter(s, pid, a);
  }

  /** The policy says no: the attempt waits for approval and nothing is begun. */
  lemma DeniedAwaitsApproval(s: System, pid: Pid, op: OperationId, a: Answers)
    requires Ready(s, pid, op) && RightArtifact(s.procs[pid].job.desired, a.resolved) && a.preview.Success? && !a.allowed
    ensures var end, job := EndOf(s, pid, a), s.procs[pid].job;
      && pid in end.procs && Told(end.procs[pid].pc, job, op, PassAwaiting, ReconcileAwaitingApproval, None)
      && Left(s.tables, end.tables, op, AwaitingApproval, s.tables.attempts[op].error, Some(a.preview.value))
      && NothingBegun(s, end)
  {
    assert EndOf(s, pid, a) == MoveAfter(s, pid, a);
  }

  // ---------------------------------------------------------------------------------
  // Past the gate
  // ---------------------------------------------------------------------------------

  /** A cleared pass with its apply begun. */
  ghost function Begun(s: System, pid: Pid, op: OperationId, preview: Preview): System
    requires pid in s.procs && op in s.tables.attempts
  {
    var job := s.procs[pid].job;
    s.(tables := Tables(s.tables.attempts[op := s.tables.attempts[op].(state := Prepared, preview := Some(preview))],
                        s.tables.applications[JobPlace(job) := op], s.tables.resources),
       procs := s.procs[pid := Proc(job, Applying(op))],
       begun := s.begun + multiset{JobSlot(job)})
  }

  /** A cleared pass with its preview stored. */
  ghost function Seen(s: System, pid: Pid, op: OperationId, preview: Preview): System
    requires pid in s.procs && op in s.tables.attempts
  {
    s.(tables := s.tables.(attempts := s.tables.attempts[op := s.tables.attempts[op].(state := Prepared, preview := Some(preview))]),
       procs := s.procs[pid := Proc(s.procs[pid].job, Previewed(op))])
  }

  lemma ClearedIsSeen(s: System, pid: Pid, op: OperationId, a: Answers)
    requires Ready(s, pid, op) && Cleared(s.procs[pid].job.desired, a)
    ensures MoveAfter(s, pid, a) == Seen(s, pid, op, a.preview.value)
  {
  }

  lemma SeenBegins(s: System, pid: Pid, op: OperationId, preview: Preview, a: Answers)
    requires Ready(s, pid, op)
    ensures MoveAfter(Seen(s, pid, op, preview), pid, a) == Begun(s, pid, op, preview)
  {
    NoApplicationOf(s.tables, op);
    assert op !in Seen(s, pid, op, preview).tables.applications.Values;
  }

  lemma ClearedBegins(s: System, pid: Pid, op: OperationId, a: Answers)
    requires Ready(s, pid, op) && Cleared(s.procs[pid].job.desired, a)
    ensures EndOf(s, pid, a) == EndOf(Begun(s, pid, op, a.preview.value), pid, a)
  {
    ClearedIsSeen(s, pid, op, a);
    SeenBegins(s, pid, op, a.preview.value, a);
    assert EndOf(s, pid, a) == EndOf(Seen(s, pid, op, a.preview.value), pid, a);
  }

  /** Deleting the application again. */
  lemma Deleted(s: System, pid: Pid, op: OperationId, preview: Preview)
    requires Ready(s, pid, op)
    ensures WithoutApplication(Begun(s, pid, op, preview).tables.applications, op) == s.tables.applications
  {
    NoApplicationOf(s.tables, op);
  }

  /** A begun apply whose attempt then fails. */
  lemma FailsBack(s: System, pid: Pid, op: OperationId, preview: Preview, error: string, indeterminate: bool)
    requires Ready(s, pid, op)
    ensures Left(s.tables, FailAfter(Begun(s, pid, op, preview).tables, op, error, indeterminate), op,
              if indeterminate then Indeterminate else Failed, Some(Cut(error)), Some(preview))
  {
    Deleted(s, pid, op, preview);
    CutIsClip(error);
  }

  /** The adapter raises in its apply: the result is unknown, and stays so. */
  lemma ApplyRaises(s: System, pid: Pid, op: OperationId, a: Answers)
    requires Ready(s, pid, op) && Cleared(s.procs[pid].job.desired, a) && a.applyError.Some?
    ensures var end, job := EndOf(s, pid, a), s.procs[pid].job;
      && pid in end.procs
      && Told(end.procs[pid].pc, job, op, PassIndeterminate, ReconcileFailed, Some("adapter apply result is indeterminate"))
      && Left(s.tables, end.tables, op, Indeterminate, Some(Cut(a.applyError.value)), Some(a.preview.value))
      && OneBroken(s, end, JobSlot(job))
  {
    ClearedBegins(s, pid, op, a);
    FailsBack(s, pid, op, a.preview.value, a.applyError.value, true);
    ApplyingFails(Begun(s, pid, op, a.preview.value), pid, op, a);
  }

  lemma ApplyingFails(s: System, pid: Pid, op: OperationId, a: Answers)
    requires pid in s.procs && s.procs[pid].pc == Applying(op) && op in s.tables.attempts && a.applyError.Some?
    ensures var end, job := EndOf(s, pid, a), s.procs[pid].job;
      && end.tables == FailAfter(s.tables, op, a.applyError.value, true) && pid in end.procs
      && Told(end.procs[pid].pc, job, op, PassIndeterminate, ReconcileFailed, Some("adapter apply result is indeterminate"))
      && end.begun == s.begun && end.completed == s.completed && end.broken == s.broken + {JobSlot(job)}
  {
    assert EndOf(s, pid, a) == MoveAfter(s, pid, a);
  }

  /** The same with the apply done. */
  ghost function Done(s: System, pid: Pid, op: OperationId, preview: Preview): System
    requires pid in s.procs && op in s.tables.attempts
  {
    var b := Begun(s, pid, op, preview);
    b.(procs := b.procs[pid := Proc(s.procs[pid].job, Verifying(op))])
  }

  lemma AppliedIsDone(s: System, pid: Pid, op: OperationId, a: Answers)
    requires Ready(s, pid, op) && Cleared(s.procs[pid].job.desired, a) && a.applyError.None?
    ensures EndOf(s, pid, a) == EndOf(Done(s, pid, op, a.preview.value), pid, a)
  {
    ClearedBegins(s, pid, op, a);
    var b := Begun(s, pid, op, a.preview.value);
    assert MoveAfter(b, pid, a) == Done(s, pid, op, a.preview.value);
  }

  lemma VerifyingEnds(s: System, pid: Pid, op: OperationId, a: Answers)
    requires pid in s.procs && s.procs[pid].pc == Verifying(op)
    ensures EndOf(s, pid, a) == MoveAfter(s, pid, a)
  {
  }

  /** What is stored when the verification fails or raises, and when the rollback after it fails as well. */
  function VerificationError(a: Answers): string {
    match a.rollbackError
    case Some(e) => "verification failed; rollback failed: " + e
    case None =>
      match a.verdict
      case VerifyRaised(e) => e
      case _ => "adapter verification returned false"
  }

  lemma VerifyingFails(s: System, pid: Pid, op: OperationId, a: Answers)
    requires pid in s.procs && s.procs[pid].pc == Verifying(op) && op in s.tables.attempts && !a.verdict.Verified?
    ensures var end, job := EndOf(s, pid, a), s.procs[pid].job;
      var said := if a.rollbackError.Some? then "adapter verification and rollback failed" else "adapter verification failed";
      && end.tables == FailAfter(s.tables, op, VerificationError(a), false) && pid in end.procs
      && Told(end.procs[pid].pc, job, op, PassFailed, ReconcileFailed, Some(said))
      && end.begun == s.begun && end.completed == s.completed && end.broken == s.broken + {JobSlot(job)}
  {
    VerifyingEnds(s, pid, op, a);
  }

  lemma VerificationFails(s: System, pid: Pid, op: OperationId, a: Answers)
    requires Ready(s, pid, op) && Cleared(s.procs[pid].job.desired, a) && a.applyError.None? && !a.verdict.Verified?
    ensures var end, job := EndOf(s, pid, a), s.procs[pid].job;
      var said := if a.rollbackError.Some? then "adapter verification and rollback failed" else "adapter verification failed";
      && pid in end.procs && Told(end.procs[pid].pc, job, op, PassFailed, ReconcileFailed, Some(said))
      && Left(s.tables, end.tables, op, Failed, Some(Cut(VerificationError(a))), Some(a.preview.value))
      && OneBroken(s, end, JobSlot(job))
  {
    AppliedIsDone(s, pid, op, a);
    FailsBack(s, pid, op, a.preview.value, VerificationError(a), false);
    VerifyingFails(Done(s, pid, op, a.preview.value), pid, op, a);
  }

  lemma VerifyingSucceeds(s: System, pid: Pid, op: OperationId, a: Answers)
    requires pid in s.procs && s.procs[pid].pc == Verifying(op) && op in s.tables.attempts && a.verdict.Verified?
    requires op in s.tables.applications.Values && RowAllows(s.tables, s.procs[pid].job)
    ensures var end, job := EndOf(s, pid, a), s.procs[pid].job;
      var d := job.desired;
      && end.tables == Tables(s.tables.attempts[op := s.tables.attempts[op].(state := Applied)],
                              WithoutApplication(s.tables.applications, op),
                              s.tables.resources[JobPlace(job) := Resource(d.generation, d.revision, d.digest, d.adapter, d.eventId)])
      && pid in end.procs && Told(end.procs[pid].pc, job, op, PassApplied, ReconcileApplied, None)
      && end.begun == s.begun && end.completed == s.completed + multiset{JobSlot(job)} && end.broken == s.broken
  {
    VerifyingEnds(s, pid, op, a);
  }

  lemma CompletesBack(s: System, pid: Pid, op: OperationId, preview: Preview)
    requires Ready(s, pid, op)
    ensures var done, attempt := Done(s, pid, op, preview).tables, s.tables.attempts[op];
      && op in done.attempts && op in done.applications.Values && RowAllows(done, s.procs[pid].job)
      && WithoutApplication(done.applications, op) == s.tables.applications && done.resources == s.tables.resources
      && done.attempts[op := done.attempts[op].(state := Applied)]
         == s.tables.attempts[op := attempt.(state := Applied, preview := Some(preview))]
  {
    Deleted(s, pid, op, preview);
    assert Done(s, pid, op, preview).tables.applications[JobPlace(s.procs[pid].job)] == op;
  }

  /** And what is stored when everything goes well. */
  lemma AllGoesWell(s: System, pid: Pid, op: OperationId, a: Answers)
    requires Ready(s, pid, op) && Cleared(s.procs[pid].job.desired, a) && a.applyError.None? && a.verdict.Verified?
    ensures var end, job := EndOf(s, pid, a), s.procs[pid].job;
      var d, attempt := job.desired, s.tables.attempts[op];
      && pid in end.procs && Told(end.procs[pid].pc, job, op, PassApplied, ReconcileApplied, None)
      && end.tables.attempts == s.tables.attempts[op := attempt.(state := Applied, preview := Some(a.preview.value))]
      && end.tables.applications == s.tables.applications
      && end.tables.resources
         == s.tables.resources[JobPlace(job) := Resource(d.generation, d.revision, d.digest, d.adapter, d.eventId)]
      && end.begun == s.begun + multiset{JobSlot(job)} && end.completed == s.completed + multiset{JobSlot(job)}
      && end.broken == s.broken
  {
    AppliedIsDone(s, pid, op, a);
    CompletesBack(s, pid, op, a.preview.value);
    VerifyingSucceeds(Done(s, pid, op, a.preview.value), pid, op, a);
  }

  // ---------------------------------------------------------------------------------
  // What a claim answers
  // ---------------------------------------------------------------------------------

  ghost predicate Attempted(t: Tables, place: Place, generation: nat) {
    exists op :: op in t.attempts && t.attempts[op].place == place && t.attempts[op].generation == generation
  }

  ghost predicate NewerAttempted(t: Tables, place: Place, generation: nat) {
    exists op :: op in t.attempts && t.attempts[op].place == place && generation < t.attempts[op].generation
  }

  predicate Agrees(row: Resource, d: Desired) {
    row.revision == d.revision && row.digest == d.digest && row.adapter == d.adapter
  }

  /** The row of the place has a generation below this one, or there is none. */
  predicate RowBelow(t: Tables, place: Place, generation: nat) {
    place in t.resources ==> t.resources[place].generation < generation
  }

  /** A claim at a place where nothing is being applied. Its event is superseded if a newer generation was
      applied, or was attempted and the event was not; it conflicts with another content of the applied
      generation and with another event of an attempted one. A new attempt is made exactly if its generation
      is above all attempted ones, and otherwise the state of the attempt of its generation is told. */
  ghost predicate ClaimedRightly(t: Tables, job: Job) {
    var d, place, own := job.desired, Place(job.node, job.desired.resource), OperationId(job.node, job.desired.eventId);
    var r := ClaimAfter(t, job.node, d);
    var applied, below := place in t.resources && t.resources[place].generation == d.generation, RowBelow(t, place, d.generation);
    var attempted, newer := Attempted(t, place, d.generation), NewerAttempted(t, place, d.generation);
    && (r == Failure(AppliedGenerationConflict) <==> applied && !Agrees(t.resources[place], d))
    && (r == Failure(GenerationReused) <==> below && own !in t.attempts && attempted && !newer)
    && (r.Success? && r.value.1.claim.Superseded? <==> (!applied && !below) || (below && own !in t.attempts && newer))
    && (r.Success? && r.value.0 != t <==> !attempted && !newer)
    && (r.Success? && r.value.0 != t ==>
          r.value == (t.(attempts := t.attempts[own := Attempt(place, d.generation, Prepared, None, None)]),
                      ClaimResult(InState(Prepared), own)))
    && (r.Success? && r.value.1.claim.InState? ==>
          var t', op := r.value.0, r.value.1.op;
          Owns(t', op, place, d.generation) && r.value.1.claim.state == t'.attempts[op].state)
  }

  /** That is so in every reachable state. */
  lemma ClaimExactly(hash: ShardHash, states: seq<System>, events: seq<Event>, i: nat, job: Job)
    requires Run(hash, states, events) && i < |states|
    requires Place(job.node, job.desired.resource) !in states[i].tables.applications
    requires job.desired.eventId in states[i].journal && states[i].journal[job.desired.eventId] == job.desired
    ensures ClaimedRightly(states[i].tables, job)
  {
    var s := states[i];
    RunKeepsInv(hash, states, events, i);
    if JobPlace(job) in s.tables.resources {
      assert ResourceInv(s, JobPlace(job));
    }
    if OwnOperation(job) in s.tables.attempts {
      OwnSlot(s, job);
    }
    ClaimTable(s.tables, job);
  }

  lemma ClaimTable(t: Tables, job: Job)
    requires JobPlace(job) !in t.applications && UniqueGenerations(t)
    requires JobPlace(job) in t.resources ==> exists o :: Owns(t, o, JobPlace(job), t.resources[JobPlace(job)].generation)
    requires OwnOperation(job) in t.attempts ==> Owns(t, OwnOperation(job), JobPlace(job), job.desired.generation)
    ensures ClaimedRightly(t, job)
  {
    var d, place, own := job.desired, JobPlace(job), OwnOperation(job);
    if op :| Owns(t, op, place, d.generation) {
      assert Attempted(t, place, d.generation);
    } else {
      forall op | op in t.attempts && t.attempts[op].place == place
        ensures t.attempts[op].generation != d.generation
      {
        assert !Owns(t, op, place, d.generation);
      }
    }
    if place in t.resources {
      var o :| Owns(t, o, place, t.resources[place].generation);
      if d.generation < t.resources[place].generation {
        assert NewerAttempted(t, place, d.generation);
      }
    }
    if own !in t.attempts {
      var u := t.(attempts := t.attempts[own := Attempt(place, d.generation, Prepared, None, None)]);
      assert own in u.attempts;
    }
  }

  /** Where a claim leads: a superseded pass ends without an outcome, a FAILED or INDETERMINATE attempt ends it
      with that, an APPLIED one is checked again, and any other comes to the gate. A claim that conflicts
      changes nothing. */
  lemma ClaimLeads(s: System, pid: Pid, a: Answers)
    requires pid in s.procs && s.procs[pid].pc.Claiming?
    ensures var s', job := MoveAfter(s, pid, a), s.procs[pid].job;
      pid in s'.procs && NothingBegun(s, s')
      && var pc := s'.procs[pid].pc;
        match ClaimAfter(s.tables, job.node, job.desired)
        case Failure(e) => pc == Raised(StateError(e)) && s'.tables == s.tables
        case Success((t, r)) =>
          && s'.tables == t
          && (r.claim.Superseded? ==> pc == Finished(PassResult(PassSuperseded, Some(r.op), None)))
          && (r.claim == InState(AttemptState.Failed) ==>
                Told(pc, job, r.op, PassFailed, ReconcileFailed, Some("reconciliation is failed")))
          && (r.claim == InState(AttemptState.Indeterminate) ==>
                Told(pc, job, r.op, PassIndeterminate, ReconcileFailed, Some("reconciliation is indeterminate")))
          && (r.claim == InState(AttemptState.Applied) ==> pc == Checking(r.op))
          && (r.claim == InState(AttemptState.Prepared) || r.claim == InState(AttemptState.AwaitingApproval) ==> pc == Resolving(r.op))
  {
  }

  // ---------------------------------------------------------------------------------
  // A fresh event comes to the gate
  // ---------------------------------------------------------------------------------

  /** From every reachable state in which the lock is free, a pass over a fresh event above all attempted
      generations claims it and is ready; how it ends is said by the lemmas above. */
  lemma FreshIsReady(hash: ShardHash, states: seq<System>, events: seq<Event>, i: nat, pid: Pid, job: Job, a: Answers)
    requires Run(hash, states, events) && i < |states| && pid !in states[i].procs
    requires job.desired.eventId in states[i].journal && states[i].journal[job.desired.eventId] == job.desired
    requires forall o :: o in states[i].tables.attempts && states[i].tables.attempts[o].place == JobPlace(job) ==>
               states[i].tables.attempts[o].generation < job.desired.generation
    ensures var s := Acquired(hash, states[i], pid, job);
      var s' := MoveAfter(s, pid, a);
      && Ready(s', pid, OperationId(job.node, job.desired.eventId)) && NothingBegun(s, s') && s'.procs[pid].job == job
      && EndOf(s, pid, a) == EndOf(s', pid, a)
  {
    RunKeepsInv(hash, states, events, i);
    FreshClaim(states[i], job);
  }

  /** So under a policy that always says no, nothing is ever begun for it: it waits for approval. */
  lemma FreshEventWaits(hash: ShardHash, states: seq<System>, events: seq<Event>, i: nat, pid: Pid, job: Job, a: Answers)
    requires Run(hash, states, events) && i < |states| && pid !in states[i].procs
    requires job.desired.eventId in states[i].journal && states[i].journal[job.desired.eventId] == job.desired
    requires forall o :: o in states[i].tables.attempts && states[i].tables.attempts[o].place == JobPlace(job) ==>
               states[i].tables.attempts[o].generation < job.desired.generation
    requires RightArtifact(job.desired, a.resolved) && a.preview.Success? && !a.allowed
    ensures var s := Acquired(hash, states[i], pid, job);
      var end, op := EndOf(s, pid, a), OperationId(job.node, job.desired.eventId);
      && pid in end.procs && Told(end.procs[pid].pc, job, op, PassAwaiting, ReconcileAwaitingApproval, None)
      && op in end.tables.attempts && end.tables.attempts[op].state.AwaitingApproval? && NothingBegun(s, end)
      && end.tables.resources == s.tables.resources
  {
    FreshIsReady(hash, states, events, i, pid, job, a);
    var s := Acquired(hash, states[i], pid, job);
    DeniedAwaitsApproval(MoveAfter(s, pid, a), pid, OperationId(job.node, job.desired.eventId), a);
    ClaimLeavesRows(s.tables, job);
  }

  lemma ClaimLeavesRows(t: Tables, job: Job)
    ensures ClaimStep(t, job).0.resources == t.resources
  {
  }

  // ---------------------------------------------------------------------------------
  // An applied generation delivered again
  // ---------------------------------------------------------------------------------

  ghost predicate Rechecks(s: System, pid: Pid, op: OperationId) {
    pid in s.procs && s.procs[pid].pc == Checking(op) && PcInv(s.tables, s.procs[pid].job, Checking(op), s.broken)
  }

  /** With a wrong artifact or a verified one the tables stay as they are; after a drift the attempt is
      prepared anew, without preview and error, and the pass goes on to the gate. */
  lemma AppliedIsRechecked(s: System, pid: Pid, op: OperationId, a: Answers)
    requires Rechecks(s, pid, op)
    ensures var s', job := MoveAfter(s, pid, a), s.procs[pid].job;
      && NothingBegun(s, s') && pid in s'.procs
      && (if !RightArtifact(job.desired, a.checked) then
            var said :=
              if a.checked.Failure? then "artifact or adapter resolution failed"
              else if a.checked.value.revision != job.desired.revision then "artifact revision mismatch"
              else "artifact digest mismatch";
            s'.tables == s.tables && Told(s'.procs[pid].pc, job, op, PassFailed, ReconcileFailed, Some(said))
          else if a.intact.Verified? then
            s'.tables == s.tables && Told(s'.procs[pid].pc, job, op, PassApplied, ReconcileApplied, None)
          else s'.procs[pid].pc == Resolving(op) && Left(s.tables, s'.tables, op, Prepared, None, None))
  {
  }

  // ---------------------------------------------------------------------------------
  // A process that died inside its apply
  // ---------------------------------------------------------------------------------

  /** Whoever claims the place next finds the application of the dead process. Its attempt becomes
      INDETERMINATE, and if it is the claimed one the pass ends with that. */
  lemma AbandonedIsIndeterminate(s: System, pid: Pid, a: Answers)
    requires pid in s.procs && s.procs[pid].pc.Claiming? && ApplicationsInPlace(s.tables)
    requires Place(s.procs[pid].job.node, s.procs[pid].job.desired.resource) in s.tables.applications
    requires !MoveAfter(s, pid, a).procs[pid].pc.Raised?
    ensures var s', job := MoveAfter(s, pid, a), s.procs[pid].job;
      var place := Place(job.node, job.desired.resource);
      var op := s.tables.applications[place];
      && place !in s'.tables.applications && op in s.tables.attempts && op in s'.tables.attempts
      && s'.tables.attempts[op]
         == s.tables.attempts[op].(state := Indeterminate, error := Some("process ended during external apply"))
      && (op == OperationId(job.node, job.desired.eventId) ==>
            Told(s'.procs[pid].pc, job, op, PassIndeterminate, ReconcileFailed, Some("reconciliation is indeterminate")))
  {
    ClaimSweeps(s.tables, s.procs[pid].job);
    assert MoveAfter(s, pid, a).tables == ClaimStep(s.tables, s.procs[pid].job).0;
  }

  lemma ClaimSweeps(t: Tables, job: Job)
    requires ApplicationsInPlace(t) && JobPlace(job) in t.applications && !ClaimStep(t, job).1.Raised?
    ensures var (t', pc) := ClaimStep(t, job);
      var op := t.applications[JobPlace(job)];
      && JobPlace(job) !in t'.applications && op in t'.attempts
      && t'.attempts[op] == t.attempts[op].(state := Indeterminate, error := Some(ABANDONED))
      && (op == OwnOperation(job) ==> pc == FailedWith(PassIndeterminate, job, op, "reconciliation is indeterminate"))
  {
    var op := t.applications[JobPlace(job)];
    var u := Abandon(t, JobPlace(job));
    if op != OwnOperation(job) {
      AdmitTouchesOwn(u, JobPlace(job), OwnOperation(job), job.desired, op);
    }
  }

  lemma AdmitTouchesOwn(t: Tables, place: Place, own: OperationId, d: Desired, op: OperationId)
    requires op in t.attempts && Admit(t, place, own, d).Success?
    ensures var t' := Admit(t, place, own, d).value.0;
      t'.applications == t.applications && op in t'.attempts && t'.attempts[op] == t.attempts[op]
  {
  }
}
