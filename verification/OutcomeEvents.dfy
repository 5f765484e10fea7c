/** What is recorded for the result of a pass (anvil_events/reconciliation/processor.py:17-62), in terms of
    the event that ends up in the store. */
module OutcomeEvents {
  import opened Basics
  import T = ReconcileTables
  import E = ReconcileEngine
  import S = StoreTables
  import StoreJoin
  import O = OperationRuns
  import opened Processor

  /** The text under which a result is recorded, if it is. */
  function TextOf(state: E.PassState): Option<string> {
    match state
    case NotTargeted => None
    case PassSuperseded => None
    case PassApplied => Some("reconcile.applied")
    case PassAwaiting => Some("reconcile.awaiting_approval")
    case PassFailed => Some("reconcile.failed")
    case PassIndeterminate => Some("reconcile.failed")
    case PassRejected => Some("reconcile.failed")
  }

  function NamedKind(kind: E.OutcomeKind): string {
    match kind
    case ReconcileApplied => "reconcile.applied"
    case ReconcileAwaitingApproval => "reconcile.awaiting_approval"
    case ReconcileFailed => "reconcile.failed"
  }

  /** The outcome fits the state, and its payload speaks of the job: of the digest as well unless the event
      was rejected, and of an error exactly if the pass failed. */
  ghost predicate Fits(job: E.Job, result: E.PassResult) {
    && (result.outcome.Some? <==> TextOf(result.state).Some?)
    && (result.outcome.Some? ==>
          var p, d := result.outcome.value.payload, job.desired;
          && TextOf(result.state) == Some(NamedKind(result.outcome.value.kind))
          && p.resource == d.resource && p.generation == d.generation && p.revision == d.revision && p.adapter == d.adapter
          && p.node == job.node && result.op == Some(p.op)
          && p.digest == (if result.state.PassRejected? then None else Some(d.digest))
          && (p.error.Some? <==> result.outcome.value.kind.ReconcileFailed?))
  }

  ghost predicate FitsAtEnd(job: E.Job, pc: E.Pc) {
    pc.Finished? ==> Fits(job, pc.result) && !pc.result.state.NotTargeted?
  }

  lemma EarlyStepFits(t: T.Tables, job: E.Job, pc: E.Pc, a: E.Answers)
    requires pc.Claiming? || pc.Checking? || pc.Resolving?
    ensures FitsAtEnd(job, E.Next(t, job, pc, a).1)
  {
  }

  lemma LateStepFits(t: T.Tables, job: E.Job, pc: E.Pc, a: E.Answers)
    requires pc.Previewed? || pc.Applying? || pc.Verifying?
    ensures FitsAtEnd(job, E.Next(t, job, pc, a).1)
  {
  }

  lemma StepFits(t: T.Tables, job: E.Job, pc: E.Pc, a: E.Answers)
    requires FitsAtEnd(job, pc)
    ensures FitsAtEnd(job, E.Next(t, job, pc, a).1)
  {
    match pc
    case Claiming => EarlyStepFits(t, job, pc, a);
    case Checking(_) => EarlyStepFits(t, job, pc, a);
    case Resolving(_) => EarlyStepFits(t, job, pc, a);
    case Previewed(_) => LateStepFits(t, job, pc, a);
    case Applying(_) => LateStepFits(t, job, pc, a);
    case Verifying(_) => LateStepFits(t, job, pc, a);
    case Finished(_) =>
    case Raised(_) =>
  }

  lemma {:induction false} RunFits(t: T.Tables, job: E.Job, pc: E.Pc, a: E.Answers)
    requires FitsAtEnd(job, pc)
    ensures FitsAtEnd(job, E.RunPass(t, job, pc, a).1)
    decreases E.Rank(pc)
  {
    if E.Over(pc) {
    } else {
      StepFits(t, job, pc, a);
      var (t', pc') := E.Next(t, job, pc, a);
      E.Unroll(t, job, pc, a);
      RunFits(t', job, pc', a);
    }
  }

  /** Whatever the host answers, the outcome of a pass fits its result; a node that is not among the
      targets, and only such a node, leaves the tables alone and says so. */
  lemma ResultFits(t: T.Tables, job: E.Job, a: E.Answers)
    ensures var (t', r) := PassOf(t, job, a);
      && (r.Some? ==> Fits(job, r.value))
      && (job.desired.targets.Some? && job.node !in job.desired.targets.value <==> r.Some? && r.value.state.NotTargeted?)
      && (r.Some? && r.value.state.NotTargeted? ==> t' == t)
  {
    RunFits(t, job, E.Claiming, a);
  }

  /** What a pass raises is a rejection, except that an error of the database escapes. */
  lemma RaisedIsRejected(t: T.Tables, job: E.Job, a: E.Answers)
    requires job.desired.targets.Some? ==> job.node in job.desired.targets.value
    ensures var (end, r) := (E.RunPass(t, job, E.Claiming, a).1, PassOf(t, job, a).1);
      && (r.None? <==> end == E.Raised(E.StateError(T.UniqueIndexViolated)))
      && (r.Some? && end.Raised? ==>
            && r.value.state.PassRejected? && Fits(job, r.value)
            && r.value.outcome.value.payload.error == Some("desired state rejected"))
      && (end.Finished? ==> r == Some(end.result))
  {
    RunFits(t, job, E.Claiming, a);
  }

  /** The idempotency key of an outcome. */
  function KeyText(names: Names, job: E.Job, text: string): string {
    "outcome:reconcile:" + names.operation(T.OperationId(job.node, job.desired.eventId)) + ":" + text
  }

  /** The event of an outcome: its kind and subject name the result, its payload is that of the pass, and it
      is caused by the delivered event. */
  ghost predicate IsOutcomeEvent(names: Names, producer: string, job: E.Job, payload: E.Payload, text: string, e: S.Event) {
    && e.producer == producer && e.node == job.node && e.kind == text && e.subject == "anvil.events.v2." + job.node + "." + text
    && e.correlation == job.desired.correlation && e.causes == [job.desired.eventId]
    && e.payload.Object? && Members(names, payload, e.payload.members)
  }

  /** Recording a result that has an outcome, the first time: it is accepted exactly if the names are short
      enough and the event is sound, and then stores the event of that outcome, pending. */
  lemma OutcomeIsStored(s: S.Store, names: Names, producer: string, job: E.Job, result: E.PassResult, sound: bool, now: int)
    requires StoreJoin.RowsInv(s) && S.KeysIndex(s.keys, s.operations) && Fits(job, result) && result.outcome.Some?
    requires var key := KeyText(names, job, TextOf(result.state).value); key !in s.keys && key !in s.operations
    ensures var text := TextOf(result.state).value;
      var (s', r) := RecordOf(s, names, producer, job, result, sound, now);
      && (r.Success? <==> O.Named(producer) && O.Named(job.node) && |KeyText(names, job, text)| <= 256 && sound)
      && (r.Success? ==>
            && r == Success(Some(result))
            && exists e :: O.Stored(s, s', e) && IsOutcomeEvent(names, producer, job, result.outcome.value.payload, text, e))
  {
    var outcome := result.outcome.value;
    var q := OutcomeRequest(names, producer, job, outcome.kind);
    KindIsNamed(outcome.kind);
    O.RecordsNew(s, q, OutcomeSubject(job.node, outcome.kind), job.node, Encode(names, outcome.payload), [job.desired.eventId], sound, now);
    EncodesMembers(names, outcome.payload);
  }

  lemma KindIsNamed(kind: E.OutcomeKind)
    ensures KindText(kind) == NamedKind(kind)
  {
  }

  /** A result without an outcome records nothing. */
  lemma NothingIsStored(s: S.Store, names: Names, producer: string, job: E.Job, result: E.PassResult, sound: bool, now: int)
    requires S.KeysIndex(s.keys, s.operations) && S.NonNegative(s.sequences) && Fits(job, result)
    requires result.state.NotTargeted? || result.state.PassSuperseded?
    ensures RecordOf(s, names, producer, job, result, sound, now) == (s, Success(Some(result)))
  {
  }
}
