/** One reconciliation pass (anvil_events/reconciliation/engine.py).

    A pass is a sequence of steps with at most one transaction each; `Pc` says where between
    two transactions a pass stands and `Next` is the step it takes there. Adapters, artifact
    resolvers and policies are host code that the model cannot see: what they answer in one
    pass is an `Answers` value. The class `ReconcileEngine` is the straight-line code; its
    contract says that it runs `Next` from `Claiming` until the pass is over. */
module ReconcileEngine {
  import opened Basics
  import opened ReconcileTables

  datatype Verdict = Verified | Refuted | VerifyRaised(error: string)

  datatype Answers = Answers(
    checked: Result<Artifact, string>,
    intact: Verdict,
    resolved: Result<Artifact, string>,
    preview: Result<Preview, string>,
    allowed: bool,
    applyError: Option<string>,
    verdict: Verdict,
    rollbackError: Option<string>)

  datatype PassState =
    | NotTargeted | PassSuperseded | PassFailed | PassIndeterminate | PassAwaiting | PassApplied | PassRejected

  datatype OutcomeKind = ReconcileApplied | ReconcileFailed | ReconcileAwaitingApproval

  datatype Payload = Payload(
    resource: string,
    generation: nat,
    revision: string,
    digest: Option<Digest>,
    adapter: string,
    op: OperationId,
    node: string,
    error: Option<string>)

  datatype Outcome = Outcome(kind: OutcomeKind, payload: Payload)

  datatype PassResult = PassResult(state: PassState, op: Option<OperationId>, outcome: Option<Outcome>)

  datatype Job = Job(node: string, desired: Desired)

  datatype PassError = StateError(error: Error) | UnknownAttempt

  datatype Pc =
    | Claiming
    | Checking(op: OperationId)
    | Resolving(op: OperationId)
    | Previewed(op: OperationId)
    | Applying(op: OperationId)
    | Verifying(op: OperationId)
    | Finished(result: PassResult)
    | Raised(error: PassError)

  const RESOLUTION_FAILED := "artifact or adapter resolution failed"
  const REVISION_MISMATCH := "artifact revision mismatch"
  const DIGEST_MISMATCH := "artifact digest mismatch"

  function PayloadFor(job: Job, op: OperationId, error: Option<string>): Payload {
    var d := job.desired;
    Payload(d.resource, d.generation, d.revision, Some(d.digest), d.adapter, op, job.node, error)
  }

  function FailedWith(state: PassState, job: Job, op: OperationId, error: string): Pc {
    Finished(PassResult(state, Some(op), Some(Outcome(ReconcileFailed, PayloadFor(job, op, Some(error))))))
  }

  function AppliedResult(job: Job, op: OperationId): Pc {
    Finished(PassResult(PassApplied, Some(op), Some(Outcome(ReconcileApplied, PayloadFor(job, op, None)))))
  }

  /** Why a resolved artifact may not be used, if so. */
  function ArtifactProblem(d: Desired, resolved: Result<Artifact, string>): Option<string> {
    match resolved
    case Failure(_) => Some(RESOLUTION_FAILED)
    case Success(artifact) =>
      if artifact.revision != d.revision then Some(REVISION_MISMATCH)
      else if Sha256(artifact.data) != d.digest then Some(DIGEST_MISMATCH)
      else None
  }

  predicate Over(pc: Pc) {
    pc.Finished? || pc.Raised?
  }

  /** The attempt becomes FAILED or INDETERMINATE and the pass ends. */
  function FailPass(t: Tables, op: OperationId, detail: string, indeterminate: bool, over: Pc): (Tables, Pc) {
    (FailAfter(t, op, detail, indeterminate), if op in t.attempts then over else Raised(UnknownAttempt))
  }

  function Continue(t: Tables, after: Result<Tables, Error>, pc: Pc): (Tables, Pc) {
    match after
    case Success(t') => (t', pc)
    case Failure(e) => (t, Raised(StateError(e)))
  }

  function Detail(d: Desired, resolved: Result<Artifact, string>): string {
    match resolved
    case Failure(e) => e
    case Success(artifact) => if artifact.revision != d.revision then REVISION_MISMATCH else DIGEST_MISMATCH
  }

  /** Where the answer of `claim` sends a pass. */
  function AfterClaim(job: Job, r: ClaimResult): Pc {
    match r.claim
    case Superseded => Finished(PassResult(PassSuperseded, Some(r.op), None))
    case InState(state) =>
      match state
      case Applied => Checking(r.op)
      case Failed => FailedWith(PassFailed, job, r.op, "reconciliation is failed")
      case Indeterminate => FailedWith(PassIndeterminate, job, r.op, "reconciliation is indeterminate")
      case Prepared => Resolving(r.op)
      case AwaitingApproval => Resolving(r.op)
  }

  ghost function ClaimStep(t: Tables, job: Job): (Tables, Pc) {
    match ClaimAfter(t, job.node, job.desired)
    case Failure(e) => (t, Raised(StateError(e)))
    case Success((u, r)) => (u, AfterClaim(job, r))
  }

  /** An applied generation is verified again, and reopened if it has drifted. */
  function CheckStep(t: Tables, job: Job, op: OperationId, a: Answers): (Tables, Pc) {
    match ArtifactProblem(job.desired, a.checked)
    case Some(problem) => (t, FailedWith(PassFailed, job, op, problem))
    case None =>
      if a.intact.Verified? then (t, AppliedResult(job, op))
      else Continue(t, ReopenAfter(t, op, job.desired, job.node), Resolving(op))
  }

  function ResolveStep(t: Tables, job: Job, op: OperationId, a: Answers): (Tables, Pc) {
    match ArtifactProblem(job.desired, a.resolved)
    case Some(problem) =>
      FailPass(t, op, Detail(job.desired, a.resolved), false, FailedWith(PassFailed, job, op, problem))
    case None =>
      match a.preview
      case Failure(e) => FailPass(t, op, e, false, FailedWith(PassFailed, job, op, "adapter preview failed"))
      case Success(preview) =>
        if !a.allowed then
          Continue(t, SetPreviewAfter(t, op, preview, true),
            Finished(PassResult(PassAwaiting, Some(op),
              Some(Outcome(ReconcileAwaitingApproval, PayloadFor(job, op, None))))))
        else Continue(t, SetPreviewAfter(t, op, preview, false), Previewed(op))
  }

  function ApplyStep(t: Tables, job: Job, op: OperationId, a: Answers): (Tables, Pc) {
    match a.applyError
    case Some(e) =>
      FailPass(t, op, e, true, FailedWith(PassIndeterminate, job, op, "adapter apply result is indeterminate"))
    case None => (t, Verifying(op))
  }

  function VerifyStep(t: Tables, job: Job, op: OperationId, a: Answers): (Tables, Pc) {
    if a.verdict.Verified? then Continue(t, CompleteAfter(t, op, job.desired, job.node), AppliedResult(job, op))
    else
      FailPass(t, op, VerifyDetail(a), false, FailedWith(PassFailed, job, op,
        if a.rollbackError.Some? then "adapter verification and rollback failed" else "adapter verification failed"))
  }

  /** The step a pass takes at `pc`; once over it stays there. */
  ghost function Next(t: Tables, job: Job, pc: Pc, a: Answers): (Tables, Pc) {
    match pc
    case Claiming => ClaimStep(t, job)
    case Checking(op) => CheckStep(t, job, op, a)
    case Resolving(op) => ResolveStep(t, job, op, a)
    case Previewed(op) => Continue(t, BeginApplyAfter(t, op), Applying(op))
    case Applying(op) => ApplyStep(t, job, op, a)
    case Verifying(op) => VerifyStep(t, job, op, a)
    case Finished(_) => (t, pc)
    case Raised(_) => (t, pc)
  }

  function VerifyDetail(a: Answers): string {
    if a.rollbackError.Some? then "verification failed; rollback failed: " + a.rollbackError.value
    else if a.verdict.VerifyRaised? then a.verdict.error
    else "adapter verification returned false"
  }

  function Rank(pc: Pc): nat {
    match pc
    case Claiming => 6
    case Checking(_) => 5
    case Resolving(_) => 4
    case Previewed(_) => 3
    case Applying(_) => 2
    case Verifying(_) => 1
    case Finished(_) => 0
    case Raised(_) => 0
  }

  /** Run a pass from `pc` to its end without a crash. */
  ghost function RunPass(t: Tables, job: Job, pc: Pc, a: Answers): (end: (Tables, Pc))
    ensures Over(end.1)
    decreases Rank(pc)
  {
    if Over(pc) then (t, pc)
    else
      var (t', pc') := Next(t, job, pc, a);
      RunPass(t', job, pc', a)
  }

  lemma Unroll(t: Tables, job: Job, pc: Pc, a: Answers)
    requires !Over(pc)
    ensures RunPass(t, job, pc, a) == (var (t', pc') := Next(t, job, pc, a); RunPass(t', job, pc', a))
  {
  }

  class ReconcileEngine {
    const node: string
    const state: ReconcileState

    constructor (node: string, state: ReconcileState)
      ensures this.node == node && this.state == state
    {
      this.node := node;
      this.state := state;
    }

    method FailAttempt(op: OperationId, detail: string, indeterminate: bool, over: Pc) returns (end: Pc)
      requires Schema(state.Contents())
      modifies state
      ensures Schema(state.Contents())
      ensures (state.Contents(), end) == FailPass(old(state.Contents()), op, detail, indeterminate, over)
    {
      var missing := state.Fail(op, detail, indeterminate);
      end := if missing then Raised(UnknownAttempt) else over;
    }

    /** A pass with the resource lock held, in the order of the original statements. */
    method ProcessLocked(d: Desired, a: Answers) returns (end: Pc)
      requires Schema(state.Contents())
      modifies state
      ensures Schema(state.Contents())
      ensures (state.Contents(), end) == RunPass(old(state.Contents()), Job(node, d), Claiming, a)
    {
      var job := Job(node, d);
      Unroll(state.Contents(), job, Claiming, a);
      var claim := state.Claim(node, d);
      if claim.Failure? {
        return Raised(StateError(claim.error));
      }
      var op := claim.value.op;
      if claim.value.claim.Superseded? {
        return Finished(PassResult(PassSuperseded, Some(op), None));
      }
      var claimed := claim.value.claim.state;
      if claimed.Applied? {
        Unroll(state.Contents(), job, Checking(op), a);
        if a.checked.Failure? {
          return FailedWith(PassFailed, job, op, RESOLUTION_FAILED);
        }
        if a.checked.value.revision != d.revision {
          return FailedWith(PassFailed, job, op, REVISION_MISMATCH);
        }
        if Sha256(a.checked.value.data) != d.digest {
          return FailedWith(PassFailed, job, op, DIGEST_MISMATCH);
        }
        if a.intact.Verified? {
          return AppliedResult(job, op);
        }
        var problem := state.ReopenApplied(op, d, node);
        if problem.Some? {
          return Raised(StateError(problem.value));
        }
      }
      if claimed.Failed? {
        return FailedWith(PassFailed, job, op, "reconciliation is failed");
      }
      if claimed.Indeterminate? {
        return FailedWith(PassIndeterminate, job, op, "reconciliation is indeterminate");
      }
      Unroll(state.Contents(), job, Resolving(op), a);
      if a.resolved.Failure? {
        end := FailAttempt(op, a.resolved.error, false, FailedWith(PassFailed, job, op, RESOLUTION_FAILED));
        return;
      }
      var artifact := a.resolved.value;
      if artifact.revision != d.revision {
        end := FailAttempt(op, REVISION_MISMATCH, false, FailedWith(PassFailed, job, op, REVISION_MISMATCH));
        return;
      }
      if Sha256(artifact.data) != d.digest {
        end := FailAttempt(op, DIGEST_MISMATCH, false, FailedWith(PassFailed, job, op, DIGEST_MISMATCH));
        return;
      }
      if a.preview.Failure? {
        end := FailAttempt(op, a.preview.error, false, FailedWith(PassFailed, job, op, "adapter preview failed"));
        return;
      }
      if !a.allowed {
        var problem := state.SetPreview(op, a.preview.value, true);
        if problem.Some? {
          return Raised(StateError(problem.value));
        }
        return Finished(PassResult(PassAwaiting, Some(op),
          Some(Outcome(ReconcileAwaitingApproval, PayloadFor(job, op, None)))));
      }
      end := ApplyAndVerify(d, op, a);
    }

    /** The part of a pass after the policy allowed it. */
    method ApplyAndVerify(d: Desired, op: OperationId, a: Answers) returns (end: Pc)
      requires Schema(state.Contents()) && ArtifactProblem(d, a.resolved) == None && a.preview.Success? && a.allowed
      modifies state
      ensures Schema(state.Contents())
      ensures (state.Contents(), end) == RunPass(old(state.Contents()), Job(node, d), Resolving(op), a)
    {
      var job := Job(node, d);
      Unroll(state.Contents(), job, Resolving(op), a);
      var problem := state.SetPreview(op, a.preview.value, false);
      if problem.Some? {
        return Raised(StateError(problem.value));
      }
      Unroll(state.Contents(), job, Previewed(op), a);
      problem := state.BeginApply(op);
      if problem.Some? {
        return Raised(StateError(problem.value));
      }
      Unroll(state.Contents(), job, Applying(op), a);
      if a.applyError.Some? {
        end := FailAttempt(op, a.applyError.value, true,
          FailedWith(PassIndeterminate, job, op, "adapter apply result is indeterminate"));
        return;
      }
      Unroll(state.Contents(), job, Verifying(op), a);
      if !a.verdict.Verified? {
        var detail, public := "", "";
        if a.rollbackError.Some? {
          detail := "verification failed; rollback failed: " + a.rollbackError.value;
          public := "adapter verification and rollback failed";
        } else {
          detail := if a.verdict.VerifyRaised? then a.verdict.error else "adapter verification returned false";
          public := "adapter verification failed";
        }
        end := FailAttempt(op, detail, false, FailedWith(PassFailed, job, op, public));
        return;
      }
      problem := state.Complete(op, d, node);
      if problem.Some? {
        return Raised(StateError(problem.value));
      }
      end := AppliedResult(job, op);
    }
  }
}
