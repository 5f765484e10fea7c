/** Processing delivered desired-state events and recording their outcomes
    (anvil_events/reconciliation/processor.py). */
module Processor {
  import opened Basics
  import T = ReconcileTables
  import E = ReconcileEngine
  import S = StoreTables
  import Identity
  import R = StoreRuns
  import EventStore

  /** The hexadecimal SHA-256 texts of operations and digests. */
  datatype Names = Names(operation: T.OperationId -> string, digest: T.Digest -> string)

  /** No two of the `known` operations, and no two of the `digests`, have the same text. */
  ghost predicate Apart(names: Names, known: set<T.OperationId>, digests: set<T.Digest>) {
    && (forall a, b :: a in known && b in known && names.operation(a) == names.operation(b) ==> a == b)
    && (forall a, b :: a in digests && b in digests && names.digest(a) == names.digest(b) ==> a == b)
  }

  /** A numbering of a finite set. */
  lemma {:induction false} Numbered<X(!new)>(members: set<X>) returns (numbers: map<X, nat>)
    ensures numbers.Keys == members
    ensures forall a :: a in numbers ==> numbers[a] < |members|
    ensures forall a, b :: a in numbers && b in numbers && numbers[a] == numbers[b] ==> a == b
    decreases |members|
  {
    if members == {} {
      numbers := map[];
    } else {
      var x :| x in members;
      var rest := Numbered(members - {x});
      numbers := rest[x := |members| - 1];
    }
  }

  lemma DecimalInjective(m: nat, n: nat)
    requires Identity.Decimal(m) == Identity.Decimal(n)
    ensures m == n
  {
    Identity.NumberOfDecimal(m);
    Identity.NumberOfDecimal(n);
  }

  /** Such texts exist for all finite sets. */
  lemma ApartExists(known: set<T.OperationId>, digests: set<T.Digest>) returns (names: Names)
    ensures Apart(names, known, digests)
  {
    var ops := Numbered(known);
    var contents := Numbered(digests);
    names := Names((op: T.OperationId) => if op in ops then Identity.Decimal(ops[op]) else "",
                   (d: T.Digest) => if d in contents then Identity.Decimal(contents[d]) else "");
    forall a, b | a in known && b in known && names.operation(a) == names.operation(b)
      ensures a == b
    {
      DecimalInjective(ops[a], ops[b]);
    }
    forall a, b | a in digests && b in digests && names.digest(a) == names.digest(b)
      ensures a == b
    {
      DecimalInjective(contents[a], contents[b]);
    }
  }

  /** A delivered event that passed validation. */
  datatype Delivery = Other(kind: string) | DesiredState(desired: T.Desired)

  datatype ProcessError = DatabaseError | LedgerError(error: S.StoreError)

  function KindText(kind: E.OutcomeKind): string {
    match kind
    case ReconcileApplied => "reconcile.applied"
    case ReconcileFailed => "reconcile.failed"
    case ReconcileAwaitingApproval => "reconcile.awaiting_approval"
  }

  function OutcomeKey(names: Names, delivered: T.OperationId, kind: E.OutcomeKind): string {
    "outcome:reconcile:" + names.operation(delivered) + ":" + KindText(kind)
  }

  /** One key for each delivered event and outcome kind, among events whose operations have different
      texts. */
  lemma OutcomeKeyInjective(names: Names, known: set<T.OperationId>, a: T.OperationId, j: E.OutcomeKind, b: T.OperationId, k: E.OutcomeKind)
    requires Apart(names, known, {}) && a in known && b in known
    requires OutcomeKey(names, a, j) == OutcomeKey(names, b, k)
    ensures a == b && j == k
  {
    var prefix := "outcome:reconcile:";
    var x, y := prefix + names.operation(a), prefix + names.operation(b);
    assert ':' !in KindText(j) && ':' !in KindText(k);
    Identity.SplitAtColon(x, KindText(j));
    Identity.SplitAtColon(y, KindText(k));
    assert x[|prefix|..] == names.operation(a) && y[|prefix|..] == names.operation(b);
    assert KindText(j)[10] == KindText(k)[10];
  }

  function Encode(names: Names, p: E.Payload): S.Json {
    S.Object(
      map["resource" := S.Text(p.resource), "generation" := S.Number(p.generation), "revision" := S.Text(p.revision),
          "adapter" := S.Text(p.adapter), "operation_id" := S.Text("reconcile:" + names.operation(p.op)),
          "node" := S.Text(p.node)]
      + (if p.digest.Some? then map["content_sha256" := S.Text(names.digest(p.digest.value))] else map[])
      + (if p.error.Some? then map["error" := S.Text(p.error.value)] else map[]))
  }

  /** The members of an encoded payload. */
  ghost predicate Members(names: Names, p: E.Payload, m: map<string, S.Json>) {
    && "resource" in m && m["resource"] == S.Text(p.resource) && "generation" in m && m["generation"] == S.Number(p.generation)
    && "revision" in m && m["revision"] == S.Text(p.revision) && "adapter" in m && m["adapter"] == S.Text(p.adapter)
    && "operation_id" in m && m["operation_id"] == S.Text("reconcile:" + names.operation(p.op))
    && "node" in m && m["node"] == S.Text(p.node)
    && ("content_sha256" in m <==> p.digest.Some?)
    && (p.digest.Some? ==> m["content_sha256"] == S.Text(names.digest(p.digest.value)))
    && ("error" in m <==> p.error.Some?) && (p.error.Some? ==> m["error"] == S.Text(p.error.value))
  }

  lemma EncodesMembers(names: Names, p: E.Payload)
    ensures Members(names, p, Encode(names, p).members)
  {
  }

  function Digests(p: E.Payload): set<T.Digest> {
    if p.digest.Some? then {p.digest.value} else {}
  }

  lemma MembersDetermine(names: Names, p: E.Payload, q: E.Payload, m: map<string, S.Json>)
    requires Apart(names, {p.op, q.op}, Digests(p) + Digests(q)) && Members(names, p, m) && Members(names, q, m)
    ensures p == q
  {
    var x, y := "reconcile:" + names.operation(p.op), "reconcile:" + names.operation(q.op);
    assert x[10..] == names.operation(p.op) && y[10..] == names.operation(q.op);
  }

  /** Payloads with different error texts are encoded differently, whatever the hash texts. */
  lemma EncodesError(names: Names, p: E.Payload, q: E.Payload)
    requires Encode(names, p) == Encode(names, q)
    ensures p.error == q.error
  {
    EncodesMembers(names, p);
    EncodesMembers(names, q);
  }

  /** No two payloads are encoded alike, unless hash texts collide. */
  lemma EncodeInjective(names: Names, p: E.Payload, q: E.Payload)
    requires Apart(names, {p.op, q.op}, Digests(p) + Digests(q)) && Encode(names, p) == Encode(names, q)
    ensures p == q
  {
    EncodesMembers(names, p);
    EncodesMembers(names, q);
    MembersDetermine(names, p, q, Encode(names, p).members);
  }

  const REJECTED := "desired state rejected"

  /** The result when the engine raises a `ValueError`. */
  function Rejected(job: E.Job): E.PassResult {
    var d := job.desired;
    var op := T.OperationId(job.node, d.eventId);
    E.PassResult(E.PassRejected, Some(op), Some(E.Outcome(E.ReconcileFailed,
      E.Payload(d.resource, d.generation, d.revision, None, d.adapter, op, job.node, Some(REJECTED)))))
  }

  /** What `process` of the engine returns; `None` when a database error escapes. */
  function Returned(job: E.Job, end: E.Pc): Option<E.PassResult> {
    match end
    case Finished(result) => Some(result)
    case Raised(error) => if error == E.StateError(T.UniqueIndexViolated) then None else Some(Rejected(job))
    case _ => None
  }

  function OutcomeRequest(names: Names, producer: string, job: E.Job, kind: E.OutcomeKind): S.Request {
    var key := OutcomeKey(names, T.OperationId(job.node, job.desired.eventId), kind);
    S.Request(key, key, producer, KindText(kind), job.desired.correlation)
  }

  function OutcomeSubject(node: string, kind: E.OutcomeKind): string {
    "anvil.events.v2." + node + "." + KindText(kind)
  }

  /** The ledger step that records an outcome. */
  function OutcomeStep(names: Names, producer: string, job: E.Job, outcome: E.Outcome, sound: bool): R.Step {
    R.DoRecord(OutcomeRequest(names, producer, job, outcome.kind), OutcomeSubject(job.node, outcome.kind), job.node,
      Encode(names, outcome.payload), [job.desired.eventId], sound)
  }

  function OutcomeDraft(names: Names, producer: string, job: E.Job, outcome: E.Outcome, sound: bool): S.Draft {
    S.RecordDraft(OutcomeRequest(names, producer, job, outcome.kind), OutcomeSubject(job.node, outcome.kind), job.node,
      Encode(names, outcome.payload), [job.desired.eventId], sound)
  }

  /** A pass on the tables, if this node is targeted. */
  ghost function PassOf(t: T.Tables, job: E.Job, a: E.Answers): (T.Tables, Option<E.PassResult>) {
    if job.desired.targets.Some? && job.node !in job.desired.targets.value then
      (t, Some(E.PassResult(E.NotTargeted, None, None)))
    else
      var (t', end) := E.RunPass(t, job, E.Claiming, a);
      (t', Returned(job, end))
  }

  /** What is recorded of a result. */
  ghost function RecordOf(s: S.Store, names: Names, producer: string, job: E.Job, result: E.PassResult, sound: bool, now: int)
    : (S.Store, Result<Option<E.PassResult>, ProcessError>)
    requires S.KeysIndex(s.keys, s.operations) && S.NonNegative(s.sequences)
  {
    match result.outcome
    case None => (s, Success(Some(result)))
    case Some(outcome) =>
      match S.Record(s, OutcomeRequest(names, producer, job, outcome.kind), OutcomeDraft(names, producer, job, outcome, sound), now)
      case Failure(e) => (s, Failure(LedgerError(e)))
      case Success((s', _, _)) => (s', Success(Some(result)))
  }

  /** Recording an outcome is one step of the ledger. */
  lemma RecordOfIsAStep(s: S.Store, names: Names, producer: string, job: E.Job, result: E.PassResult, sound: bool, now: int)
    requires S.KeysIndex(s.keys, s.operations) && S.NonNegative(s.sequences) && result.outcome.Some?
    ensures RecordOf(s, names, producer, job, result, sound, now).0
         == R.StoreAfter(s, OutcomeStep(names, producer, job, result.outcome.value, sound), now)
  {
  }

  class DesiredStateProcessor {
    const engine: E.ReconcileEngine
    const store: EventStore.EventStore
    const producer: string
    const names: Names

    constructor (engine: E.ReconcileEngine, store: EventStore.EventStore, producer: string, names: Names)
      ensures this.engine == engine && this.store == store && this.producer == producer && this.names == names
    {
      this.engine, this.store, this.producer, this.names := engine, store, producer, names;
    }

    /** `process` of the engine, with `ValueError` turned into a rejection. */
    method RunEngine(d: T.Desired, a: E.Answers) returns (r: Option<E.PassResult>)
      requires T.Schema(engine.state.Contents())
      modifies engine.state
      ensures T.Schema(engine.state.Contents())
      ensures (engine.state.Contents(), r) == PassOf(old(engine.state.Contents()), E.Job(engine.node, d), a)
    {
      if d.targets.Some? && engine.node !in d.targets.value {
        return Some(E.PassResult(E.NotTargeted, None, None));
      }
      var end := engine.ProcessLocked(d, a);
      r := Returned(E.Job(engine.node, d), end);
    }

    method RecordOutcome(job: E.Job, outcome: E.Outcome, sound: bool, now: int) returns (error: Option<S.StoreError>)
      requires store.Valid() && store.Indexed()
      modifies store
      ensures store.Valid() && store.Indexed()
      ensures match S.Record(old(store.Contents()), OutcomeRequest(names, producer, job, outcome.kind),
                             OutcomeDraft(names, producer, job, outcome, sound), now)
              case Success((after, _, _)) => error == None && store.Contents() == after
              case Failure(e) => error == Some(e) && store.Contents() == old(store.Contents())
    {
      var r := store.RecordEvent(OutcomeRequest(names, producer, job, outcome.kind),
                                 OutcomeDraft(names, producer, job, outcome, sound), now);
      error := if r.Success? then None else Some(r.error);
    }

    method Process(delivery: Delivery, a: E.Answers, sound: bool, now: int) returns (r: Result<Option<E.PassResult>, ProcessError>)
      requires T.Schema(engine.state.Contents()) && store.Valid() && store.Indexed()
      modifies engine.state, store
      ensures T.Schema(engine.state.Contents()) && store.Valid() && store.Indexed()
      ensures delivery.Other? ==>
        r == Success(None) && engine.state.Contents() == old(engine.state.Contents()) && store.Contents() == old(store.Contents())
      ensures delivery.DesiredState? ==>
        var job := E.Job(engine.node, delivery.desired);
        var (tables, result) := PassOf(old(engine.state.Contents()), job, a);
        && engine.state.Contents() == tables
        && match result
           case None => r == Failure(DatabaseError) && store.Contents() == old(store.Contents())
           case Some(v) => (store.Contents(), r) == RecordOf(old(store.Contents()), names, producer, job, v, sound, now)
    {
      if delivery.Other? {
        return Success(None);
      }
      var job := E.Job(engine.node, delivery.desired);
      var result := RunEngine(delivery.desired, a);
      if result.None? {
        return Failure(DatabaseError);
      }
      if result.value.outcome.None? {
        return Success(result);
      }
      var error := RecordOutcome(job, result.value.outcome.value, sound, now);
      r := if error.Some? then Failure(LedgerError(error.value)) else Success(result);
    }
  }
}
