/** The three reconciliation tables and the transactions that change them
    (anvil_events/reconciliation/state.py, schema in anvil_events/storage/database.py).

    Each transaction is a ghost function from the tables before to the tables after; a
    transaction that raises returns a failure and, being rolled back, changes nothing.
    The class `ReconcileState` performs the same transactions statement by statement. */
module ReconcileTables {
  import opened Basics

  type Bytes = string

  /** SHA-256 is taken to be injective: a digest names the bytes it was computed from. */
  datatype Digest = Sha256(of: Bytes)

  datatype Artifact = Artifact(data: Bytes, revision: string)

  datatype Preview = Preview(summary: string, changes: seq<string>)

  /** A validated `state.desired` event. */
  datatype Desired = Desired(
    eventId: string,
    producer: string,
    resource: string,
    generation: nat,
    revision: string,
    digest: Digest,
    adapter: string,
    artifact: string,
    targets: Option<set<string>>,
    correlation: Option<string>)

  /** One logical resource on one node. */
  datatype Place = Place(node: string, resource: string)

  /** The hash of node and event id, again taken to be injective. */
  datatype OperationId = OperationId(node: string, eventId: string)

  datatype AttemptState = Prepared | AwaitingApproval | Applied | Failed | Indeterminate

  datatype Attempt = Attempt(
    place: Place,
    generation: nat,
    state: AttemptState,
    preview: Option<Preview>,
    error: Option<string>)

  datatype Resource = Resource(
    generation: nat,
    revision: string,
    digest: Digest,
    adapter: string,
    eventId: string)

  /** `attempts` is keyed by its primary key, `applications` by its unique (node, resource)
      and `resources` by its primary key. */
  datatype Tables = Tables(
    attempts: map<OperationId, Attempt>,
    applications: map<Place, OperationId>,
    resources: map<Place, Resource>)

  datatype Error =
    | AppliedGenerationConflict
    | GenerationReused
    | ResourceChanged
    | AttemptMissing
    | NotReadyToApply
    | NotPreviewable
    | NotApplying
    | NewerGenerationApplied
    | ContentConflict
    | UniqueIndexViolated

  const ABANDONED := "process ended during external apply"

  function PlaceOf(node: string, d: Desired): Place {
    Place(node, d.resource)
  }

  function RowOf(d: Desired): Resource {
    Resource(d.generation, d.revision, d.digest, d.adapter, d.eventId)
  }

  /** Revision, digest and adapter agree. */
  predicate SameContent(row: Resource, d: Desired) {
    row.revision == d.revision && row.digest == d.digest && row.adapter == d.adapter
  }

  // ---------------------------------------------------------------------------------
  // Schema constraints
  // ---------------------------------------------------------------------------------

  /** The unique index on (node, resource, generation). */
  ghost predicate UniqueGenerations(t: Tables) {
    forall a, b | a in t.attempts && b in t.attempts && a != b ::
      t.attempts[a].place == t.attempts[b].place ==> t.attempts[a].generation != t.attempts[b].generation
  }

  /** Primary keys, unique indexes and foreign keys that the database enforces. */
  ghost predicate Schema(t: Tables) {
    && UniqueGenerations(t)
    && (forall op :: op in t.attempts ==> op.node == t.attempts[op].place.node)
    && (forall p :: p in t.applications ==>
          t.applications[p] in t.attempts && t.attempts[t.applications[p]].place == p)
  }

  /** `op` is the attempt of `place` at `generation`. */
  ghost predicate Owns(t: Tables, op: OperationId, place: Place, generation: nat) {
    op in t.attempts && t.attempts[op].place == place && t.attempts[op].generation == generation
  }

  ghost function OwnerOf(t: Tables, place: Place, generation: nat): (owner: Option<OperationId>)
    ensures owner.Some? ==> Owns(t, owner.value, place, generation)
    ensures owner.None? ==> forall op :: !Owns(t, op, place, generation)
  {
    if op :| Owns(t, op, place, generation) then Some(op) else None
  }

  lemma OwnerIs(t: Tables, op: OperationId, place: Place, generation: nat)
    requires UniqueGenerations(t) && Owns(t, op, place, generation)
    ensures OwnerOf(t, place, generation) == Some(op)
  {
    var owner := OwnerOf(t, place, generation);
    assert owner.Some?;
  }

  lemma {:induction false} NewestExists(t: Tables, place: Place, within: set<OperationId>)
    requires within <= t.attempts.Keys
    requires exists op :: op in within && t.attempts[op].place == place
    ensures exists op :: op in within && t.attempts[op].place == place &&
              forall o :: o in within && t.attempts[o].place == place ==>
                t.attempts[o].generation <= t.attempts[op].generation
    decreases within
  {
    var op :| op in within && t.attempts[op].place == place;
    var rest := within - {op};
    if exists o :: o in rest && t.attempts[o].place == place {
      NewestExists(t, place, rest);
      var best :| best in rest && t.attempts[best].place == place &&
                  forall o :: o in rest && t.attempts[o].place == place ==>
                    t.attempts[o].generation <= t.attempts[best].generation;
      var top := if t.attempts[op].generation <= t.attempts[best].generation then best else op;
      forall o | o in within && t.attempts[o].place == place
        ensures t.attempts[o].generation <= t.attempts[top].generation
      {
        assert o == op || o in rest;
      }
      assert top in within;
    } else {
      forall o | o in within && t.attempts[o].place == place
        ensures t.attempts[o].generation <= t.attempts[op].generation
      {
        assert o == op || o in rest;
      }
    }
  }

  // ---------------------------------------------------------------------------------
  // Transactions
  // ---------------------------------------------------------------------------------

  /** What `claim` tells its caller: superseded, or the lower-cased state of an attempt. */
  datatype Claimed = Superseded | InState(state: AttemptState)

  datatype ClaimResult = ClaimResult(claim: Claimed, op: OperationId)

  function WithState(a: Attempt, state: AttemptState, error: Option<string>): Attempt {
    a.(state := state, error := error)
  }

  /** An application row left behind by a dead process turns its attempt INDETERMINATE. */
  function Abandon(t: Tables, place: Place): Tables {
    if place !in t.applications then t
    else
      var op := t.applications[place];
      var attempts :=
        if op in t.attempts
        then t.attempts[op := WithState(t.attempts[op], Indeterminate, Some(ABANDONED))]
        else t.attempts;
      Tables(attempts, t.applications - {place}, t.resources)
  }

  ghost function ClaimAfter(t: Tables, node: string, d: Desired): Result<(Tables, ClaimResult), Error> {
    var place := PlaceOf(node, d);
    var own := OperationId(node, d.eventId);
    var u := Abandon(t, place);
    if place in t.applications && t.applications[place] == own then
      Success((u, ClaimResult(InState(Indeterminate), own)))
    else
      Admit(u, place, own, d)
  }

  /** `claim` once no application row is left for the place. */
  ghost function Admit(t: Tables, place: Place, own: OperationId, d: Desired): Result<(Tables, ClaimResult), Error> {
    if place in t.resources && d.generation < t.resources[place].generation then
      Success((t, ClaimResult(Superseded, own)))
    else if place in t.resources && d.generation == t.resources[place].generation then
      if !SameContent(t.resources[place], d) then Failure(AppliedGenerationConflict)
      else
        match OwnerOf(t, place, d.generation)
        case Some(owner) => Success((t, ClaimResult(InState(t.attempts[owner].state), owner)))
        case None => Success((t, ClaimResult(InState(Applied), own)))
    else if own in t.attempts then
      Success((t, ClaimResult(InState(t.attempts[own].state), own)))
    else if exists op :: op in t.attempts && t.attempts[op].place == place && d.generation < t.attempts[op].generation then
      Success((t, ClaimResult(Superseded, own)))
    else if exists op :: Owns(t, op, place, d.generation) then
      Failure(GenerationReused)
    else
      Success((t.(attempts := t.attempts[own := Attempt(place, d.generation, Prepared, None, None)]),
               ClaimResult(InState(Prepared), own)))
  }

  function ReopenAfter(t: Tables, op: OperationId, d: Desired, node: string): Result<Tables, Error> {
    var place := PlaceOf(node, d);
    if place !in t.resources || t.resources[place].generation != d.generation || !SameContent(t.resources[place], d) then
      Failure(ResourceChanged)
    else if op !in t.attempts then Failure(AttemptMissing)
    else
      Success(t.(attempts := t.attempts[op := t.attempts[op].(state := Prepared, preview := None, error := None)]))
  }

  function SetPreviewAfter(t: Tables, op: OperationId, preview: Preview, awaiting: bool): Result<Tables, Error> {
    if op in t.attempts && (t.attempts[op].state.Prepared? || t.attempts[op].state.AwaitingApproval?) then
      Success(t.(attempts := t.attempts[op := t.attempts[op].(
        preview := Some(preview), state := if awaiting then AwaitingApproval else Prepared)]))
    else Failure(NotPreviewable)
  }

  function BeginApplyAfter(t: Tables, op: OperationId): Result<Tables, Error> {
    if op !in t.attempts || !t.attempts[op].state.Prepared? then Failure(NotReadyToApply)
    else
      var place := t.attempts[op].place;
      if place in t.applications || op in t.applications.Values then Failure(UniqueIndexViolated)
      else Success(t.(applications := t.applications[place := op]))
  }

  function WithoutApplication(applications: map<Place, OperationId>, op: OperationId): map<Place, OperationId> {
    map p | p in applications && applications[p] != op :: applications[p]
  }

  function CompleteAfter(t: Tables, op: OperationId, d: Desired, node: string): Result<Tables, Error> {
    var place := PlaceOf(node, d);
    if op !in t.applications.Values then Failure(NotApplying)
    else if place in t.resources && d.generation < t.resources[place].generation then Failure(NewerGenerationApplied)
    else if place in t.resources && d.generation == t.resources[place].generation
            && (t.resources[place].revision != d.revision || t.resources[place].digest != d.digest) then
      Failure(ContentConflict)
    else
      var attempts := if op in t.attempts then t.attempts[op := t.attempts[op].(state := Applied)] else t.attempts;
      Success(Tables(attempts, WithoutApplication(t.applications, op), t.resources[place := RowOf(d)]))
  }

  /** The error text is cut to 300 characters. */
  function Clip(error: string): string {
    if |error| <= 300 then error else error[..300]
  }

  /** `fail` raises after its commit when there is no such attempt; the tables are the same either way. */
  function FailAfter(t: Tables, op: OperationId, error: string, indeterminate: bool): Tables {
    var state := if indeterminate then Indeterminate else Failed;
    var attempts :=
      if op in t.attempts then t.attempts[op := WithState(t.attempts[op], state, Some(Clip(error)))] else t.attempts;
    Tables(attempts, WithoutApplication(t.applications, op), t.resources)
  }

  /** Every transaction keeps what the database enforces. */
  lemma AbandonKeepsSchema(t: Tables, place: Place)
    requires Schema(t)
    ensures Schema(Abandon(t, place))
  {
  }

  lemma AdmitKeepsSchema(t: Tables, place: Place, own: OperationId, d: Desired)
    requires Schema(t) && own.node == place.node
    ensures Admit(t, place, own, d).Success? ==> Schema(Admit(t, place, own, d).value.0)
  {
    if Admit(t, place, own, d).Success? && Admit(t, place, own, d).value.0 != t {
      forall o | o in t.attempts && t.attempts[o].place == place
        ensures t.attempts[o].generation != d.generation
      {
        assert !Owns(t, o, place, d.generation);
      }
    }
  }

  lemma ClaimKeepsSchema(t: Tables, node: string, d: Desired)
    requires Schema(t)
    ensures ClaimAfter(t, node, d).Success? ==> Schema(ClaimAfter(t, node, d).value.0)
  {
    AbandonKeepsSchema(t, PlaceOf(node, d));
    AdmitKeepsSchema(Abandon(t, PlaceOf(node, d)), PlaceOf(node, d), OperationId(node, d.eventId), d);
  }

  /** Deleting by operation id removes just the row of its place. */
  lemma OneApplication(t: Tables, place: Place)
    requires Schema(t) && place in t.applications
    ensures WithoutApplication(t.applications, t.applications[place]) == t.applications - {place}
  {
  }

  // ---------------------------------------------------------------------------------
  // The transactions as executed
  // ---------------------------------------------------------------------------------

  class ReconcileState {
    var attempts: map<OperationId, Attempt>
    var applications: map<Place, OperationId>
    var resources: map<Place, Resource>

    constructor ()
      ensures Contents() == Tables(map[], map[], map[]) && Schema(Contents())
    {
      attempts, applications, resources := map[], map[], map[];
    }

    ghost function Contents(): Tables
      reads this
    {
      Tables(attempts, applications, resources)
    }

    method DeleteApplication(op: OperationId)
      modifies this`applications
      ensures applications == WithoutApplication(old(applications), op)
    {
      applications := map p | p in applications && applications[p] != op :: applications[p];
    }

    method Claim(node: string, d: Desired) returns (r: Result<ClaimResult, Error>)
      requires Schema(Contents())
      modifies this
      ensures Schema(Contents())
      ensures match ClaimAfter(old(Contents()), node, d)
              case Success((after, claimed)) => r == Success(claimed) && Contents() == after
              case Failure(e) => r == Failure(e) && Contents() == old(Contents())
    {
      var place := Place(node, d.resource);
      var op := OperationId(node, d.eventId);
      var savedAttempts, savedApplications := attempts, applications;
      AbandonKeepsSchema(Contents(), place);
      if place in applications {
        var abandoned := applications[place];
        attempts := attempts[abandoned := attempts[abandoned].(state := Indeterminate, error := Some(ABANDONED))];
        DeleteApplication(abandoned);
        OneApplication(old(Contents()), place);
        if abandoned == op {
          return Success(ClaimResult(InState(Indeterminate), op));
        }
      }
      assert Contents() == Abandon(old(Contents()), place);
      r := AdmitClaim(place, op, d);
      if r.Failure? {
        attempts, applications := savedAttempts, savedApplications;
      }
    }

    method AdmitClaim(place: Place, own: OperationId, d: Desired) returns (r: Result<ClaimResult, Error>)
      requires Schema(Contents()) && own.node == place.node
      modifies `attempts
      ensures Schema(Contents())
      ensures match Admit(old(Contents()), place, own, d)
              case Success((after, claimed)) => r == Success(claimed) && Contents() == after
              case Failure(e) => r == Failure(e) && Contents() == old(Contents())
    {
      var op := own;
      AdmitKeepsSchema(Contents(), place, own, d);
      if place in resources {
        var current := resources[place];
        if d.generation < current.generation {
          return Success(ClaimResult(Superseded, op));
        }
        if d.generation == current.generation {
          if !SameContent(current, d) {
            return Failure(AppliedGenerationConflict);
          }
          if owner :| owner in attempts && attempts[owner].place == place && attempts[owner].generation == d.generation {
            OwnerIs(Contents(), owner, place, d.generation);
            op := owner;
            if !attempts[owner].state.Applied? {
              return Success(ClaimResult(InState(attempts[owner].state), op));
            }
          }
          return Success(ClaimResult(InState(Applied), op));
        }
      }
      if op in attempts {
        return Success(ClaimResult(InState(attempts[op].state), op));
      }
      if o :| o in attempts && attempts[o].place == place {
        NewestExists(Contents(), place, attempts.Keys);
        var owner :| owner in attempts && attempts[owner].place == place &&
                     forall o :: o in attempts && attempts[o].place == place ==>
                       attempts[o].generation <= attempts[owner].generation;
        if d.generation < attempts[owner].generation {
          return Success(ClaimResult(Superseded, op));
        }
        if d.generation == attempts[owner].generation {
          assert Owns(Contents(), owner, place, d.generation);
          return Failure(GenerationReused);
        }
      }
      attempts := attempts[op := Attempt(place, d.generation, Prepared, None, None)];
      return Success(ClaimResult(InState(Prepared), op));
    }

    method ReopenApplied(op: OperationId, d: Desired, node: string) returns (error: Option<Error>)
      requires Schema(Contents())
      modifies this
      ensures Schema(Contents())
      ensures match ReopenAfter(old(Contents()), op, d, node)
              case Success(after) => error == None && Contents() == after
              case Failure(e) => error == Some(e) && Contents() == old(Contents())
    {
      var place := Place(node, d.resource);
      if place !in resources {
        return Some(ResourceChanged);
      }
      var current := resources[place];
      if current.generation != d.generation || current.revision != d.revision
         || current.digest != d.digest || current.adapter != d.adapter {
        return Some(ResourceChanged);
      }
      if op !in attempts {
        return Some(AttemptMissing);
      }
      attempts := attempts[op := attempts[op].(state := Prepared, preview := None, error := None)];
      return None;
    }

    method SetPreview(op: OperationId, preview: Preview, awaiting: bool) returns (error: Option<Error>)
      requires Schema(Contents())
      modifies this
      ensures Schema(Contents())
      ensures match SetPreviewAfter(old(Contents()), op, preview, awaiting)
              case Success(after) => error == None && Contents() == after
              case Failure(e) => error == Some(e) && Contents() == old(Contents())
    {
      var state := if awaiting then AwaitingApproval else Prepared;
      if op !in attempts || (attempts[op].state != Prepared && attempts[op].state != AwaitingApproval) {
        return Some(NotPreviewable);
      }
      attempts := attempts[op := attempts[op].(preview := Some(preview), state := state)];
      return None;
    }

    method BeginApply(op: OperationId) returns (error: Option<Error>)
      requires Schema(Contents())
      modifies this
      ensures Schema(Contents())
      ensures match BeginApplyAfter(old(Contents()), op)
              case Success(after) => error == None && Contents() == after
              case Failure(e) => error == Some(e) && Contents() == old(Contents())
    {
      if op !in attempts || attempts[op].state != Prepared {
        return Some(NotReadyToApply);
      }
      var place := attempts[op].place;
      if place in applications || op in applications.Values {
        return Some(UniqueIndexViolated);
      }
      applications := applications[place := op];
      return None;
    }

    method Complete(op: OperationId, d: Desired, node: string) returns (error: Option<Error>)
      requires Schema(Contents())
      modifies this
      ensures Schema(Contents())
      ensures match CompleteAfter(old(Contents()), op, d, node)
              case Success(after) => error == None && Contents() == after
              case Failure(e) => error == Some(e) && Contents() == old(Contents())
    {
      if op !in applications.Values {
        return Some(NotApplying);
      }
      var place := Place(node, d.resource);
      if place in resources {
        var current := resources[place];
        if d.generation < current.generation {
          return Some(NewerGenerationApplied);
        }
        if d.generation == current.generation && (current.revision != d.revision || current.digest != d.digest) {
          return Some(ContentConflict);
        }
      }
      resources := resources[place := Resource(d.generation, d.revision, d.digest, d.adapter, d.eventId)];
      if op in attempts {
        attempts := attempts[op := attempts[op].(state := Applied)];
      }
      DeleteApplication(op);
      return None;
    }

    method Fail(op: OperationId, error: string, indeterminate: bool) returns (missing: bool)
      requires Schema(Contents())
      modifies this
      ensures Schema(Contents())
      ensures Contents() == FailAfter(old(Contents()), op, error, indeterminate)
      ensures missing == (op !in old(attempts))
    {
      missing := op !in attempts;
      if !missing {
        var state := if indeterminate then Indeterminate else Failed;
        attempts := attempts[op := attempts[op].(state := state, error := Some(Clip(error)))];
      }
      DeleteApplication(op);
    }
  }
}
