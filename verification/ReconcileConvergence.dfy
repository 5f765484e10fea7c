/** Convergence of one resource: whatever the order and repetition of its desired events, and
    whatever drifts in between, fault-free processing ends at the maximum generation. */
module ReconcileConvergence {
  import opened Basics
  import opened ReconcileTables
  import opened ReconcileEngine
  import opened ReconcileSystem
  import opened ReconcileSafety

  /** What each adapter has deployed. */
  type World = map<string, Bytes>

  const PREVIEW := Preview("replace", [])

  predicate Deployed(w: World, d: Desired) {
    d.adapter in w && Sha256(w[d.adapter]) == d.digest
  }

  /** A host without faults: the artifact is the one the digest names, the policy permits,
      an apply deploys the artifact and verification compares digests. */
  function Host(w: World, d: Desired): Answers {
    var artifact := Artifact(d.digest.of, d.revision);
    var verdict := if Deployed(w, d) then Verified else Refuted;
    Answers(Success(artifact), verdict, Success(artifact), Success(PREVIEW), true, None, verdict, None)
  }

  /** A pass on such a host. */
  ghost function HostPass(t: Tables, w: World, job: Job, pc: Pc): (Tables, World, Pc)
    decreases Rank(pc)
  {
    if Over(pc) then (t, w, pc)
    else
      var (t', pc') := Next(t, job, pc, Host(w, job.desired));
      var w' := if pc.Applying? then w[job.desired.adapter := job.desired.digest.of] else w;
      HostPass(t', w', job, pc')
  }

  datatype Action = Deliver(desired: Desired) | Drift(world: World)

  ghost function After(node: string, t: Tables, w: World, action: Action): (Tables, World) {
    match action
    case Deliver(d) => var (t', w', _) := HostPass(t, w, Job(node, d), Claiming); (t', w')
    case Drift(w') => (t, w')
  }

  ghost function AfterAll(node: string, t: Tables, w: World, actions: seq<Action>): (Tables, World) {
    if actions == [] then (t, w)
    else
      var (t', w') := AfterAll(node, t, w, actions[..|actions| - 1]);
      After(node, t', w', actions[|actions| - 1])
  }

  /** The events of one resource: an id names one event, a generation one content. */
  ghost predicate Consistent(events: map<string, Desired>, resource: string) {
    && (forall id :: id in events ==> events[id].eventId == id && events[id].resource == resource)
    && (forall a, b :: a in events && b in events && events[a].generation == events[b].generation ==>
          events[a].revision == events[b].revision && events[a].digest == events[b].digest
          && events[a].adapter == events[b].adapter)
  }

  ghost predicate From(events: map<string, Desired>, actions: seq<Action>) {
    forall i :: 0 <= i < |actions| && actions[i].Deliver? ==>
      actions[i].desired.eventId in events && events[actions[i].desired.eventId] == actions[i].desired
  }

  ghost predicate Delivered(actions: seq<Action>, d: Desired) {
    exists i :: 0 <= i < |actions| && actions[i] == Deliver(d)
  }

  /** `d` is delivered and no delivered event has a larger generation. */
  ghost predicate Highest(actions: seq<Action>, d: Desired) {
    Delivered(actions, d) && forall e :: Delivered(actions, e) ==> e.generation <= d.generation
  }

  /** The tables between two fault-free passes. */
  ghost predicate Settled(t: Tables, events: map<string, Desired>, place: Place) {
    && UniqueGenerations(t)
    && t.applications == map[]
    && (forall op :: op in t.attempts ==>
          && t.attempts[op].place == place && op.node == place.node && op.eventId in events
          && events[op.eventId].generation == t.attempts[op].generation
          && t.attempts[op].state.Applied?
          && place in t.resources && t.attempts[op].generation <= t.resources[place].generation)
    && (place in t.resources ==>
          && t.resources[place].eventId in events
          && RowOf(events[t.resources[place].eventId]) == t.resources[place]
          && exists op :: Owns(t, op, place, t.resources[place].generation))
  }

  /** The row is at the maximum delivered generation. */
  ghost predicate AtTop(t: Tables, actions: seq<Action>, place: Place) {
    if place in t.resources then
      exists d :: Highest(actions, d) && SameContent(t.resources[place], d) && t.resources[place].generation == d.generation
    else forall d :: !Delivered(actions, d)
  }

  lemma HostApplies(t: Tables, w: World, job: Job, op: OperationId)
    requires PcInv(t, job, Resolving(op), {}) && ApplicationsInPlace(t)
    ensures var (t', w', pc') := HostPass(t, w, job, Resolving(op));
      && pc' == AppliedResult(job, op)
      && w' == w[job.desired.adapter := job.desired.digest.of]
      && t'.resources == t.resources[JobPlace(job) := RowOf(job.desired)]
      && t'.applications == t.applications
      && op in t.attempts
      && exists preview :: t'.attempts == t.attempts[op := t.attempts[op].(preview := preview, state := Applied)]
  {
    var d := job.desired;
    var t1 := t.(attempts := t.attempts[op := t.attempts[op].(preview := Some(PREVIEW), state := Prepared)]);
    var t2 := t1.(applications := t1.applications[JobPlace(job) := op]);
    var w' := w[d.adapter := d.digest.of];
    assert op !in t.applications.Values;
    assert HostPass(t, w, job, Resolving(op)) == HostPass(t1, w, job, Previewed(op));
    assert HostPass(t1, w, job, Previewed(op)) == HostPass(t2, w, job, Applying(op));
    assert HostPass(t2, w, job, Applying(op)) == HostPass(t2, w', job, Verifying(op));
    DeletedInPlace(t2, op);
    var t3 := CompleteAfter(t2, op, d, job.node).value;
    assert t3.attempts == t.attempts[op := t.attempts[op].(preview := Some(PREVIEW), state := Applied)];
    assert HostPass(t2, w', job, Verifying(op)) == (t3, w', AppliedResult(job, op));
  }

  /** What one delivery must achieve. */
  ghost predicate Achieves(before: Tables, w: World, after: Tables, w': World, place: Place, d: Desired) {
    if place in before.resources && d.generation < before.resources[place].generation then
      after == before && w' == w
    else
      && place in after.resources && after.resources[place].generation == d.generation
      && SameContent(after.resources[place], d) && Deployed(w', d)
  }

  lemma DeliverLower(t: Tables, w: World, job: Job)
    requires t.applications == map[] && JobPlace(job) in t.resources
    requires job.desired.generation < t.resources[JobPlace(job)].generation
    ensures var (t', w', _) := HostPass(t, w, job, Claiming); t' == t && w' == w
  {
    assert ClaimStep(t, job).1.Finished?;
  }

  lemma DeliverHigher(t: Tables, w: World, job: Job)
    requires t.applications == map[] && OwnOperation(job) !in t.attempts
    requires JobPlace(job) in t.resources ==> t.resources[JobPlace(job)].generation < job.desired.generation
    requires forall o :: o in t.attempts && t.attempts[o].place == JobPlace(job) ==>
               t.attempts[o].generation < job.desired.generation
    ensures var (t', w', _) := HostPass(t, w, job, Claiming);
      && t'.applications == map[] && t'.resources == t.resources[JobPlace(job) := RowOf(job.desired)]
      && w' == w[job.desired.adapter := job.desired.digest.of]
      && exists preview :: t'.attempts == t.attempts[OwnOperation(job) := Fresh(job).(preview := preview, state := Applied)]
  {
    var own := OwnOperation(job);
    var u := t.(attempts := t.attempts[own := Fresh(job)]);
    assert Admit(t, JobPlace(job), own, job.desired).Success?;
    assert ClaimStep(t, job) == (u, Resolving(own));
    HostApplies(u, w, job, own);
    var t' := HostPass(u, w, job, Resolving(own)).0;
    var preview :| t'.attempts == u.attempts[own := u.attempts[own].(preview := preview, state := Applied)];
    assert t'.attempts == t.attempts[own := Fresh(job).(preview := preview, state := Applied)];
  }

  lemma DeliverEqual(t: Tables, w: World, job: Job, op: OperationId)
    requires UniqueGenerations(t) && t.applications == map[] && JobPlace(job) in t.resources
    requires job.desired.generation == t.resources[JobPlace(job)].generation
    requires SameContent(t.resources[JobPlace(job)], job.desired)
    requires Owns(t, op, JobPlace(job), job.desired.generation) && t.attempts[op].state.Applied?
    ensures var (t', w', _) := HostPass(t, w, job, Claiming);
      if Deployed(w, job.desired) then t' == t && w' == w
      else
        && t'.applications == map[] && t'.resources == t.resources[JobPlace(job) := RowOf(job.desired)]
        && w' == w[job.desired.adapter := job.desired.digest.of]
        && exists preview, error :: t'.attempts == t.attempts[op := t.attempts[op].(preview := preview, error := error)]
  {
    OwnerIs(t, op, JobPlace(job), job.desired.generation);
    assert ClaimStep(t, job) == (t, Checking(op));
    if !Deployed(w, job.desired) {
      var u := t.(attempts := t.attempts[op := t.attempts[op].(state := Prepared, preview := None, error := None)]);
      assert HostPass(t, w, job, Checking(op)) == HostPass(u, w, job, Resolving(op));
      HostApplies(u, w, job, op);
      var t' := HostPass(u, w, job, Resolving(op)).0;
      var preview :| t'.attempts == u.attempts[op := u.attempts[op].(preview := preview, state := Applied)];
      assert t'.attempts == t.attempts[op := t.attempts[op].(preview := preview, error := None)];
    }
  }

  /** Rewriting the row of the place for the generation it has, or for a higher one, keeps it settled. */
  lemma SettlesAgain(t: Tables, t': Tables, events: map<string, Desired>, place: Place, d: Desired, op: OperationId)
    requires Settled(t, events, place)
    requires d.eventId in events && events[d.eventId] == d
    requires place in t.resources ==> t.resources[place].generation <= d.generation
    requires t'.applications == map[] && t'.resources == t.resources[place := RowOf(d)]
    requires op in t'.attempts && t'.attempts == t.attempts[op := t'.attempts[op]]
    requires Owns(t', op, place, d.generation) && t'.attempts[op].state.Applied?
    requires op.node == place.node && op.eventId in events && events[op.eventId].generation == d.generation
    requires forall o :: o in t.attempts && o != op ==> t.attempts[o].generation != d.generation
    ensures Settled(t', events, place)
  {
  }

  lemma DeliverSettles(t: Tables, w: World, events: map<string, Desired>, job: Job)
    requires Settled(t, events, JobPlace(job)) && Consistent(events, job.desired.resource)
    requires job.desired.eventId in events && events[job.desired.eventId] == job.desired
    ensures var (t', w') := After(job.node, t, w, Deliver(job.desired));
      Settled(t', events, JobPlace(job)) && Achieves(t, w, t', w', JobPlace(job), job.desired)
  {
    var place, d := JobPlace(job), job.desired;
    if place in t.resources && d.generation < t.resources[place].generation {
      DeliverLower(t, w, job);
    } else if place in t.resources && d.generation == t.resources[place].generation {
      SettlesEqual(t, w, events, job);
    } else {
      SettlesHigher(t, w, events, job);
    }
  }

  lemma SettlesEqual(t: Tables, w: World, events: map<string, Desired>, job: Job)
    requires Settled(t, events, JobPlace(job)) && Consistent(events, job.desired.resource)
    requires job.desired.eventId in events && events[job.desired.eventId] == job.desired
    requires JobPlace(job) in t.resources && t.resources[JobPlace(job)].generation == job.desired.generation
    ensures var (t', w', _) := HostPass(t, w, job, Claiming);
      Settled(t', events, JobPlace(job)) && Achieves(t, w, t', w', JobPlace(job), job.desired)
  {
    var place, d := JobPlace(job), job.desired;
    var op :| Owns(t, op, place, t.resources[place].generation);
    assert SameContent(t.resources[place], d);
    DeliverEqual(t, w, job, op);
    if !Deployed(w, d) {
      var t' := HostPass(t, w, job, Claiming).0;
      var preview, error :| t'.attempts == t.attempts[op := t.attempts[op].(preview := preview, error := error)];
      SettlesAgain(t, t', events, place, d, op);
    }
  }

  lemma SettlesHigher(t: Tables, w: World, events: map<string, Desired>, job: Job)
    requires Settled(t, events, JobPlace(job))
    requires job.desired.eventId in events && events[job.desired.eventId] == job.desired
    requires JobPlace(job) in t.resources ==> t.resources[JobPlace(job)].generation < job.desired.generation
    ensures var (t', w', _) := HostPass(t, w, job, Claiming);
      Settled(t', events, JobPlace(job)) && Achieves(t, w, t', w', JobPlace(job), job.desired)
  {
    var place, d, own := JobPlace(job), job.desired, OwnOperation(job);
    assert forall o :: o in t.attempts ==> t.attempts[o].generation < d.generation;
    DeliverHigher(t, w, job);
    var t' := HostPass(t, w, job, Claiming).0;
    var preview :| t'.attempts == t.attempts[own := Fresh(job).(preview := preview, state := Applied)];
    SettlesAgain(t, t', events, place, d, own);
  }

  ghost predicate Deployable(t: Tables, w: World, place: Place) {
    place in t.resources ==>
      t.resources[place].adapter in w && Sha256(w[t.resources[place].adapter]) == t.resources[place].digest
  }

  /** Every sequence of deliveries and drifts leaves the row at the maximum generation, and without
      a drift the adapter holds that generation's content. */
  lemma {:induction false} Converges(node: string, resource: string, events: map<string, Desired>, w: World, actions: seq<Action>)
    requires Consistent(events, resource) && From(events, actions)
    ensures var (t', w') := AfterAll(node, Tables(map[], map[], map[]), w, actions);
      && Settled(t', events, Place(node, resource))
      && AtTop(t', actions, Place(node, resource))
      && ((forall i :: 0 <= i < |actions| ==> actions[i].Deliver?) ==> Deployable(t', w', Place(node, resource)))
  {
    var place := Place(node, resource);
    if actions == [] {
    } else {
      var before := actions[..|actions| - 1];
      var action := actions[|actions| - 1];
      Converges(node, resource, events, w, before);
      var (t, w1) := AfterAll(node, Tables(map[], map[], map[]), w, before);
      assert actions == before + [action];
      match action
      case Drift(_) => StillAtTop(t, before, actions, place);
      case Deliver(d) =>
        DeliverSettles(t, w1, events, Job(node, d));
        var (t', w') := After(node, t, w1, action);
        NowAtTop(t, w1, t', w', before, d, place, events);
    }
  }

  lemma StillAtTop(t: Tables, before: seq<Action>, actions: seq<Action>, place: Place)
    requires AtTop(t, before, place)
    requires actions != [] && before == actions[..|actions| - 1] && actions[|actions| - 1].Drift?
    ensures AtTop(t, actions, place)
  {
    forall d
      ensures Delivered(before, d) <==> Delivered(actions, d)
    {
      if i :| 0 <= i < |before| && before[i] == Deliver(d) {
        assert actions[i] == Deliver(d);
      }
    }
    if place in t.resources {
      var d :| Highest(before, d) && SameContent(t.resources[place], d) && t.resources[place].generation == d.generation;
      assert Highest(actions, d);
    }
  }

  lemma NowAtTop(t: Tables, w: World, t': Tables, w': World, before: seq<Action>, d: Desired, place: Place, events: map<string, Desired>)
    requires AtTop(t, before, place) && Achieves(t, w, t', w', place, d)
    ensures AtTop(t', before + [Deliver(d)], place)
  {
    var actions := before + [Deliver(d)];
    assert actions[|before|] == Deliver(d);
    forall e
      ensures Delivered(actions, e) <==> Delivered(before, e) || e == d
    {
      if i :| 0 <= i < |before| && before[i] == Deliver(e) {
        assert actions[i] == Deliver(e);
      }
    }
    if place in t.resources {
      var top :| Highest(before, top) && SameContent(t.resources[place], top) && t.resources[place].generation == top.generation;
      if d.generation < top.generation {
        assert Highest(actions, top);
      } else {
        assert Highest(actions, d);
      }
    } else {
      assert Highest(actions, d);
    }
  }

  /** After any history, one more delivery of a maximal event repairs whatever drifted. */
  lemma DriftIsRepaired(node: string, resource: string, events: map<string, Desired>, w: World, actions: seq<Action>, d: Desired)
    requires Consistent(events, resource) && From(events, actions)
    requires d.eventId in events && events[d.eventId] == d
    requires forall e :: Delivered(actions, e) ==> e.generation <= d.generation
    ensures var (t', w') := AfterAll(node, Tables(map[], map[], map[]), w, actions + [Deliver(d)]);
      && Place(node, resource) in t'.resources
      && t'.resources[Place(node, resource)].generation == d.generation
      && SameContent(t'.resources[Place(node, resource)], d)
      && Deployed(w', d)
  {
    var place := Place(node, resource);
    Converges(node, resource, events, w, actions);
    var (t, w1) := AfterAll(node, Tables(map[], map[], map[]), w, actions);
    assert (actions + [Deliver(d)])[..|actions|] == actions;
    DeliverSettles(t, w1, events, Job(node, d));
  }
}
