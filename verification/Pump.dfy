/** What one call of the delivery pump does to its own fields and to the store
    (anvil_events/runtime/delivery.py). Clock readings and broker answers are parameters. */
module Pump {
  import opened Basics
  import opened StoreTables
  import opened StoreRuns
  import opened Delivery

  datatype Backoff = Backoff(failures: nat, nextAt: int)

  datatype Pump = Pump(
    retry: map<string, Backoff>,
    seen: set<string>,
    position: Option<nat>,
    sleepUntil: Option<int>,
    sleepSignature: Option<(nat, nat)>)

  function Started(): Pump {
    Pump(map[], {}, None, None, None)
  }

  /** The events whose next attempt is not due. */
  function Blocked(retry: map<string, Backoff>, now: int): set<string> {
    set id | id in retry && now < retry[id].nextAt
  }

  // ---------------------------------------------------------------------------------
  // The earliest next attempt
  // ---------------------------------------------------------------------------------

  ghost predicate IsEarliest(retry: map<string, Backoff>, id: string) {
    id in retry && forall other :: other in retry ==> retry[id].nextAt <= retry[other].nextAt
  }

  lemma {:induction false} EarliestExists(retry: map<string, Backoff>)
    requires retry != map[]
    ensures exists id :: IsEarliest(retry, id)
    decreases |retry|
  {
    var id :| id in retry;
    var rest := retry - {id};
    if rest != map[] {
      assert |rest.Keys| < |retry.Keys| by {
        assert rest.Keys == retry.Keys - {id};
      }
      EarliestExists(rest);
      var other :| IsEarliest(rest, other);
      var best := if retry[other].nextAt < retry[id].nextAt then other else id;
      forall x | x in retry
        ensures retry[best].nextAt <= retry[x].nextAt
      {
        assert x == id || x in rest;
      }
      assert IsEarliest(retry, best);
    } else {
      assert forall other :: other in retry ==> other == id || other in rest;
      assert IsEarliest(retry, id);
    }
  }

  ghost function Earliest(retry: map<string, Backoff>): (when: int)
    requires retry != map[]
    ensures exists id :: id in retry && retry[id].nextAt == when
    ensures forall id :: id in retry ==> when <= retry[id].nextAt
  {
    EarliestExists(retry);
    var id :| IsEarliest(retry, id);
    retry[id].nextAt
  }

  // ---------------------------------------------------------------------------------
  // Calls
  // ---------------------------------------------------------------------------------

  /** What a selection does to the pump. */
  ghost function Adopted(p: Pump, r: Selection): Pump {
    var sleeps := r.selected == [] && r.eof && p.retry != map[];
    Pump(p.retry,
         if r.eof then {} else r.seen,
         if r.repaired > 0 || r.eof then None else r.position,
         if sleeps then Some(Earliest(p.retry)) else p.sleepUntil,
         if sleeps then r.signature else p.sleepSignature)
  }

  /** `pending_batch`. */
  ghost function SelectBatch(p: Pump, s: Store, max: nat, now: int, wall: int): (Pump, seq<Event>, Store)
    requires max > 0 && Sane(s)
  {
    var r := SelectOf(s, max, p.seen, Blocked(p.retry, now), p.position, 4 * max, wall);
    (Adopted(p, r), r.selected, r.store)
  }

  function Power(n: nat): nat {
    if n == 0 then 1 else 2 * Power(n - 1)
  }

  function Least(a: nat, b: nat): nat {
    if a < b then a else b
  }

  function Delay(failures: nat): nat {
    Least(60, Power(Least(failures, 6)))
  }

  /** The delay doubles with each failure up to a minute. */
  lemma DelayDoubles(failures: nat)
    ensures Delay(failures) == if failures == 0 then 1 else Least(60, 2 * Delay(failures - 1))
  {
    assert Power(6) == 2 * Power(5) == 64;
    if 0 < failures < 6 {
      PowerBound(failures);
    }
  }

  lemma {:induction false} PowerBound(n: nat)
    requires n < 6
    ensures Power(n) <= 32
  {
    assert Power(0) == 1 && Power(1) == 2 && Power(2) == 4 && Power(3) == 8 && Power(4) == 16 && Power(5) == 32;
    assert n == 0 || n == 1 || n == 2 || n == 3 || n == 4 || n == 5;
  }

  /** Publishing and recording the broker's answer; `None` is a publish that raised. */
  function Published(s: Store, e: Event, ack: Option<PubAck>, stream: string, wall: int): Result<Store, StoreError> {
    match ack
    case None => Failure(BadEvidence)
    case Some(a) => if a.stream != stream then Failure(BadEvidence) else RecordPuback(s, e, a, wall)
  }

  function Failures(retry: map<string, Backoff>, id: string): nat {
    if id in retry then retry[id].failures else 0
  }

  function BackOff(p: Pump, id: string, now: int): Pump {
    var failures := Failures(p.retry, id) + 1;
    p.(seen := p.seen - {id}, retry := p.retry[id := Backoff(failures, now + Delay(failures))])
  }

  /** One event of a batch. */
  function Try(p: Pump, s: Store, e: Event, ack: Option<PubAck>, stream: string, now: int, wall: int): (Pump, Store) {
    if e.id in Blocked(p.retry, now) then (p, s)
    else
      match Published(s, e, ack, stream, wall)
      case Success(s') => (p.(retry := p.retry - {e.id}), s')
      case Failure(_) => (BackOff(p, e.id, now), s)
  }

  /** The end of `deliver`. */
  ghost function Settle(p: Pump, attempted: bool): Pump {
    var p1 := if attempted then p.(position := None) else p;
    if p.retry != map[] then p1.(sleepUntil := Some(Earliest(p.retry))) else p1.(sleepUntil := None, sleepSignature := None)
  }

  datatype Tally = Tally(attempted: nat, failed: nat)

  /** The first `n` events of a batch. */
  function TryFirst(p: Pump, s: Store, batch: seq<Event>, acks: seq<Option<PubAck>>, n: nat, stream: string, now: int, wall: int)
    : (Pump, Store, Tally)
    requires n <= |batch| == |acks|
  {
    if n == 0 then (p, s, Tally(0, 0))
    else
      var (p1, s1, tally) := TryFirst(p, s, batch, acks, n - 1, stream, now, wall);
      var e := batch[n - 1];
      var (p2, s2) := Try(p1, s1, e, acks[n - 1], stream, now, wall);
      var attempted := e.id !in Blocked(p1.retry, now);
      (p2, s2, Counted(tally, attempted, attempted && Published(s1, e, acks[n - 1], stream, wall).Failure?))
  }

  function Counted(tally: Tally, attempted: bool, failed: bool): Tally {
    Tally(tally.attempted + (if attempted then 1 else 0), tally.failed + (if failed then 1 else 0))
  }

  lemma TryNext(p: Pump, s: Store, batch: seq<Event>, acks: seq<Option<PubAck>>, n: nat, stream: string, now: int, wall: int)
    requires n < |batch| == |acks|
    ensures var (p1, s1, tally) := TryFirst(p, s, batch, acks, n, stream, now, wall);
      var attempted := batch[n].id !in Blocked(p1.retry, now);
      TryFirst(p, s, batch, acks, n + 1, stream, now, wall)
      == (Try(p1, s1, batch[n], acks[n], stream, now, wall).0, Try(p1, s1, batch[n], acks[n], stream, now, wall).1,
          Counted(tally, attempted, attempted && Published(s1, batch[n], acks[n], stream, wall).Failure?))
  {
  }

  /** `deliver`. */
  ghost function Deliver(p: Pump, s: Store, batch: seq<Event>, acks: seq<Option<PubAck>>, stream: string, now: int, wall: int)
    : (Pump, Store, Tally)
    requires |batch| == |acks|
  {
    var (p1, s1, tally) := TryFirst(p, s, batch, acks, |batch|, stream, now, wall);
    (Settle(p1, tally.attempted > 0), s1, tally)
  }

  /** What `run` does when connecting or delivering raises. */
  function GiveUp(p: Pump, batch: seq<Event>): Pump {
    p.(seen := p.seen - Ids(batch), position := None)
  }

  function Awake(p: Pump): Pump {
    p.(sleepUntil := None, sleepSignature := None)
  }

  /** `_wait_for_retry_or_new_work`: the answer says whether to keep waiting. */
  function Wait(p: Pump, signature: (nat, nat), now: int): (Pump, bool) {
    if p.sleepUntil.None? then (p, false)
    else if p.sleepUntil.value - now <= 0 then (Awake(p), false)
    else if p.seen != {} || p.sleepSignature.None? then (p, false)
    else if Some(signature) == p.sleepSignature then (p, true)
    else (Awake(p), false)
  }

  /** One turn of `run`: the clock readings, where the selection raises, after how many events an
      exception escapes from connecting (0) or delivering, and what the broker answers. */
  datatype Turn = Turn(woke: int, selecting: int, delivering: int, wall: int, fault: Fault, broken: Option<nat>,
                       broker: string -> Option<PubAck>)

  function AnswersTo(batch: seq<Event>, broker: string -> Option<PubAck>): seq<Option<PubAck>> {
    seq(|batch|, i requires 0 <= i < |batch| => broker(batch[i].id))
  }

  const BATCH := 16

  /** The selection of a turn. */
  ghost function Selecting(p: Pump, s: Store, turn: Turn): Selection
    requires Sane(s)
  {
    SelectOf(s, BATCH, p.seen, Blocked(p.retry, turn.selecting), p.position, 4 * BATCH, turn.wall)
  }

  ghost function DeliverTurn(p: Pump, s: Store, batch: seq<Event>, turn: Turn, stream: string): (Pump, Store) {
    var acks := AnswersTo(batch, turn.broker);
    match turn.broken
    case Some(n) =>
      var (p', s', _) := TryFirst(p, s, batch, acks, Least(n, |batch|), stream, turn.delivering, turn.wall);
      (GiveUp(p', batch), s')
    case None =>
      var (p', s', _) := Deliver(p, s, batch, acks, stream, turn.delivering, turn.wall);
      (p', s')
  }

  /** A turn that does not keep waiting. */
  ghost function WorkTurn(p: Pump, s: Store, turn: Turn, stream: string): (Pump, Store)
    requires Sane(s)
  {
    var r := Selecting(p, s, turn);
    if Raises(turn.fault, r) then (GiveUp(p.(seen := MarkedBy(turn.fault, p.seen, r)), []), LeftBy(turn.fault, s, r))
    else if r.selected == [] then (Adopted(p, r), r.store)
    else DeliverTurn(Adopted(p, r), r.store, r.selected, turn, stream)
  }

  /** One turn of `run` on sane tables. */
  ghost function TurnOf(p: Pump, s: Store, turn: Turn, stream: string): (Pump, Store) {
    var (p1, stay) := Wait(p, Signature(s), turn.woke);
    if stay || !Sane(s) then (p1, s) else WorkTurn(p1, s, turn, stream)
  }

  /** `run`, stopped after these turns. */
  ghost function RunOf(p: Pump, s: Store, turns: seq<Turn>, stream: string): (Pump, Store) {
    if turns == [] then (p, s)
    else
      var (p', s') := RunOf(p, s, turns[..|turns| - 1], stream);
      TurnOf(p', s', turns[|turns| - 1], stream)
  }
}
