/** `put` is a join: any order and any repetition of a consistent set of puts gives the same store
    up to row ids, times and quarantine records; an inconsistent set is rejected in every order
    (anvil_events/storage/events.py:55-143, anvil_events/storage/migration.py:211-217). */
module StoreJoin {
  import opened Basics
  import Identity
  import opened StoreTables

  // ---------------------------------------------------------------------------------
  // Rows
  // ---------------------------------------------------------------------------------

  predicate RowOk(row: Row, id: string, sequences: map<string, int>) {
    var e := row.event;
    e.id == id && Valid(e) && e.producer in sequences && e.number <= sequences[e.producer]
  }

  /** Every row carries a valid envelope under its own id, with its sequence number accounted for. */
  ghost predicate RowsInv(s: Store) {
    && NonNegative(s.sequences)
    && (forall id :: id in s.events ==> RowOk(s.events[id], id, s.sequences))
  }

  lemma OneIdPerNumber(a: Event, b: Event)
    requires Valid(a) && Valid(b) && a.producer == b.producer && a.number == b.number
    ensures a.id == b.id
  {
  }

  /** The sequence-collision branch of `put` cannot be taken: an id encodes its sequence number. */
  lemma NoSequenceCollision(s: Store, e: Event)
    requires RowsInv(s) && Valid(e) && e.id !in s.events
    ensures !SequenceTaken(s, e)
  {
    if id :| id in s.events && s.events[id].event.producer == e.producer && s.events[id].event.number == e.number {
      assert RowOk(s.events[id], id, s.sequences);
      OneIdPerNumber(s.events[id].event, e);
    }
  }

  predicate Fits(s: Store, e: Event) {
    Valid(e) && (e.id in s.events ==> s.events[e.id].event == e)
  }

  /** A put succeeds exactly for a valid envelope that does not contradict a stored one. */
  lemma PutFits(s: Store, e: Event, role: Option<Role>, journaled: bool, now: int)
    requires RowsInv(s)
    ensures Put(s, e, role, journaled, now).Success? <==> Fits(s, e)
    ensures Put(s, e, role, journaled, now).Failure? ==>
              Put(s, e, role, journaled, now).error in {InvalidEvent, IdentityCollision}
  {
    if Valid(e) && e.id !in s.events {
      NoSequenceCollision(s, e);
    }
  }

  /** The row that a fitting put leaves behind. */
  function RowAfter(s: Store, e: Event, role: Option<Role>, journaled: bool, now: int): Row {
    if e.id in s.events then PutOn(s.events[e.id], role, journaled, now) else NewRow(s, e, role, journaled, now)
  }

  lemma PutShape(s: Store, e: Event, role: Option<Role>, journaled: bool, now: int)
    requires Put(s, e, role, journaled, now).Success?
    ensures var s' := Put(s, e, role, journaled, now).value.0;
      && s'.events == s.events[e.id := RowAfter(s, e, role, journaled, now)]
      && s'.sequences == Sequenced(s.sequences, e.producer, e.number)
  {
  }

  lemma RowsKept(s: Store, s': Store, e: Event, row: Row)
    requires RowsInv(s) && Valid(e) && row.event == e
    requires s'.events == s.events[e.id := row] && s'.sequences == Sequenced(s.sequences, e.producer, e.number)
    ensures RowsInv(s')
  {
    forall id | id in s'.events
      ensures RowOk(s'.events[id], id, s'.sequences)
    {
      if id != e.id {
        assert RowOk(s.events[id], id, s.sequences);
      }
    }
  }

  lemma PutKeepsRows(s: Store, e: Event, role: Option<Role>, journaled: bool, now: int)
    requires RowsInv(s) && Fits(s, e)
    ensures Put(s, e, role, journaled, now).Success?
    ensures var s' := Put(s, e, role, journaled, now).value.0;
      && RowsInv(s')
      && s'.events == s.events[e.id := RowAfter(s, e, role, journaled, now)]
      && s'.sequences == Sequenced(s.sequences, e.producer, e.number)
  {
    PutFits(s, e, role, journaled, now);
    PutShape(s, e, role, journaled, now);
    RowsKept(s, Put(s, e, role, journaled, now).value.0, e, RowAfter(s, e, role, journaled, now));
  }

  /** The next sequence number is always fresh, so `emit` of a sound draft always inserts. */
  lemma EmitIsFresh(s: Store, d: Draft)
    requires RowsInv(s)
    ensures var e := Envelope(d, LastSequence(s, d.producer) + 1);
      && e.id !in s.events && e.number >= 1 && (d.sound ==> Valid(e))
  {
    var e := Envelope(d, LastSequence(s, d.producer) + 1);
    if e.id in s.events {
      var stored := s.events[e.id].event;
      Identity.EventIdInjective(stored.producer, stored.number, e.producer, e.number);
    }
  }

  lemma EmitSucceeds(s: Store, d: Draft, now: int)
    requires RowsInv(s)
    ensures Emit(s, d, now).Success? <==> d.sound
    ensures d.sound ==> var (s', e) := Emit(s, d, now).value;
      && e == Envelope(d, LastSequence(s, d.producer) + 1)
      && e.id !in s.events
      && s'.events == s.events[e.id := NewRow(s, e, Some(Pending), false, now)]
      && s'.counter == s.counter + 1
  {
    EmitIsFresh(s, d);
    if d.sound {
      NoSequenceCollision(s, Envelope(d, LastSequence(s, d.producer) + 1));
    }
  }

  // ---------------------------------------------------------------------------------
  // The join
  // ---------------------------------------------------------------------------------

  datatype PutArg = PutArg(event: Event, role: Option<Role>, journaled: bool)

  function PutAll(s: Store, puts: seq<PutArg>, now: int): Result<Store, StoreError> {
    if puts == [] then Success(s)
    else
      match PutAll(s, puts[..|puts| - 1], now)
      case Failure(e) => Failure(e)
      case Success(s') =>
        var last := puts[|puts| - 1];
        match Put(s', last.event, last.role, last.journaled, now)
        case Failure(e) => Failure(e)
        case Success((s'', _)) => Success(s'')
  }

  function Members(puts: seq<PutArg>): set<PutArg> {
    set p | p in puts
  }

  /** None below pending below acked. */
  function Rank(role: Option<Role>): int {
    match role
    case None => 0
    case Some(Pending) => 1
    case Some(Acked) => 2
  }

  lemma NewRoleIsJoin(was: Option<Role>, role: Option<Role>)
    ensures Rank(NewRole(was, role)) == Max(Rank(was), Rank(role))
  {
  }

  /** All envelopes are valid, and no id has two of them, stored ones included. */
  ghost predicate Agree(s: Store, puts: set<PutArg>) {
    && (forall p :: p in puts ==> Fits(s, p.event))
    && (forall p, q :: p in puts && q in puts && p.event.id == q.event.id ==> p.event == q.event)
  }

  function StoredRole(s: Store, id: string): Option<Role> {
    if id in s.events then s.events[id].role else None
  }

  function StoredJournaled(s: Store, id: string): bool {
    id in s.events && s.events[id].journaled
  }

  ghost predicate Puts(puts: set<PutArg>, id: string) {
    exists p :: p in puts && p.event.id == id
  }

  /** The row of `id` is the least upper bound of what was stored and of the puts for that id. */
  ghost predicate RowJoined(s: Store, puts: set<PutArg>, s': Store, id: string) {
    && (id in s'.events <==> id in s.events || Puts(puts, id))
    && (id in s.events ==> s'.events[id].event == s.events[id].event)
    && (forall p :: p in puts && p.event.id == id ==>
          s'.events[id].event == p.event && Rank(p.role) <= Rank(StoredRole(s', id))
          && (p.journaled ==> StoredJournaled(s', id)))
    && Rank(StoredRole(s, id)) <= Rank(StoredRole(s', id))
    && (StoredJournaled(s, id) ==> StoredJournaled(s', id))
    && (StoredRole(s', id) == StoredRole(s, id)
        || exists p :: p in puts && p.event.id == id && p.role == StoredRole(s', id))
    && (StoredJournaled(s', id) ==>
          StoredJournaled(s, id) || exists p :: p in puts && p.event.id == id && p.journaled)
    && (id in s'.events ==>
          s'.events[id].damaged == if Puts(puts, id) || id !in s.events then None else s.events[id].damaged)
  }

  /** Likewise for the last sequence number of a producer. */
  ghost predicate SequenceJoined(s: Store, puts: set<PutArg>, s': Store, producer: string) {
    && (producer in s'.sequences <==> producer in s.sequences || exists p :: p in puts && p.event.producer == producer)
    && (producer in s.sequences ==> s.sequences[producer] <= s'.sequences[producer])
    && (forall p :: p in puts && p.event.producer == producer ==> p.event.number <= s'.sequences[producer])
    && (producer in s'.sequences ==>
          (producer in s.sequences && s'.sequences[producer] == s.sequences[producer])
          || exists p :: p in puts && p.event.producer == producer && p.event.number == s'.sequences[producer])
  }

  ghost predicate Joined(s: Store, puts: set<PutArg>, s': Store) {
    && (forall id :: RowJoined(s, puts, s', id))
    && (forall producer :: SequenceJoined(s, puts, s', producer))
  }

  lemma JoinOtherRow(s: Store, puts: set<PutArg>, s1: Store, p: PutArg, s2: Store, id: string)
    requires RowJoined(s, puts, s1, id) && id != p.event.id
    requires id in s2.events <==> id in s1.events
    requires id in s1.events ==> s2.events[id] == s1.events[id]
    ensures RowJoined(s, puts + {p}, s2, id)
  {
    forall q
      ensures q in puts + {p} && q.event.id == id <==> q in puts && q.event.id == id
    {
    }
    if q :| q in puts && q.event.id == id {
      assert q in puts + {p};
    }
    if q :| q in puts && q.event.id == id && q.role == StoredRole(s1, id) {
      assert q in puts + {p};
    }
    if q :| q in puts && q.event.id == id && q.journaled {
      assert q in puts + {p};
    }
    assert Puts(puts + {p}, id) <==> Puts(puts, id);
  }

  lemma JoinSameRow(s: Store, puts: set<PutArg>, s1: Store, p: PutArg, now: int, s2: Store)
    requires RowJoined(s, puts, s1, p.event.id) && Fits(s1, p.event)
    requires p.event.id in s2.events && s2.events[p.event.id] == RowAfter(s1, p.event, p.role, p.journaled, now)
    ensures RowJoined(s, puts + {p}, s2, p.event.id)
  {
    var id := p.event.id;
    NewRoleIsJoin(StoredRole(s1, id), p.role);
    assert p in puts + {p};
    assert StoredRole(s2, id) == NewRole(StoredRole(s1, id), p.role);
    if q :| q in puts && q.event.id == id && q.role == StoredRole(s1, id) {
      assert q in puts + {p};
    }
    if q :| q in puts && q.event.id == id && q.journaled {
      assert q in puts + {p};
    }
    assert Puts(puts + {p}, id);
    forall q | q in puts + {p} && q.event.id == id
      ensures s2.events[id].event == q.event && Rank(q.role) <= Rank(StoredRole(s2, id))
      ensures q.journaled ==> StoredJournaled(s2, id)
    {
      if q != p {
        assert q in puts;
      }
    }
  }

  lemma JoinOneSequence(s: Store, puts: set<PutArg>, s1: Store, p: PutArg, s2: Store, producer: string)
    requires SequenceJoined(s, puts, s1, producer)
    requires s2.sequences == Sequenced(s1.sequences, p.event.producer, p.event.number)
    ensures SequenceJoined(s, puts + {p}, s2, producer)
  {
    assert p in puts + {p};
    if q :| q in puts && q.event.producer == producer {
      assert q in puts + {p};
    }
    if producer in s1.sequences {
      if q :| q in puts && q.event.producer == producer && q.event.number == s1.sequences[producer] {
        assert q in puts + {p};
      }
    }
  }

  lemma JoinOne(s: Store, puts: set<PutArg>, s1: Store, p: PutArg, now: int)
    requires RowsInv(s1) && Fits(s1, p.event) && Joined(s, puts, s1)
    ensures Joined(s, puts + {p}, Put(s1, p.event, p.role, p.journaled, now).value.0)
  {
    PutKeepsRows(s1, p.event, p.role, p.journaled, now);
    var s2 := Put(s1, p.event, p.role, p.journaled, now).value.0;
    forall id
      ensures RowJoined(s, puts + {p}, s2, id)
    {
      assert RowJoined(s, puts, s1, id);
      if id == p.event.id {
        JoinSameRow(s, puts, s1, p, now, s2);
      } else {
        JoinOtherRow(s, puts, s1, p, s2, id);
      }
    }
    forall producer
      ensures SequenceJoined(s, puts + {p}, s2, producer)
    {
      assert SequenceJoined(s, puts, s1, producer);
      JoinOneSequence(s, puts, s1, p, s2, producer);
    }
  }

  /** Putting everything succeeds exactly if all agree, and then gives the join. */
  lemma {:induction false} PutAllJoins(s: Store, puts: seq<PutArg>, now: int)
    requires RowsInv(s)
    ensures PutAll(s, puts, now).Success? <==> Agree(s, Members(puts))
    ensures PutAll(s, puts, now).Success? ==>
              RowsInv(PutAll(s, puts, now).value) && Joined(s, Members(puts), PutAll(s, puts, now).value)
  {
    if puts == [] {
      assert Members(puts) == {};
    } else {
      var front, p := puts[..|puts| - 1], puts[|puts| - 1];
      PutAllJoins(s, front, now);
      assert puts == front + [p];
      assert Members(puts) == Members(front) + {p};
      if PutAll(s, front, now).Success? {
        var s1 := PutAll(s, front, now).value;
        PutFits(s1, p.event, p.role, p.journaled, now);
        OneMoreAgrees(s, Members(front), s1, p);
        if Fits(s1, p.event) {
          PutKeepsRows(s1, p.event, p.role, p.journaled, now);
          JoinOne(s, Members(front), s1, p, now);
        }
      } else {
        assert Members(front) <= Members(puts);
      }
    }
  }

  lemma OneMoreAgrees(s: Store, puts: set<PutArg>, s1: Store, p: PutArg)
    requires Agree(s, puts) && Joined(s, puts, s1)
    ensures Fits(s1, p.event) <==> Agree(s, puts + {p})
  {
    assert RowJoined(s, puts, s1, p.event.id);
    if Agree(s, puts + {p}) {
      assert p in puts + {p};
      if Puts(puts, p.event.id) {
        var q :| q in puts && q.event.id == p.event.id;
        assert q in puts + {p};
      }
    }
    if Fits(s1, p.event) {
      forall q | q in puts && q.event.id == p.event.id
        ensures q.event == p.event
      {
        assert s1.events[q.event.id].event == q.event;
      }
    }
  }

  /** What a store amounts to, leaving out row ids, times, acknowledgement evidence and quarantine. */
  ghost predicate SameView(a: Store, b: Store) {
    && a.events.Keys == b.events.Keys
    && (forall id :: id in a.events ==>
          && a.events[id].event == b.events[id].event && a.events[id].role == b.events[id].role
          && a.events[id].journaled == b.events[id].journaled && a.events[id].damaged == b.events[id].damaged)
    && a.sequences == b.sequences
  }

  lemma JoinIsUnique(s: Store, puts: set<PutArg>, a: Store, b: Store)
    requires Joined(s, puts, a) && Joined(s, puts, b)
    ensures SameView(a, b)
  {
    forall id
      ensures (id in a.events <==> id in b.events) && StoredRole(a, id) == StoredRole(b, id)
              && StoredJournaled(a, id) == StoredJournaled(b, id)
      ensures id in a.events && id in b.events ==>
                a.events[id].event == b.events[id].event && a.events[id].damaged == b.events[id].damaged
    {
      assert RowJoined(s, puts, a, id) && RowJoined(s, puts, b, id);
    }
    forall producer
      ensures (producer in a.sequences <==> producer in b.sequences)
              && (producer in a.sequences ==> a.sequences[producer] == b.sequences[producer])
    {
      assert SequenceJoined(s, puts, a, producer) && SequenceJoined(s, puts, b, producer);
    }
    assert a.sequences == b.sequences;
  }

  /** Order and repetition of puts do not matter: not to whether they are accepted, nor to the result. */
  lemma PutsAreOrderFree(s: Store, one: seq<PutArg>, other: seq<PutArg>, now: int, later: int)
    requires RowsInv(s) && Members(one) == Members(other)
    ensures PutAll(s, one, now).Success? <==> PutAll(s, other, later).Success?
    ensures PutAll(s, one, now).Success? ==> SameView(PutAll(s, one, now).value, PutAll(s, other, later).value)
  {
    PutAllJoins(s, one, now);
    PutAllJoins(s, other, later);
    if PutAll(s, one, now).Success? {
      JoinIsUnique(s, Members(one), PutAll(s, one, now).value, PutAll(s, other, later).value);
    }
  }
}
