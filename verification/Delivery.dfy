/** Selecting pending work (anvil_events/storage/delivery.py): one bounded scan in row order, and
    the sweep of scans until the end of the pending rows. */
module Delivery {
  import opened Basics
  import opened StoreTables
  import opened StoreJoin
  import opened StoreRuns

  // ---------------------------------------------------------------------------------
  // Pending rows in row order
  // ---------------------------------------------------------------------------------

  /** Row ids are a primary key, handed out in increasing order. */
  ghost predicate RowIds(s: Store) {
    && s.nextRow > 0
    && (forall id :: id in s.events ==> 0 < s.events[id].rowId < s.nextRow)
    && (forall a, b :: a in s.events && b in s.events && a != b ==> s.events[a].rowId != s.events[b].rowId)
  }

  ghost predicate PendingAt(s: Store, id: string, k: nat) {
    id in s.events && s.events[id].rowId == k && s.events[id].role == Some(Pending)
  }

  /** The pending rows with row id at least `k`, in order. */
  ghost function PendingFrom(s: Store, k: nat): seq<Row>
    decreases s.nextRow - k
  {
    if k >= s.nextRow then []
    else if id :| PendingAt(s, id, k) then [s.events[id]] + PendingFrom(s, k + 1)
    else PendingFrom(s, k + 1)
  }

  ghost predicate Ascending(rows: seq<Row>) {
    forall i, j :: 0 <= i < j < |rows| ==> rows[i].rowId < rows[j].rowId
  }

  ghost predicate DistinctEvents(rows: seq<Row>) {
    forall i, j :: 0 <= i < j < |rows| ==> rows[i].event.id != rows[j].event.id
  }

  ghost predicate InStore(s: Store, row: Row) {
    row.event.id in s.events && s.events[row.event.id] == row && row.role == Some(Pending)
  }

  lemma {:induction false} PendingFacts(s: Store, k: nat)
    requires RowsInv(s) && RowIds(s)
    ensures Ascending(PendingFrom(s, k))
    ensures forall i :: 0 <= i < |PendingFrom(s, k)| ==> InStore(s, PendingFrom(s, k)[i]) && k <= PendingFrom(s, k)[i].rowId < s.nextRow
    decreases s.nextRow - k
  {
    if k >= s.nextRow {
    } else {
      PendingFacts(s, k + 1);
      if id :| PendingAt(s, id, k) {
        assert RowOk(s.events[id], id, s.sequences);
      }
    }
  }

  lemma {:induction false} PendingComplete(s: Store, k: nat, id: string)
    requires RowsInv(s) && RowIds(s) && id in s.events && s.events[id].role == Some(Pending) && k <= s.events[id].rowId
    ensures s.events[id] in PendingFrom(s, k)
    decreases s.nextRow - k
  {
    if s.events[id].rowId == k {
      assert PendingAt(s, id, k);
    } else {
      PendingComplete(s, k + 1, id);
    }
  }

  lemma PendingDistinct(s: Store, k: nat)
    requires RowsInv(s) && RowIds(s)
    ensures DistinctEvents(PendingFrom(s, k))
  {
    PendingFacts(s, k);
    var rows := PendingFrom(s, k);
    forall i, j | 0 <= i < j < |rows|
      ensures rows[i].event.id != rows[j].event.id
    {
      assert InStore(s, rows[i]) && InStore(s, rows[j]);
    }
  }

  // ---------------------------------------------------------------------------------
  // One scan
  // ---------------------------------------------------------------------------------

  datatype Scanned = Scanned(selected: seq<Event>, seen: set<string>, count: nat, invalid: bool, full: bool)

  /** Walk the rows until `max` events are selected; `blocked` events are not eligible. */
  function Scan(rows: seq<Row>, seen: set<string>, max: nat, blocked: set<string>): Scanned
    requires max > 0
  {
    if rows == [] then Scanned([], seen, 0, false, false)
    else
      var row := rows[0];
      if row.damaged.Some? || row.event.id in blocked || row.event.id in seen then
        var r := Scan(rows[1..], seen, max, blocked);
        r.(count := r.count + 1, invalid := r.invalid || row.damaged.Some?)
      else if max == 1 then Scanned([row.event], seen + {row.event.id}, 1, false, true)
      else
        var r := Scan(rows[1..], seen + {row.event.id}, max - 1, blocked);
        r.(selected := [row.event] + r.selected, count := r.count + 1)
  }

  predicate Wanted(row: Row, seen: set<string>, blocked: set<string>) {
    row.damaged.None? && row.event.id !in blocked && row.event.id !in seen
  }

  /** The events of intact, eligible, unseen rows, in order. */
  function Fresh(rows: seq<Row>, seen: set<string>, blocked: set<string>): seq<Event> {
    if rows == [] then []
    else (if Wanted(rows[0], seen, blocked) then [rows[0].event] else []) + Fresh(rows[1..], seen, blocked)
  }

  function Ids(events: seq<Event>): set<string> {
    set e | e in events :: e.id
  }

  /** Having seen one more id does not matter to rows of other events. */
  lemma {:induction false} FreshIgnores(rows: seq<Row>, seen: set<string>, id: string, blocked: set<string>)
    requires forall i :: 0 <= i < |rows| ==> rows[i].event.id != id
    ensures Fresh(rows, seen + {id}, blocked) == Fresh(rows, seen, blocked)
  {
    if rows == [] {
    } else {
      FreshIgnores(rows[1..], seen, id, blocked);
    }
  }

  lemma {:induction false} ScanCounts(rows: seq<Row>, seen: set<string>, max: nat, blocked: set<string>)
    requires max > 0
    ensures var r := Scan(rows, seen, max, blocked);
      && r.count <= |rows| && (rows != [] ==> r.count > 0)
      && (r.full ==> |r.selected| == max) && (!r.full ==> r.count == |rows| && |r.selected| < max)
  {
    if rows == [] {
    } else {
      if !Wanted(rows[0], seen, blocked) {
        ScanCounts(rows[1..], seen, max, blocked);
      } else if max > 1 {
        ScanCounts(rows[1..], seen + {rows[0].event.id}, max - 1, blocked);
      }
    }
  }

  lemma {:induction false} ScanMarks(rows: seq<Row>, seen: set<string>, max: nat, blocked: set<string>)
    requires max > 0
    ensures var r := Scan(rows, seen, max, blocked); r.seen == seen + Ids(r.selected)
  {
    if rows == [] {
      assert Ids([]) == {};
    } else {
      var row, rest := rows[0], rows[1..];
      if !Wanted(row, seen, blocked) {
        ScanMarks(rest, seen, max, blocked);
      } else if max > 1 {
        ScanMarks(rest, seen + {row.event.id}, max - 1, blocked);
        var q := Scan(rest, seen + {row.event.id}, max - 1, blocked);
        assert Ids([row.event] + q.selected) == {row.event.id} + Ids(q.selected);
      } else {
        assert Ids([row.event]) == {row.event.id};
      }
    }
  }

  lemma {:induction false} ScanSelects(rows: seq<Row>, seen: set<string>, max: nat, blocked: set<string>)
    requires max > 0 && DistinctEvents(rows)
    ensures var r := Scan(rows, seen, max, blocked);
      r.count <= |rows| && r.selected == Fresh(rows[..r.count], seen, blocked)
  {
    ScanCounts(rows, seen, max, blocked);
    if rows == [] {
    } else {
      var row, rest := rows[0], rows[1..];
      var r := Scan(rows, seen, max, blocked);
      ScanHead(rows, r.count, seen, blocked);
      if !Wanted(row, seen, blocked) {
        ScanSelects(rest, seen, max, blocked);
      } else if max > 1 {
        ScanSelects(rest, seen + {row.event.id}, max - 1, blocked);
        var q := Scan(rest, seen + {row.event.id}, max - 1, blocked);
        FreshIgnores(rest[..q.count], seen, row.event.id, blocked);
      } else {
        assert rest[..0] == [];
      }
    }
  }

  lemma {:induction false} ScanFinds(rows: seq<Row>, seen: set<string>, max: nat, blocked: set<string>)
    requires max > 0
    ensures var r := Scan(rows, seen, max, blocked);
      r.count <= |rows| && (r.invalid <==> exists i :: 0 <= i < r.count && rows[i].damaged.Some?)
  {
    ScanCounts(rows, seen, max, blocked);
    if rows == [] {
    } else {
      var row, rest := rows[0], rows[1..];
      var r := Scan(rows, seen, max, blocked);
      DamageHead(rows, r.count);
      if !Wanted(row, seen, blocked) {
        ScanFinds(rest, seen, max, blocked);
      } else if max > 1 {
        ScanFinds(rest, seen + {row.event.id}, max - 1, blocked);
      }
    }
  }

  lemma DamageHead(rows: seq<Row>, count: nat)
    requires 0 < count <= |rows|
    ensures (exists i :: 0 <= i < count && rows[i].damaged.Some?) <==>
              rows[0].damaged.Some? || exists i :: 0 <= i < count - 1 && rows[1..][i].damaged.Some?
  {
    if i :| 0 <= i < count && rows[i].damaged.Some? {
      if i > 0 {
        assert rows[1..][i - 1].damaged.Some?;
      }
    }
    if i :| 0 <= i < count - 1 && rows[1..][i].damaged.Some? {
      assert rows[i + 1].damaged.Some?;
    }
  }

  lemma ScanHead(rows: seq<Row>, count: nat, seen: set<string>, blocked: set<string>)
    requires 0 < count <= |rows|
    ensures Fresh(rows[..count], seen, blocked)
         == (if Wanted(rows[0], seen, blocked) then [rows[0].event] else []) + Fresh(rows[1..][..count - 1], seen, blocked)
  {
    assert rows[..count][1..] == rows[1..][..count - 1];
  }

  // ---------------------------------------------------------------------------------
  // Parts of the list of pending rows
  // ---------------------------------------------------------------------------------

  lemma {:induction false} FreshAppend(a: seq<Row>, b: seq<Row>, seen: set<string>, blocked: set<string>)
    ensures Fresh(a + b, seen, blocked) == Fresh(a, seen, blocked) + Fresh(b, seen, blocked)
  {
    if a == [] {
      assert a + b == b;
    } else {
      var head := if Wanted(a[0], seen, blocked) then [a[0].event] else [];
      FreshAppend(a[1..], b, seen, blocked);
      assert (a + b)[1..] == a[1..] + b && (a + b)[0] == a[0];
      assert head + (Fresh(a[1..], seen, blocked) + Fresh(b, seen, blocked)) == head + Fresh(a[1..], seen, blocked) + Fresh(b, seen, blocked);
    }
  }

  lemma {:induction false} FreshElsewhere(rows: seq<Row>, seen: set<string>, extra: set<string>, blocked: set<string>)
    requires forall i :: 0 <= i < |rows| ==> rows[i].event.id !in extra
    ensures Fresh(rows, seen + extra, blocked) == Fresh(rows, seen, blocked)
  {
    if rows == [] {
    } else {
      FreshElsewhere(rows[1..], seen, extra, blocked);
    }
  }

  lemma {:induction false} FreshFromRows(rows: seq<Row>, seen: set<string>, blocked: set<string>)
    ensures forall e :: e in Fresh(rows, seen, blocked) ==>
              exists i :: 0 <= i < |rows| && rows[i].event == e && Wanted(rows[i], seen, blocked)
  {
    if rows == [] {
    } else {
      FreshFromRows(rows[1..], seen, blocked);
      forall e | e in Fresh(rows[1..], seen, blocked)
        ensures exists i :: 0 <= i < |rows| && rows[i].event == e && Wanted(rows[i], seen, blocked)
      {
        var i :| 0 <= i < |rows[1..]| && rows[1..][i].event == e && Wanted(rows[1..][i], seen, blocked);
        assert rows[i + 1].event == e;
      }
    }
  }

  /** Once its fresh events are marked as seen, nothing in a list is fresh. */
  lemma {:induction false} NothingFreshTwice(rows: seq<Row>, seen: set<string>, more: set<string>, blocked: set<string>)
    requires Ids(Fresh(rows, seen, blocked)) <= more
    ensures Fresh(rows, seen + more, blocked) == []
  {
    if rows == [] {
    } else {
      var tail := Fresh(rows[1..], seen, blocked);
      assert Ids(tail) <= Ids(Fresh(rows, seen, blocked)) by {
        forall e | e in tail
          ensures e in Fresh(rows, seen, blocked)
        {
        }
      }
      if Wanted(rows[0], seen, blocked) {
        assert rows[0].event in Fresh(rows, seen, blocked);
      }
      NothingFreshTwice(rows[1..], seen, more, blocked);
    }
  }

  function Undamaged(rows: seq<Row>): seq<Row> {
    if rows == [] then [] else (if rows[0].damaged.None? then [rows[0]] else []) + Undamaged(rows[1..])
  }

  lemma {:induction false} FreshIgnoresDamage(rows: seq<Row>, seen: set<string>, blocked: set<string>)
    ensures Fresh(Undamaged(rows), seen, blocked) == Fresh(rows, seen, blocked)
  {
    if rows == [] {
    } else {
      FreshIgnoresDamage(rows[1..], seen, blocked);
      assert ([rows[0]] + Undamaged(rows[1..]))[1..] == Undamaged(rows[1..]);
      assert [] + Undamaged(rows[1..]) == Undamaged(rows[1..]);
    }
  }

  /** Rows after the first `n`, or after row id `p`, are again a list of pending rows. */
  lemma {:induction false} RestFrom(s: Store, k: nat, n: nat)
    requires 0 < n <= |PendingFrom(s, k)|
    ensures PendingFrom(s, PendingFrom(s, k)[n - 1].rowId + 1) == PendingFrom(s, k)[n..]
    decreases s.nextRow - k
  {
    if exists id :: PendingAt(s, id, k) {
      assert PendingFrom(s, k) == [PendingFrom(s, k)[0]] + PendingFrom(s, k + 1);
      if n > 1 {
        RestFrom(s, k + 1, n - 1);
      }
    } else {
      RestFrom(s, k + 1, n);
    }
  }

  lemma {:induction false} SplitAt(s: Store, k: nat, p: nat) returns (m: nat)
    requires RowsInv(s) && RowIds(s) && k <= p + 1
    ensures m <= |PendingFrom(s, k)| && PendingFrom(s, k)[m..] == PendingFrom(s, p + 1)
    ensures forall i :: 0 <= i < m ==> PendingFrom(s, k)[i].rowId <= p
    decreases p + 1 - k
  {
    if k == p + 1 {
      m := 0;
    } else {
      m := SplitAt(s, k + 1, p);
      if k >= s.nextRow {
      } else if id :| PendingAt(s, id, k) {
        m := m + 1;
      }
    }
  }

  // ---------------------------------------------------------------------------------
  // Selection
  // ---------------------------------------------------------------------------------

  /** What a store satisfies between two transactions. */
  ghost predicate Sane(s: Store) {
    RowsInv(s) && AckedInv(s) && RowIds(s)
  }

  datatype Selection = Selection(
    selected: seq<Event>,
    seen: set<string>,
    eof: bool,
    repaired: nat,
    position: Option<nat>,
    signature: Option<(nat, nat)>,
    store: Store)

  function Start(position: Option<nat>): nat {
    match position
    case None => 0
    case Some(p) => p
  }

  /** The rows one scan looks at, and whether they reach the end. */
  ghost function Window(s: Store, position: Option<nat>, limit: nat): (seq<Row>, bool) {
    var rows := PendingFrom(s, Start(position) + 1);
    if |rows| <= limit then (rows, true) else (rows[..limit], false)
  }

  ghost function Signature(s: Store): (nat, nat) {
    (s.counter, |PendingIds(s)|)
  }

  /** `select` with at most `max` events and `limit` rows; `blocked` events are not eligible. */
  ghost function SelectOf(s: Store, max: nat, seen: set<string>, blocked: set<string>, startAfter: Option<nat>, limit: nat, now: int)
    : Selection
    requires max > 0 && limit > 0 && Sane(s)
  {
    var (rows, reached) := Window(s, startAfter, limit);
    var r := Scan(rows, seen, max, blocked);
    ScanCounts(rows, seen, max, blocked);
    Concluded(r, reached, LookedTo(rows, r.count, startAfter), RepairOf(s, r.invalid, now))
  }

  /** The row id that a scan came to. */
  function LookedTo(rows: seq<Row>, count: nat, startAfter: Option<nat>): Option<nat>
    requires count <= |rows|
  {
    if count == 0 then startAfter else Some(rows[count - 1].rowId)
  }

  /** The repair after a scan, and how many rows it took out. */
  ghost function RepairOf(s: Store, invalid: bool, now: int): (Store, nat)
    requires Sane(s)
  {
    if !invalid then (s, 0)
    else
      match Repair(s, now)
      case Success(done) => done
      case Failure(_) => (s, 0)
  }

  ghost function Concluded(scan: Scanned, reached: bool, looked: Option<nat>, done: (Store, nat)): Selection {
    var eof := reached && !scan.full;
    Selection(scan.selected, scan.seen, eof, done.1, if done.1 > 0 then None else looked,
      if eof then Some(Signature(done.0)) else None, done.0)
  }

  /** Where a selection raises, if it does: reading the rows, repairing, or reading the signature. */
  datatype Fault = NoFault | Unread | Unrepaired | Unsigned

  predicate Raises(fault: Fault, r: Selection) {
    match fault
    case NoFault => false
    case Unread => true
    case Unrepaired => r.repaired > 0
    case Unsigned => r.eof
  }

  /** The seen set that a selection leaves behind when it raises: the scan has marked its events. */
  function MarkedBy(fault: Fault, seen: set<string>, r: Selection): set<string> {
    if fault.Unread? then seen else r.seen
  }

  /** The store that it leaves behind: a repair that raises is rolled back. */
  function LeftBy(fault: Fault, s: Store, r: Selection): Store {
    if fault.Unsigned? then r.store else s
  }

  lemma {:induction false} SamePending(s: Store, s': Store, k: nat)
    requires RowIds(s) && RowIds(s') && s.nextRow <= s'.nextRow
    requires forall id, j :: PendingAt(s', id, j) <==> PendingAt(s, id, j) && s.events[id].damaged.None?
    requires forall id, j :: PendingAt(s', id, j) ==> id in s.events && s'.events[id] == s.events[id]
    ensures PendingFrom(s', k) == Undamaged(PendingFrom(s, k))
    decreases s'.nextRow - k
  {
    if k < s'.nextRow {
      SamePending(s, s', k + 1);
      if id :| PendingAt(s, id, k) {
        assert PendingFrom(s, k) == [s.events[id]] + PendingFrom(s, k + 1);
        assert PendingFrom(s, k)[1..] == PendingFrom(s, k + 1);
        if s.events[id].damaged.None? {
          assert PendingAt(s', id, k);
          assert PendingFrom(s', k) == [s.events[id]] + PendingFrom(s', k + 1);
        } else {
          assert forall other :: PendingAt(s, other, k) ==> other == id;
        }
      } else {
        assert PendingFrom(s, k) == [] || PendingFrom(s, k) == PendingFrom(s, k + 1);
        BeyondEmpty(s, k);
      }
    } else {
      BeyondEmpty(s, k);
    }
  }

  lemma BeyondEmpty(s: Store, k: nat)
    ensures k >= s.nextRow ==> PendingFrom(s, k) == [] && PendingFrom(s, k + 1) == []
  {
  }

  lemma AuditShape(u: Store, d: Draft, now: int)
    requires RowsInv(u) && d.sound
    ensures Audit(u, d, now).Success?
    ensures var (s', e) := Audit(u, d, now).value;
      && e.id !in u.events && s'.events == u.events[e.id := NewRow(u, e, None, true, now)] && s'.nextRow == u.nextRow + 1
  {
    EmitIsFresh(u, d);
    NoSequenceCollision(u, Envelope(d, LastSequence(u, d.producer) + 1));
  }

  /** `s'` is `s` with the spoiled rows out of delivery and the audit row `id` added. */
  ghost predicate RepairedInto(s: Store, s': Store, id: string) {
    && id !in s.events && s'.events.Keys == s.events.Keys + {id} && s'.nextRow == s.nextRow + 1
    && s'.events[id].role == None && s'.events[id].rowId == s.nextRow
    && forall o :: o in s.events ==> s'.events[o] == if Spoiled(s.events[o]) then s.events[o].(role := None) else s.events[o]
  }

  lemma TakenOutRows(s: Store, ids: set<string>)
    requires RowsInv(s)
    ensures RowsInv(Bumped(TakenOut(s, ids), true))
  {
    var u := Bumped(TakenOut(s, ids), true);
    forall id | id in u.events
      ensures RowOk(u.events[id], id, u.sequences)
    {
      assert RowOk(s.events[id], id, s.sequences);
    }
  }

  lemma RepairRows(s: Store, now: int) returns (id: string)
    requires RowsInv(s) && SpoiledIds(s) != {}
    ensures Repair(s, now).Success? && Repair(s, now).value.1 == |SpoiledIds(s)| > 0
    ensures RepairedInto(s, Repair(s, now).value.0, id)
  {
    var ids := SpoiledIds(s);
    var u := Bumped(TakenOut(s, ids), true);
    var d := AuditDraft("local:recovery", SPOILED_CAUSE, |ids|);
    TakenOutRows(s, ids);
    AuditShape(u, d, now);
    id := Audit(u, d, now).value.1.id;
    assert Repair(s, now).value.0 == Audit(u, d, now).value.0;
    assert Repair(s, now).value.0.events.Keys == s.events.Keys + {id};
  }

  lemma RepairedRows(s: Store, s': Store, id: string, k: nat)
    requires RowIds(s) && RepairedInto(s, s', id)
    ensures RowIds(s') && SpoiledIds(s') == {} && PendingFrom(s', k) == Undamaged(PendingFrom(s, k))
  {
    assert forall o :: o in s'.events ==> o == id || s'.events[o].rowId == s.events[o].rowId;
    SamePending(s, s', k);
  }

  lemma RepairedPending(s: Store, now: int, k: nat)
    requires Sane(s) && SpoiledIds(s) != {}
    ensures Repair(s, now).Success? && Repair(s, now).value.1 > 0
    ensures var s' := Repair(s, now).value.0;
      Sane(s') && PendingFrom(s', k) == Undamaged(PendingFrom(s, k)) && SpoiledIds(s') == {} && s'.nextRow == s.nextRow + 1
  {
    var id := RepairRows(s, now);
    RepairConserves(s, now);
    RepairedRows(s, Repair(s, now).value.0, id, k);
  }

  lemma DamagedIsSpoiled(s: Store, k: nat, i: nat)
    requires Sane(s) && i < |PendingFrom(s, k)| && PendingFrom(s, k)[i].damaged.Some?
    ensures SpoiledIds(s) != {}
  {
    PendingFacts(s, k);
    assert InStore(s, PendingFrom(s, k)[i]);
    assert PendingFrom(s, k)[i].event.id in SpoiledIds(s);
  }

  /** One selection in terms of the pending rows after the start: the first `n` were looked at. */
  lemma SelectFacts(s: Store, max: nat, seen: set<string>, blocked: set<string>, startAfter: Option<nat>, limit: nat, now: int)
    returns (n: nat)
    requires max > 0 && limit > 0 && Sane(s)
    ensures var r, all := SelectOf(s, max, seen, blocked, startAfter, limit, now), PendingFrom(s, Start(startAfter) + 1);
      && n <= |all| && (r.eof ==> n == |all|) && (!r.eof ==> n > 0 && (|r.selected| == max || n == limit))
      && r.selected == Fresh(all[..n], seen, blocked) && |r.selected| <= max
      && r.seen == seen + Ids(r.selected)
      && (r.repaired > 0 <==> exists i :: 0 <= i < n && all[i].damaged.Some?)
      && (r.repaired == 0 ==> r.store == s && r.position == if n == 0 then startAfter else Some(all[n - 1].rowId))
      && (r.repaired > 0 ==> SpoiledIds(s) != {} && Repair(s, now) == Success((r.store, r.repaired)) && r.position == None)
  {
    n := Scan(Window(s, startAfter, limit).0, seen, max, blocked).count;
    WindowScanned(s, max, seen, blocked, startAfter, limit);
    var all := PendingFrom(s, Start(startAfter) + 1);
    if i :| 0 <= i < n && all[i].damaged.Some? {
      DamagedIsSpoiled(s, Start(startAfter) + 1, i);
      var id := RepairRows(s, now);
    }
  }

  /** A selection reports the change signature exactly if it reached the end, and then that of the store it
      leaves behind: its counter and how many events are pending in it. */
  lemma SelectSigns(s: Store, max: nat, seen: set<string>, blocked: set<string>, startAfter: Option<nat>, limit: nat, now: int)
    requires max > 0 && limit > 0 && Sane(s)
    ensures var r := SelectOf(s, max, seen, blocked, startAfter, limit, now);
      && (r.signature.Some? <==> r.eof)
      && (r.eof ==> r.signature.value.0 == r.store.counter
                    && r.signature.value.1 == |set id | id in r.store.events && r.store.events[id].role == Some(Pending)|)
  {
  }

  lemma WindowScanned(s: Store, max: nat, seen: set<string>, blocked: set<string>, startAfter: Option<nat>, limit: nat)
    requires max > 0 && limit > 0 && Sane(s)
    ensures var (rows, reached) := Window(s, startAfter, limit);
      var all, r := PendingFrom(s, Start(startAfter) + 1), Scan(rows, seen, max, blocked);
      && r.count <= |rows| <= |all| && rows == all[..|rows|]
      && (reached && !r.full ==> r.count == |all|)
      && (!(reached && !r.full) ==> r.count > 0 && (|r.selected| == max || r.count == limit))
      && r.selected == Fresh(all[..r.count], seen, blocked) && |r.selected| <= max && r.seen == seen + Ids(r.selected)
      && (r.invalid <==> exists i :: 0 <= i < r.count && all[i].damaged.Some?)
      && (r.count > 0 ==> rows[r.count - 1] == all[r.count - 1])
  {
    var all := PendingFrom(s, Start(startAfter) + 1);
    var (rows, reached) := Window(s, startAfter, limit);
    PendingDistinct(s, Start(startAfter) + 1);
    ScanCounts(rows, seen, max, blocked);
    ScanMarks(rows, seen, max, blocked);
    ScanSelects(rows, seen, max, blocked);
    ScanFinds(rows, seen, max, blocked);
    assert rows == all[..|rows|];
    assert rows[..Scan(rows, seen, max, blocked).count] == all[..Scan(rows, seen, max, blocked).count];
  }

  /** Selecting again and again until the end of the pending rows, as the pump moves its position:
      back to the beginning after a repair, and otherwise on from the last row looked at. */
  ghost function Sweep(s: Store, max: nat, seen: set<string>, blocked: set<string>, position: Option<nat>, limit: nat, now: int): seq<Event>
    requires max > 0 && limit > 0 && Sane(s)
    decreases |SpoiledIds(s)|, s.nextRow - Start(position)
  {
    var r := SelectOf(s, max, seen, blocked, position, limit, now);
    if r.eof then r.selected
    else
      SelectProgresses(s, max, seen, blocked, position, limit, now);
      r.selected + Sweep(r.store, max, r.seen, blocked, r.position, limit, now)
  }

  /** A selection that does not reach the end moves on, or removes corrupt rows. */
  lemma SelectProgresses(s: Store, max: nat, seen: set<string>, blocked: set<string>, position: Option<nat>, limit: nat, now: int)
    requires max > 0 && limit > 0 && Sane(s)
    ensures var r := SelectOf(s, max, seen, blocked, position, limit, now);
      && Sane(r.store)
      && (!r.eof ==>
            if r.repaired > 0 then SpoiledIds(s) != {} && |SpoiledIds(r.store)| < |SpoiledIds(s)|
            else r.store == s && Start(position) < Start(r.position) < s.nextRow)
  {
    var r := SelectOf(s, max, seen, blocked, position, limit, now);
    var n := SelectFacts(s, max, seen, blocked, position, limit, now);
    PendingFacts(s, Start(position) + 1);
    if r.repaired > 0 {
      RepairedPending(s, now, 0);
      assert |SpoiledIds(r.store)| == 0;
      assert |SpoiledIds(s)| > 0;
    }
  }

  /** Nothing at or below the position is left to select. */
  ghost predicate Clear(s: Store, position: Option<nat>, seen: set<string>, blocked: set<string>) {
    Fresh(PendingFrom(s, 1), seen, blocked) == Fresh(PendingFrom(s, Start(position) + 1), seen, blocked)
  }

  /** After `n` rows of a list have been looked at, what remains fresh lies behind them. */
  lemma TakeFresh(all: seq<Row>, n: nat, seen: set<string>, blocked: set<string>)
    requires n <= |all| && DistinctEvents(all)
    ensures var got := Fresh(all[..n], seen, blocked);
      && Fresh(all, seen, blocked) == got + Fresh(all[n..], seen + Ids(got), blocked)
      && Fresh(all[..n], seen + Ids(got), blocked) == []
  {
    var front, back := all[..n], all[n..];
    var got := Fresh(front, seen, blocked);
    assert all == front + back;
    FreshAppend(front, back, seen, blocked);
    FreshFromRows(front, seen, blocked);
    forall i | 0 <= i < |back|
      ensures back[i].event.id !in Ids(got)
    {
      forall e | e in got
        ensures e.id != back[i].event.id
      {
        var j :| 0 <= j < |front| && front[j].event == e;
        assert all[j] == front[j] && all[n + i] == back[i];
      }
    }
    FreshElsewhere(back, seen, Ids(got), blocked);
    NothingFreshTwice(front, seen, Ids(got), blocked);
  }

  /** What one selection of a sweep returns, and what it leaves to the rest of it. */
  lemma SweepStep(s: Store, max: nat, seen: set<string>, blocked: set<string>, position: Option<nat>, limit: nat, now: int)
    requires max > 0 && limit > 0 && Sane(s) && Clear(s, position, seen, blocked)
    ensures var r := SelectOf(s, max, seen, blocked, position, limit, now);
      if r.eof then r.selected == Fresh(PendingFrom(s, 1), seen, blocked)
      else
        && Sane(r.store) && Clear(r.store, r.position, r.seen, blocked)
        && Fresh(PendingFrom(s, 1), seen, blocked) == r.selected + Fresh(PendingFrom(r.store, 1), r.seen, blocked)
  {
    var r := SelectOf(s, max, seen, blocked, position, limit, now);
    var all := PendingFrom(s, Start(position) + 1);
    var n := SelectFacts(s, max, seen, blocked, position, limit, now);
    PendingDistinct(s, Start(position) + 1);
    TakeFresh(all, n, seen, blocked);
    if r.eof {
      assert all[..n] == all && all[n..] == [];
    } else {
      ClearAfterRows(s, position, n, r.seen, blocked, seen);
      if r.repaired > 0 {
        ClearAfterRepair(s, r.store, r.seen, blocked, now, r.repaired);
      } else {
        RestFrom(s, Start(position) + 1, n);
      }
    }
  }

  /** A sweep returns every intact, eligible pending event exactly once and in row order, for every
      batch size and scan limit, whether or not corrupt rows are found on the way. */
  lemma {:induction false} SweepIsComplete(s: Store, max: nat, seen: set<string>, blocked: set<string>, position: Option<nat>, limit: nat, now: int)
    requires max > 0 && limit > 0 && Sane(s) && Clear(s, position, seen, blocked)
    ensures Sweep(s, max, seen, blocked, position, limit, now) == Fresh(PendingFrom(s, 1), seen, blocked)
    decreases |SpoiledIds(s)|, s.nextRow - Start(position)
  {
    var r := SelectOf(s, max, seen, blocked, position, limit, now);
    SweepStep(s, max, seen, blocked, position, limit, now);
    if r.eof {
    } else {
      SelectProgresses(s, max, seen, blocked, position, limit, now);
      SweepIsComplete(r.store, max, r.seen, blocked, r.position, limit, now);
    }
  }

  lemma ClearAfterRepair(s: Store, s': Store, seen: set<string>, blocked: set<string>, now: int, repaired: nat)
    requires Sane(s) && SpoiledIds(s) != {} && Repair(s, now) == Success((s', repaired))
    ensures Sane(s') && Clear(s', None, seen, blocked)
    ensures Fresh(PendingFrom(s', 1), seen, blocked) == Fresh(PendingFrom(s, 1), seen, blocked)
  {
    RepairedPending(s, now, 1);
    FreshIgnoresDamage(PendingFrom(s, 1), seen, blocked);
  }

  /** What is fresh in the whole list after the first `n` rows behind the position were looked at. */
  lemma ClearAfterRows(s: Store, position: Option<nat>, n: nat, seen': set<string>, blocked: set<string>, seen: set<string>)
    requires Sane(s) && Clear(s, position, seen, blocked)
    requires n <= |PendingFrom(s, Start(position) + 1)|
    requires seen' == seen + Ids(Fresh(PendingFrom(s, Start(position) + 1)[..n], seen, blocked))
    ensures Fresh(PendingFrom(s, 1), seen', blocked) == Fresh(PendingFrom(s, Start(position) + 1)[n..], seen', blocked)
  {
    var all := PendingFrom(s, Start(position) + 1);
    var whole := PendingFrom(s, 1);
    PendingDistinct(s, Start(position) + 1);
    TakeFresh(all, n, seen, blocked);
    var m := SplitAt(s, 1, Start(position));
    assert whole == whole[..m] + all;
    FreshAppend(whole[..m], all, seen, blocked);
    var lower := Fresh(whole[..m], seen, blocked);
    assert |lower| == 0;
    assert Ids(lower) == {};
    NothingFreshTwice(whole[..m], seen, Ids(Fresh(all[..n], seen, blocked)), blocked);
    FreshAppend(whole[..m], all, seen', blocked);
    assert all == all[..n] + all[n..];
    FreshAppend(all[..n], all[n..], seen', blocked);
  }

  /** From the beginning, with nothing seen: exactly the intact, eligible pending events, each once. */
  lemma SweepFindsAllWork(s: Store, max: nat, blocked: set<string>, limit: nat, now: int)
    requires max > 0 && limit > 0 && Sane(s)
    ensures var found := Sweep(s, max, {}, blocked, None, limit, now);
      && (forall id :: id in Ids(found) <==>
            id in s.events && s.events[id].role == Some(Pending) && s.events[id].damaged.None? && id !in blocked)
      && (forall e :: e in found ==> e.id in s.events && s.events[e.id].event == e)
      && InRowOrder(s, found)
  {
    var rows := PendingFrom(s, 1);
    SweepIsComplete(s, max, {}, blocked, None, limit, now);
    var found := Fresh(rows, {}, blocked);
    PendingFacts(s, 1);
    FreshFromRows(rows, {}, blocked);
    FreshInOrder(s, rows, {}, blocked);
    forall id | id in s.events && s.events[id].role == Some(Pending) && s.events[id].damaged.None? && id !in blocked
      ensures id in Ids(found)
    {
      PendingComplete(s, 1, id);
      FreshKeeps(rows, s.events[id], {}, blocked);
      assert RowOk(s.events[id], id, s.sequences);
    }
    forall e | e in found
      ensures e.id in s.events && s.events[e.id].event == e && s.events[e.id].role == Some(Pending)
              && s.events[e.id].damaged.None? && e.id !in blocked
    {
      var i :| 0 <= i < |rows| && rows[i].event == e && Wanted(rows[i], {}, blocked);
      assert InStore(s, rows[i]);
    }
  }

  lemma {:induction false} FreshKeeps(rows: seq<Row>, row: Row, seen: set<string>, blocked: set<string>)
    requires row in rows && Wanted(row, seen, blocked)
    ensures row.event in Fresh(rows, seen, blocked)
  {
    if rows[0] != row {
      FreshKeeps(rows[1..], row, seen, blocked);
    }
  }

  /** Fresh events are stored, in rows no lower than the listed ones. */
  lemma FreshIsStored(s: Store, rows: seq<Row>, seen: set<string>, blocked: set<string>, k: nat)
    requires forall i :: 0 <= i < |rows| ==> InStore(s, rows[i]) && k <= rows[i].rowId
    ensures forall e :: e in Fresh(rows, seen, blocked) ==> e.id in s.events && k <= s.events[e.id].rowId
  {
    FreshFromRows(rows, seen, blocked);
    forall e | e in Fresh(rows, seen, blocked)
      ensures e.id in s.events && k <= s.events[e.id].rowId
    {
      var i :| 0 <= i < |rows| && rows[i].event == e && Wanted(rows[i], seen, blocked);
      assert InStore(s, rows[i]);
    }
  }

  ghost predicate InRowOrder(s: Store, events: seq<Event>) {
    && (forall i :: 0 <= i < |events| ==> events[i].id in s.events)
    && (forall i, j :: 0 <= i < j < |events| ==> s.events[events[i].id].rowId < s.events[events[j].id].rowId)
  }

  lemma PrependInOrder(s: Store, e: Event, tail: seq<Event>)
    requires e.id in s.events && InRowOrder(s, tail)
    requires forall x :: x in tail ==> x.id in s.events && s.events[e.id].rowId < s.events[x.id].rowId
    ensures InRowOrder(s, [e] + tail)
  {
    var found := [e] + tail;
    forall i, j | 0 <= i < j < |found|
      ensures found[i].id in s.events && found[j].id in s.events
              && s.events[found[i].id].rowId < s.events[found[j].id].rowId
    {
      assert found[j] == tail[j - 1];
      if i > 0 {
        assert found[i] == tail[i - 1];
      }
    }
  }

  lemma {:induction false} FreshInOrder(s: Store, rows: seq<Row>, seen: set<string>, blocked: set<string>)
    requires Ascending(rows) && forall i :: 0 <= i < |rows| ==> InStore(s, rows[i])
    ensures InRowOrder(s, Fresh(rows, seen, blocked))
  {
    if rows == [] {
    } else {
      var row, rest := rows[0], rows[1..];
      FreshInOrder(s, rest, seen, blocked);
      FreshIsStored(s, rest, seen, blocked, row.rowId + 1);
      assert InStore(s, row);
      var tail := Fresh(rest, seen, blocked);
      if Wanted(row, seen, blocked) {
        PrependInOrder(s, row.event, tail);
      } else {
        assert [] + tail == tail;
      }
    }
  }
}
