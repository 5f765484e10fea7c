/** The selection of pending work as executed (anvil_events/storage/delivery.py:69-121). */
module PendingDelivery {
  import opened Basics
  import opened StoreTables
  import opened StoreRuns
  import opened Delivery
  import EventStore

  datatype Batch = Batch(
    selected: seq<Event>,
    seen: set<string>,
    eof: bool,
    repaired: nat,
    position: Option<nat>,
    signature: Option<(nat, nat)>)

  ghost function Selected(b: Batch, s: Store): Selection {
    Selection(b.selected, b.seen, b.eof, b.repaired, b.position, b.signature, s)
  }

  /** The scan limit: the caller's, or four rows for each event asked for. */
  function ScanLimit(max: nat, maxScan: Option<nat>): nat {
    match maxScan
    case None => 4 * max
    case Some(limit) => if limit == 0 then 4 * max else limit
  }

  class PendingDelivery {
    const store: EventStore.EventStore

    constructor (store: EventStore.EventStore)
      ensures this.store == store
    {
      this.store := store;
    }

    /** At most `most` pending rows after row id `start`, in order. */
    method QueryPending(start: nat, most: nat) returns (rows: seq<Row>)
      requires RowIds(store.Contents())
      ensures var all := PendingFrom(store.Contents(), start + 1);
        rows == if |all| <= most then all else all[..most]
    {
      rows := [];
      var k := start + 1;
      ghost var s := store.Contents();
      ghost var all := PendingFrom(s, start + 1);
      while k < store.nextRow && |rows| < most
        invariant store.Contents() == s && |rows| <= most
        invariant rows + PendingFrom(s, k) == all
        decreases store.nextRow - k
      {
        ghost var tail := PendingFrom(s, k);
        if exists id :: id in store.events && store.events[id].rowId == k && store.events[id].role == Some(Pending) {
          var id :| id in store.events && store.events[id].rowId == k && store.events[id].role == Some(Pending);
          assert PendingAt(s, id, k);
          assert forall other :: PendingAt(s, other, k) ==> other == id;
          assert tail == [s.events[id]] + PendingFrom(s, k + 1);
          rows := rows + [store.events[id]];
        } else {
          assert forall other :: !PendingAt(s, other, k);
        }
        k := k + 1;
      }
      if k >= s.nextRow {
        assert PendingFrom(s, k) == [];
        assert rows == all;
      } else {
        assert rows == all[..most];
      }
    }

    method CountPending() returns (count: nat)
      ensures count == |PendingIds(store.Contents())|
    {
      var ids := set id | id in store.events && store.events[id].role == Some(Pending);
      assert ids == PendingIds(store.Contents());
      count := |ids|;
    }

    /** Select from the pending rows after `startAfter`; spoiled rows met on the way are repaired. The
        caller's set `seen` is `marked` afterwards, also if the selection raises. */
    method Select(max: int, seen: set<string>, blocked: set<string>, startAfter: Option<nat>, maxScan: Option<nat>, fault: Fault, now: int)
      returns (r: Result<Batch, StoreError>, marked: set<string>)
      requires Sane(store.Contents()) && store.Valid()
      modifies store`events, store`nextRow, store`sequences, store`quarantine, store`counter, store`operations
      ensures Sane(store.Contents()) && store.Valid()
      ensures max < 1 ==> r == Failure(BadArgument) && marked == seen && store.Contents() == old(store.Contents())
      ensures max >= 1 ==>
        var s, sel := old(store.Contents()), SelectOf(old(store.Contents()), max, seen, blocked, startAfter, ScanLimit(max, maxScan), now);
        if Raises(fault, sel) then
          r == Failure(StorageFault) && marked == MarkedBy(fault, seen, sel) && store.Contents() == LeftBy(fault, s, sel)
        else r.Success? && marked == sel.seen && Selected(r.value, store.Contents()) == sel
    {
      marked := seen;
      if max < 1 {
        return Failure(BadArgument), marked;
      }
      if fault.Unread? {
        return Failure(StorageFault), marked;
      }
      ghost var s := store.Contents();
      var limit := ScanLimit(max, maxScan);
      var scan, reached, position := ScanOnce(max, seen, blocked, startAfter, limit);
      marked := scan.seen;
      var eof := reached && !scan.full;
      assert SelectOf(s, max, seen, blocked, startAfter, limit, now) == Concluded(scan, reached, position, RepairOf(s, scan.invalid, now));
      var fixed := RepairIfSpoiled(scan.invalid, fault, now);
      if fixed.Failure? {
        return Failure(fixed.error), marked;
      }
      if fixed.value > 0 {
        position := None;
      }
      var signature: Option<(nat, nat)> := None;
      if eof {
        if fault.Unsigned? {
          return Failure(StorageFault), marked;
        }
        var count := CountPending();
        signature := Some((store.counter, count));
      }
      r := Success(Batch(scan.selected, scan.seen, eof, fixed.value, position, signature));
    }

    /** Fetch rows and walk them; the position is that of the last row looked at. */
    method ScanOnce(max: nat, seen: set<string>, blocked: set<string>, startAfter: Option<nat>, limit: nat)
      returns (scan: Scanned, reached: bool, position: Option<nat>)
      requires Sane(store.Contents()) && max > 0 && limit > 0
      ensures var (rows, end) := Window(store.Contents(), startAfter, limit);
        && reached == end && scan == Scan(rows, seen, max, blocked) && scan.count <= |rows|
        && position == LookedTo(rows, scan.count, startAfter)
      ensures scan.invalid ==> SpoiledIds(store.Contents()) != {}
    {
      var rows := QueryPending(Start(startAfter), limit + 1);
      reached := |rows| <= limit;
      rows := if reached then rows else rows[..limit];
      ghost var all := PendingFrom(store.Contents(), Start(startAfter) + 1);
      assert |all| > limit + 1 ==> all[..limit + 1][..limit] == all[..limit];
      assert (rows, reached) == Window(store.Contents(), startAfter, limit);
      scan := Walk(rows, seen, max, blocked);
      ScanCounts(rows, seen, max, blocked);
      position := if scan.count == 0 then startAfter else Some(rows[scan.count - 1].rowId);
      if scan.invalid {
        Spots(store.Contents(), max, seen, blocked, startAfter, limit);
      }
    }

    method RepairIfSpoiled(invalid: bool, fault: Fault, now: int) returns (r: Result<nat, StoreError>)
      requires Sane(store.Contents()) && store.Valid() && (invalid ==> SpoiledIds(store.Contents()) != {})
      modifies store`events, store`nextRow, store`sequences, store`quarantine, store`counter, store`operations
      ensures Sane(store.Contents()) && store.Valid()
      ensures invalid <==> RepairOf(old(store.Contents()), invalid, now).1 > 0
      ensures if invalid && fault.Unrepaired? then r == Failure(StorageFault) && store.Contents() == old(store.Contents())
              else r.Success? && (store.Contents(), r.value) == RepairOf(old(store.Contents()), invalid, now)
    {
      if !invalid {
        return Success(0);
      }
      RepairedPending(store.Contents(), now, 0);
      if fault.Unrepaired? {
        return Failure(StorageFault);
      }
      r := store.RepairPending(now);
    }
  }

  /** The loop over the rows of one scan. */
  method Walk(rows: seq<Row>, seen: set<string>, max: nat, blocked: set<string>) returns (scan: Scanned)
    requires max > 0
    ensures scan == Scan(rows, seen, max, blocked)
  {
    ghost var whole := Scan(rows, seen, max, blocked);
    var selected, marked, invalid, full := [], seen, false, false;
    var i := 0;
    while i < |rows| && !full
      invariant i <= |rows| && |selected| <= max && (full <==> |selected| == max)
      invariant Pieces(whole, selected, i, invalid,
                       if full then Scanned([], marked, 0, false, true)
                       else Scan(rows[i..], marked, max - |selected|, blocked))
      decreases |rows| - i
    {
      var row := rows[i];
      assert rows[i..][0] == row && rows[i..][1..] == rows[i + 1..];
      if row.damaged.Some? {
        invalid := true;
      } else if row.event.id !in blocked && row.event.id !in marked {
        marked := marked + {row.event.id};
        selected := selected + [row.event];
        full := |selected| >= max;
      }
      i := i + 1;
    }
    scan := Scanned(selected, marked, i, invalid, full);
  }

  /** A scan is what was found in the first `i` rows followed by a scan of the rest. */
  ghost predicate Pieces(whole: Scanned, selected: seq<Event>, i: nat, invalid: bool, rest: Scanned) {
    whole == Scanned(selected + rest.selected, rest.seen, i + rest.count, invalid || rest.invalid, rest.full)
  }

  /** A damaged row among those looked at is a spoiled row of the store. */
  lemma Spots(s: Store, max: nat, seen: set<string>, blocked: set<string>, startAfter: Option<nat>, limit: nat)
    requires Sane(s) && limit > 0 && max > 0 && Scan(Window(s, startAfter, limit).0, seen, max, blocked).invalid
    ensures SpoiledIds(s) != {}
  {
    var rows := Window(s, startAfter, limit).0;
    ScanFinds(rows, seen, max, blocked);
    var i :| 0 <= i < |rows| && rows[i].damaged.Some?;
    assert rows[i] == PendingFrom(s, Start(startAfter) + 1)[i];
    DamagedIsSpoiled(s, Start(startAfter) + 1, i);
  }
}
