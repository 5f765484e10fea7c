/** Turns of the executed loop (anvil_events/runtime/delivery.py, `run`): each is a sequence of moves of
    the pump, keeps the pump invariant, and gets on with the work that is due. */
module PumpTurns {
  import opened Basics
  import opened StoreTables
  import opened StoreJoin
  import opened StoreRuns
  import opened Delivery
  import opened Pump
  import opened PumpRuns

  // ---------------------------------------------------------------------------------
  // Turns are runs
  // ---------------------------------------------------------------------------------

  /** Where the moves lead from a state that satisfies the invariant, if each is enabled. */
  ghost function Outcome(m: Machine, moves: seq<Move>): Option<Machine> {
    if moves == [] then if MachineInv(m) then Some(m) else None
    else
      match Outcome(m, moves[..|moves| - 1])
      case None => None
      case Some(mid) =>
        var move := moves[|moves| - 1];
        if MachineInv(mid) && Enabled(mid, move) then Some(After(mid, move)) else None
  }

  lemma {:induction false} OutcomeKeepsInv(m: Machine, moves: seq<Move>)
    requires Outcome(m, moves).Some?
    ensures MachineInv(Outcome(m, moves).value)
  {
    if moves == [] {
    } else {
      OutcomeKeepsInv(m, moves[..|moves| - 1]);
      MoveKeepsInv(Outcome(m, moves[..|moves| - 1]).value, moves[|moves| - 1]);
    }
  }

  lemma OneMore(m: Machine, moves: seq<Move>, mid: Machine, move: Move) returns (after: Machine)
    requires Outcome(m, moves) == Some(mid) && Enabled(mid, move)
    ensures after == After(mid, move)
    ensures Outcome(m, moves + [move]) == Some(after)
  {
    assert (moves + [move])[..|moves|] == moves;
    OutcomeKeepsInv(m, moves);
    after := After(mid, move);
  }

  /** `h1` is `h` after the first `n` tries of its batch. */
  ghost predicate Tried(h: Machine, h1: Machine, acks: seq<Option<PubAck>>, n: nat, stream: string, now: int, wall: int) {
    && h.loc.Holding? && n <= |acks| == |h.loc.batch| && h1.clock <= now
    && var (p, s, tally) := TryFirst(h.pump, h.world.store, h.loc.batch, acks, n, stream, now, wall);
      h1.pump == p && h1.world.store == s && h1.loc == Holding(h.loc.batch, h.loc.batch[n..], tally.attempted > 0)
  }

  /** One more try as a move. */
  lemma TryIsAMove(m: Machine, moves: seq<Move>, h: Machine, h1: Machine, acks: seq<Option<PubAck>>, n: nat,
                   stream: string, now: int, wall: int) returns (moves': seq<Move>, h': Machine)
    requires Outcome(m, moves) == Some(h1) && Tried(h, h1, acks, n, stream, now, wall) && n < |acks|
    ensures Outcome(m, moves') == Some(h') && Tried(h, h', acks, n + 1, stream, now, wall)
  {
    var move := Tries(acks[n], stream, now, wall);
    assert h.loc.batch[n..][0] == h.loc.batch[n];
    assert h.loc.batch[n..][1..] == h.loc.batch[n + 1..];
    h' := OneMore(m, moves, h1, move);
    moves' := moves + [move];
  }

  /** The tries of a batch from the `n`th to the one before the `k`th. */
  lemma {:induction false} TriesAreMoves(m: Machine, moves: seq<Move>, h: Machine, h1: Machine, acks: seq<Option<PubAck>>, n: nat,
                                         k: nat, stream: string, now: int, wall: int) returns (moves': seq<Move>, h': Machine)
    requires Outcome(m, moves) == Some(h1) && Tried(h, h1, acks, n, stream, now, wall) && n <= k <= |acks|
    ensures Outcome(m, moves') == Some(h') && Tried(h, h', acks, k, stream, now, wall)
    decreases k - n
  {
    if n == k {
      moves', h' := moves, h1;
    } else {
      moves', h' := TryIsAMove(m, moves, h, h1, acks, n, stream, now, wall);
      moves', h' := TriesAreMoves(m, moves', h, h', acks, n + 1, k, stream, now, wall);
    }
  }

  /** A delivered batch. */
  lemma DeliverIsMoves(m: Machine, moves: seq<Move>, h: Machine, acks: seq<Option<PubAck>>, stream: string, now: int, wall: int)
    returns (moves': seq<Move>, h': Machine)
    requires Outcome(m, moves) == Some(h) && h.loc.Holding? && h.loc == Holding(h.loc.batch, h.loc.batch, false)
    requires |acks| == |h.loc.batch| && h.clock <= now
    ensures Outcome(m, moves') == Some(h') && h'.loc.Top?
    ensures var (p, s, _) := Deliver(h.pump, h.world.store, h.loc.batch, acks, stream, now, wall);
      h'.pump == p && h'.world.store == s
  {
    assert h.loc.batch[0..] == h.loc.batch;
    var moves1, h1 := TriesAreMoves(m, moves, h, h, acks, 0, |acks|, stream, now, wall);
    h' := OneMore(m, moves1, h1, Settles);
    moves' := moves1 + [Settles];
  }

  /** A batch that is given up after `n` tries. */
  lemma BreakIsMoves(m: Machine, moves: seq<Move>, h: Machine, acks: seq<Option<PubAck>>, n: nat, stream: string, now: int, wall: int)
    returns (moves': seq<Move>, h': Machine)
    requires Outcome(m, moves) == Some(h) && h.loc.Holding? && h.loc == Holding(h.loc.batch, h.loc.batch, false)
    requires n <= |acks| == |h.loc.batch| && h.clock <= now
    ensures Outcome(m, moves') == Some(h') && h'.loc.Top?
    ensures var (p, s, _) := TryFirst(h.pump, h.world.store, h.loc.batch, acks, n, stream, now, wall);
      h'.pump == GiveUp(p, h.loc.batch) && h'.world.store == s
  {
    assert h.loc.batch[0..] == h.loc.batch;
    var moves1, h1 := TriesAreMoves(m, moves, h, h, acks, 0, n, stream, now, wall);
    h' := OneMore(m, moves1, h1, GivesUp);
    moves' := moves1 + [GivesUp];
  }

  /** The clock readings of a turn follow each other, and its selection marks nothing if it raises. */
  ghost predicate OrderlyTurn(p: Pump, s: Store, turn: Turn, clock: int) {
    && clock <= turn.woke <= turn.selecting <= turn.delivering
    && (Sane(s) ==> Harmless(turn.fault, Wait(p, Signature(s), turn.woke).0, Selecting(Wait(p, Signature(s), turn.woke).0, s, turn)))
  }

  /** One turn of `run`, left alone, is a sequence of moves back to the top. */
  lemma TurnIsMoves(m: Machine, turn: Turn, stream: string) returns (moves: seq<Move>, m': Machine)
    requires MachineInv(m) && m.loc.Top? && OrderlyTurn(m.pump, m.world.store, turn, m.clock)
    ensures Outcome(m, moves) == Some(m') && m'.loc.Top?
    ensures (m'.pump, m'.world.store) == TurnOf(m.pump, m.world.store, turn, stream)
  {
    var waits := Waits(turn.woke);
    var m1 := OneMore(m, [], m, waits);
    moves, m' := [] + [waits], m1;
    if m'.loc.Top? {
      return;
    }
    var selects := Selects(BATCH, turn.fault, turn.selecting, turn.wall);
    var m2 := OneMore(m, moves, m1, selects);
    moves, m' := moves + [selects], m2;
    if m'.loc.Top? {
      return;
    }
    var acks := AnswersTo(m2.loc.batch, turn.broker);
    if turn.broken.Some? {
      moves, m' := BreakIsMoves(m, moves, m2, acks, Least(turn.broken.value, |acks|), stream, turn.delivering, turn.wall);
    } else {
      moves, m' := DeliverIsMoves(m, moves, m2, acks, stream, turn.delivering, turn.wall);
    }
  }

  // ---------------------------------------------------------------------------------
  // Turns keep the pump invariant
  // ---------------------------------------------------------------------------------

  lemma AckKeepsSane(s: Store, e: Event, a: PubAck, wall: int)
    requires Sane(s) && RecordPuback(s, e, a, wall).Success?
    ensures var s' := RecordPuback(s, e, a, wall).value;
      Sane(s') && Arrives(s, s') && CounterMoves(s, s') && !IsPending(s', e.id)
  {
    AckConserves(s, e, a, wall);
    AckArrives(s, e, a, wall);
  }

  lemma TryKeepsSane(p: Pump, s: Store, e: Event, ack: Option<PubAck>, stream: string, now: int, wall: int)
    requires Sane(s)
    ensures Sane(Try(p, s, e, ack, stream, now, wall).1)
  {
    if Published(s, e, ack, stream, wall).Success? {
      AckKeepsSane(s, e, ack.value, wall);
    }
  }

  /** After some tries of a batch the rest is in hand. */
  lemma {:induction false} TryFirstKeeps(p: Pump, s: Store, batch: seq<Event>, acks: seq<Option<PubAck>>, n: nat,
                                         stream: string, now: int, wall: int, clock: int)
    requires Sane(s) && PumpInv(s, p, Holding(batch, batch, false), clock) && clock <= now && n <= |batch| == |acks|
    ensures var (p', s', tally) := TryFirst(p, s, batch, acks, n, stream, now, wall);
      && Sane(s') && PumpInv(s', p', Holding(batch, batch[n..], tally.attempted > 0), if n == 0 then clock else now)
      && tally.attempted == n
  {
    if n == 0 {
      assert batch[0..] == batch;
    } else {
      TryFirstKeeps(p, s, batch, acks, n - 1, stream, now, wall, clock);
      var (p1, s1, tally) := TryFirst(p, s, batch, acks, n - 1, stream, now, wall);
      var loc := Holding(batch, batch[n - 1..], tally.attempted > 0);
      var e := batch[n - 1];
      assert batch[n - 1..][0] == e && batch[n - 1..][1..] == batch[n..];
      assert e.id !in Blocked(p1.retry, now);
      if Published(s1, e, acks[n - 1], stream, wall).Success? {
        AckKeepsSane(s1, e, acks[n - 1].value, wall);
        TrySucceeds(s1, Published(s1, e, acks[n - 1], stream, wall).value, p1, loc, if n == 1 then clock else now, now);
      } else {
        TryFails(s1, p1, loc, if n == 1 then clock else now, now);
      }
    }
  }

  lemma DeliverTurnKeeps(p: Pump, s: Store, batch: seq<Event>, turn: Turn, stream: string, clock: int)
    requires Sane(s) && PumpInv(s, p, Holding(batch, batch, false), clock) && clock <= turn.delivering
    ensures var (p', s') := DeliverTurn(p, s, batch, turn, stream); Sane(s') && PumpInv(s', p', Top, turn.delivering)
  {
    var acks := AnswersTo(batch, turn.broker);
    var n := if turn.broken.Some? then Least(turn.broken.value, |batch|) else |batch|;
    TryFirstKeeps(p, s, batch, acks, n, stream, turn.delivering, turn.wall, clock);
    var (p1, s1, tally) := TryFirst(p, s, batch, acks, n, stream, turn.delivering, turn.wall);
    var loc := Holding(batch, batch[n..], tally.attempted > 0);
    if turn.broken.Some? {
      GiveUpKeeps(s1, p1, loc, if n == 0 then clock else turn.delivering);
    } else {
      SettleKeeps(s1, p1, loc, if n == 0 then clock else turn.delivering);
    }
  }

  lemma WorkTurnKeeps(p: Pump, s: Store, turn: Turn, stream: string, clock: int)
    requires Sane(s) && PumpInv(s, p, ToSelect, clock) && clock <= turn.selecting <= turn.delivering
    requires Harmless(turn.fault, p, Selecting(p, s, turn))
    ensures var (p', s') := WorkTurn(p, s, turn, stream); Sane(s') && PumpInv(s', p', Top, turn.delivering)
  {
    var r := Selecting(p, s, turn);
    if Raises(turn.fault, r) {
      FaultKeeps(s, p, clock, BATCH, turn.fault, turn.selecting, turn.wall);
    } else {
      SelectKeeps(s, p, clock, BATCH, turn.selecting, turn.wall);
      if r.selected != [] {
        DeliverTurnKeeps(Adopted(p, r), r.store, r.selected, turn, stream, turn.selecting);
      }
    }
  }

  lemma TurnKeeps(p: Pump, s: Store, turn: Turn, stream: string, clock: int)
    requires Sane(s) && PumpInv(s, p, Top, clock) && OrderlyTurn(p, s, turn, clock)
    ensures var (p', s') := TurnOf(p, s, turn, stream); Sane(s') && PumpInv(s', p', Top, turn.delivering)
  {
    WaitKeeps(s, p, clock, turn.woke);
    var (p1, stay) := Wait(p, Signature(s), turn.woke);
    if !stay {
      WorkTurnKeeps(p1, s, turn, stream, turn.woke);
    }
  }

  function ClockAfter(turns: seq<Turn>, clock: int): int {
    if turns == [] then clock else turns[|turns| - 1].delivering
  }

  ghost predicate Orderly(p: Pump, s: Store, turns: seq<Turn>, stream: string, clock: int) {
    turns == [] ||
      (var front := turns[..|turns| - 1];
       && Orderly(p, s, front, stream, clock)
       && OrderlyTurn(RunOf(p, s, front, stream).0, RunOf(p, s, front, stream).1, turns[|turns| - 1], ClockAfter(front, clock)))
  }

  lemma {:induction false} OrderlyRunKeeps(p: Pump, s: Store, turns: seq<Turn>, stream: string, clock: int)
    requires Sane(s) && PumpInv(s, p, Top, clock) && Orderly(p, s, turns, stream, clock)
    ensures var (p', s') := RunOf(p, s, turns, stream); Sane(s') && PumpInv(s', p', Top, ClockAfter(turns, clock))
  {
    if turns == [] {
    } else {
      var front := turns[..|turns| - 1];
      OrderlyRunKeeps(p, s, front, stream, clock);
      var (p1, s1) := RunOf(p, s, front, stream);
      TurnKeeps(p1, s1, turns[|turns| - 1], stream, ClockAfter(front, clock));
    }
  }
}
