/** Which messages a call of `receive` hands out and which it keeps
    (anvil_events/transport/protocol.py, lines 137-168). */
module Routing {
  import opened Basics
  import opened WireFormat

  predicate Matches(m: Message, wanted: Option<nat>) {
    wanted.None? || m.sid == wanted.value
  }

  /** Of the pending messages, the first `count` that match, and the others. */
  function Take(pending: seq<Message>, count: nat, wanted: Option<nat>): (seq<Message>, seq<Message>) {
    if pending == [] then ([], [])
    else if count > 0 && Matches(pending[0], wanted) then
      var (got, keep) := Take(pending[1..], count - 1, wanted);
      ([pending[0]] + got, keep)
    else
      var (got, keep) := Take(pending[1..], count, wanted);
      (got, [pending[0]] + keep)
  }

  function Wanted(messages: seq<Message>, wanted: Option<nat>): seq<Message> {
    if messages == [] then []
    else (if Matches(messages[0], wanted) then [messages[0]] else []) + Wanted(messages[1..], wanted)
  }

  function Unwanted(messages: seq<Message>, wanted: Option<nat>): seq<Message> {
    if messages == [] then []
    else (if Matches(messages[0], wanted) then [] else [messages[0]]) + Unwanted(messages[1..], wanted)
  }

  /** The messages of one subscription, in order. */
  function OfSid(messages: seq<Message>, sid: nat): seq<Message> {
    Wanted(messages, Some(sid))
  }

  lemma {:induction false} WantedAppend(a: seq<Message>, b: seq<Message>, wanted: Option<nat>)
    ensures Wanted(a + b, wanted) == Wanted(a, wanted) + Wanted(b, wanted)
  {
    if a == [] {
      assert a + b == b;
    } else {
      WantedAppend(a[1..], b, wanted);
      assert (a + b)[1..] == a[1..] + b;
    }
  }

  lemma {:induction false} UnwantedAppend(a: seq<Message>, b: seq<Message>, wanted: Option<nat>)
    ensures Unwanted(a + b, wanted) == Unwanted(a, wanted) + Unwanted(b, wanted)
  {
    if a == [] {
      assert a + b == b;
    } else {
      UnwantedAppend(a[1..], b, wanted);
      assert (a + b)[1..] == a[1..] + b;
      var head := if Matches(a[0], wanted) then [] else [a[0]];
      assert head + (Unwanted(a[1..], wanted) + Unwanted(b, wanted)) == head + Unwanted(a[1..], wanted) + Unwanted(b, wanted);
    }
  }

  lemma {:induction false} TakeFacts(pending: seq<Message>, count: nat, wanted: Option<nat>)
    ensures var (got, keep) := Take(pending, count, wanted);
      && |got| <= count
      && (forall i :: 0 <= i < |got| ==> Matches(got[i], wanted))
      && (|got| < count ==> forall i :: 0 <= i < |keep| ==> !Matches(keep[i], wanted))
  {
    if pending == [] {
    } else {
      TakeFacts(pending[1..], if count > 0 && Matches(pending[0], wanted) then count - 1 else count, wanted);
    }
  }

  lemma {:induction false} NoneOfSid(messages: seq<Message>, sid: nat)
    requires forall i :: 0 <= i < |messages| ==> messages[i].sid != sid
    ensures OfSid(messages, sid) == []
  {
    if messages == [] {
    } else {
      NoneOfSid(messages[1..], sid);
    }
  }

  /** Taking from the pending messages keeps each subscription's order. */
  lemma {:induction false} TakeKeepsOrder(pending: seq<Message>, count: nat, wanted: Option<nat>, sid: nat)
    ensures var (got, keep) := Take(pending, count, wanted);
      OfSid(got, sid) + OfSid(keep, sid) == OfSid(pending, sid)
  {
    if pending == [] {
    } else {
      var rest := if count > 0 && Matches(pending[0], wanted) then count - 1 else count;
      TakeKeepsOrder(pending[1..], rest, wanted, sid);
      var (got, keep) := Take(pending[1..], rest, wanted);
      TakeFacts(pending[1..], rest, wanted);
      if count == 0 || !Matches(pending[0], wanted) {
        HeadIsKept(pending[0], got, keep, sid);
      } else {
        HeadIsTaken(pending[0], got, keep, sid);
      }
    }
  }

  lemma HeadIsTaken(m: Message, got: seq<Message>, keep: seq<Message>, sid: nat)
    ensures OfSid([m] + got, sid) + OfSid(keep, sid)
         == (if m.sid == sid then [m] else []) + (OfSid(got, sid) + OfSid(keep, sid))
  {
    assert ([m] + got)[1..] == got;
  }

  /** A message that is kept, though later ones are taken, is of another subscription than these. */
  lemma HeadIsKept(m: Message, got: seq<Message>, keep: seq<Message>, sid: nat)
    requires m.sid == sid ==> forall i :: 0 <= i < |got| ==> got[i].sid != sid
    ensures OfSid(got, sid) + OfSid([m] + keep, sid)
         == (if m.sid == sid then [m] else []) + (OfSid(got, sid) + OfSid(keep, sid))
  {
    assert ([m] + keep)[1..] == keep;
    if m.sid == sid {
      NoneOfSid(got, sid);
    } else {
      assert [] + OfSid(keep, sid) == OfSid(keep, sid);
    }
  }

  lemma {:induction false} SplitKeepsOrder(messages: seq<Message>, wanted: Option<nat>, sid: nat)
    ensures if Matches(Message([], sid, None, []), wanted)
            then OfSid(Wanted(messages, wanted), sid) == OfSid(messages, sid) && OfSid(Unwanted(messages, wanted), sid) == []
            else OfSid(Wanted(messages, wanted), sid) == [] && OfSid(Unwanted(messages, wanted), sid) == OfSid(messages, sid)
  {
    if messages == [] {
    } else {
      SplitKeepsOrder(messages[1..], wanted, sid);
      var wants, others := Wanted(messages[1..], wanted), Unwanted(messages[1..], wanted);
      assert ([messages[0]] + wants)[1..] == wants && ([messages[0]] + others)[1..] == others;
      assert [] + wants == wants && [] + others == others;
    }
  }

  /** One call: what it returns and what is pending afterwards, if it read `messages` from the wire. */
  datatype Call = Call(count: nat, wanted: Option<nat>, messages: seq<Message>)

  function Returned(pending: seq<Message>, call: Call): seq<Message> {
    Take(pending, call.count, call.wanted).0 + Wanted(call.messages, call.wanted)
  }

  function Kept(pending: seq<Message>, call: Call): seq<Message> {
    Take(pending, call.count, call.wanted).1 + Unwanted(call.messages, call.wanted)
  }

  /** A call reads from the wire only while it still lacks messages. */
  predicate Possible(pending: seq<Message>, call: Call) {
    call.messages != [] ==> |Take(pending, call.count, call.wanted).0| < call.count
  }

  lemma CallKeepsOrder(pending: seq<Message>, call: Call, sid: nat)
    requires Possible(pending, call)
    ensures OfSid(Returned(pending, call), sid) + OfSid(Kept(pending, call), sid)
         == OfSid(pending, sid) + OfSid(call.messages, sid)
  {
    var (got, keep) := Take(pending, call.count, call.wanted);
    var more, others := Wanted(call.messages, call.wanted), Unwanted(call.messages, call.wanted);
    TakeKeepsOrder(pending, call.count, call.wanted, sid);
    SplitKeepsOrder(call.messages, call.wanted, sid);
    WantedAppend(got, more, Some(sid));
    WantedAppend(keep, others, Some(sid));
    TakeFacts(pending, call.count, call.wanted);
    if call.messages == [] {
    } else if Matches(Message([], sid, None, []), call.wanted) {
      NoneOfSid(keep, sid);
    } else {
      NoneOfSid(got, sid);
    }
  }

  function PendingAfter(calls: seq<Call>): seq<Message> {
    if calls == [] then [] else Kept(PendingAfter(calls[..|calls| - 1]), calls[|calls| - 1])
  }

  function AllReturned(calls: seq<Call>): seq<Message> {
    if calls == [] then []
    else AllReturned(calls[..|calls| - 1]) + Returned(PendingAfter(calls[..|calls| - 1]), calls[|calls| - 1])
  }

  function AllRead(calls: seq<Call>): seq<Message> {
    if calls == [] then [] else AllRead(calls[..|calls| - 1]) + calls[|calls| - 1].messages
  }

  ghost predicate AllPossible(calls: seq<Call>) {
    calls == [] ||
      (var front := calls[..|calls| - 1]; AllPossible(front) && Possible(PendingAfter(front), calls[|calls| - 1]))
  }

  lemma Regroup(returned: seq<Message>, more: seq<Message>, kept: seq<Message>, pending: seq<Message>, read: seq<Message>, now: seq<Message>)
    requires returned + pending == read && more + kept == pending + now
    ensures (returned + more) + kept == read + now
  {
    assert (returned + more) + kept == returned + (more + kept) == (returned + pending) + now;
  }

  /** Over any sequence of calls, the messages of each subscription come out in order, none lost and
      none repeated: returned ones followed by pending ones are exactly those read. */
  lemma {:induction false} CallsKeepOrder(calls: seq<Call>, sid: nat)
    requires AllPossible(calls)
    ensures OfSid(AllReturned(calls), sid) + OfSid(PendingAfter(calls), sid) == OfSid(AllRead(calls), sid)
  {
    if calls == [] {
    } else {
      var front, last := calls[..|calls| - 1], calls[|calls| - 1];
      CallsKeepOrder(front, sid);
      CallKeepsOrder(PendingAfter(front), last, sid);
      WantedAppend(AllReturned(front), Returned(PendingAfter(front), last), Some(sid));
      WantedAppend(AllRead(front), last.messages, Some(sid));
      Regroup(OfSid(AllReturned(front), sid), OfSid(Returned(PendingAfter(front), last), sid),
        OfSid(PendingAfter(calls), sid), OfSid(PendingAfter(front), sid), OfSid(AllRead(front), sid), OfSid(last.messages, sid));
    }
  }
}

/** The reader of one connection (anvil_events/transport/protocol.py, class `NATSWire`). */
module Wire {
  import opened Basics
  import Identity
  import opened WireFormat
  import opened Routing

  /** What `recv` yields next: some bytes or a timeout; after the last entry the peer has closed. */
  datatype Recv = Chunk(data: Bytes) | TimedOut

  function Flatten(script: seq<Recv>): Bytes {
    if script == [] then []
    else (if script[0].Chunk? then script[0].data else []) + Flatten(script[1..])
  }

  /** How many timeouts are still to come. */
  function Timeouts(script: seq<Recv>): nat {
    if script == [] then 0 else (if script[0].TimedOut? then 1 else 0) + Timeouts(script[1..])
  }

  datatype Outcome<T> = Got(value: T) | Late | Broken(error: WireError)

  /** A call that ended by a timeout has used it up. */
  function Lost<T>(r: Outcome<T>): nat {
    if r.Late? then 1 else 0
  }

  class Socket {
    var script: seq<Recv>
    var sent: seq<Bytes>

    constructor (script: seq<Recv>)
      ensures this.script == script && sent == []
    {
      this.script, sent := script, [];
    }

    ghost predicate Valid()
      reads this
    {
      forall i :: 0 <= i < |script| && script[i].Chunk? ==> 0 < |script[i].data| <= RECV_SIZE
    }

    method Recv() returns (r: Outcome<Bytes>)
      requires Valid()
      modifies `script
      ensures Valid()
      ensures if old(script) == [] then r == Got([]) && script == []
              else
                && script == old(script)[1..]
                && match old(script)[0]
                   case Chunk(data) => r == Got(data) && 0 < |data| <= RECV_SIZE
                   case TimedOut => r == Late
      ensures Timeouts(script) + Lost(r) == Timeouts(old(script))
    {
      if script == [] {
        return Got([]);
      }
      var next := script[0];
      script := script[1..];
      return if next.Chunk? then Got(next.data) else Late;
    }

    method SendAll(data: Bytes)
      modifies `sent
      ensures sent == old(sent) + [data]
    {
      sent := sent + [data];
    }
  }

  function Pongs(frames: seq<Frame>): seq<Bytes> {
    if frames == [] then [] else (if frames[0].PingFrame? then [PONG_LINE] else []) + Pongs(frames[1..])
  }

  lemma {:induction false} FramesAppend(frames: seq<Frame>, f: Frame)
    ensures Messages(frames + [f]) == Messages(frames) + (if IsMessage(f) then [f.message] else [])
    ensures Pongs(frames + [f]) == Pongs(frames) + (if f.PingFrame? then [PONG_LINE] else [])
  {
    if frames == [] {
    } else {
      var more, pong := if IsMessage(f) then [f.message] else [], if f.PingFrame? then [PONG_LINE] else [];
      var head, first := if IsMessage(frames[0]) then [frames[0].message] else [], if frames[0].PingFrame? then [PONG_LINE] else [];
      FramesAppend(frames[1..], f);
      assert (frames + [f])[1..] == frames[1..] + [f] && (frames + [f])[0] == frames[0];
      assert head + (Messages(frames[1..]) + more) == head + Messages(frames[1..]) + more;
      assert first + (Pongs(frames[1..]) + pong) == first + Pongs(frames[1..]) + pong;
    }
  }

  ghost predicate AllWellFormed(frames: seq<Frame>) {
    forall i :: 0 <= i < |frames| ==> WellFormed(frames[i])
  }

  /** Where the first line of a stream of frames ends. */
  lemma FirstLine(f: Frame, more: Bytes)
    requires WellFormed(f)
    ensures var stream, n := Encode(f) + more, |Line(f)|;
      && Find(stream) == Some(n) && stream[..n] == Line(f) && stream[n + 2..] == Tail(f) + more
      && !StartsWith(Line(f), ERR)
  {
    LineIsPlain(f);
    FindAfterLine(Line(f), Tail(f) + more);
    assert Encode(f) + more == Line(f) + CRLF + (Tail(f) + more);
  }

  /** What the reader has in hand after it read the line of frame `f`. */
  ghost predicate AtFrame(f: Frame, more: Bytes, line: Bytes, tail: Bytes) {
    line == Line(f) && if IsMessage(f) then AtMessage(f, more, tail) else AtSignal(f, line) && tail == more
  }

  ghost predicate AtMessage(f: Frame, more: Bytes, tail: Bytes)
    requires IsMessage(f)
  {
    var n := |Payload(f)|;
    && ReadsBack(f) && tail == Tail(f) + more
    && |tail| >= n + 2 && tail[..n] == Payload(f) && tail[n..n + 2] == CRLF && tail[n + 2..] == more
  }

  ghost predicate AtSignal(f: Frame, line: Bytes) {
    (line == PING <==> f.PingFrame?) && (line == PING || line == OK || StartsWith(line, INFO))
  }

  lemma PayloadFollows(f: Frame, more: Bytes)
    requires IsMessage(f) && WellFormed(f)
    ensures AtMessage(f, more, Tail(f) + more)
  {
    DecodesMessage(f);
    var payload, tail := Payload(f), Tail(f) + more;
    assert tail == payload + CRLF + more;
  }

  lemma ReachesFrame(f: Frame, more: Bytes, line: Bytes)
    requires WellFormed(f) && Find(Encode(f) + more) == Some(|line|) && line == (Encode(f) + more)[..|line|]
    ensures AtFrame(f, more, line, (Encode(f) + more)[|line| + 2..])
  {
    FirstLine(f, more);
    if IsMessage(f) {
      PayloadFollows(f, more);
    } else {
      assert [] + more == more;
      assert AtSignal(f, Line(f));
    }
  }

  /** The bytes of a stream determine its first frame's message, whether it is a PING, and the rest. */
  lemma FirstFrameIsDetermined(f: Frame, g: Frame, x: Bytes, y: Bytes)
    requires WellFormed(f) && WellFormed(g) && Encode(f) + x == Encode(g) + y
    ensures x == y && IsMessage(f) == IsMessage(g) && f.PingFrame? == g.PingFrame?
    ensures IsMessage(f) ==> f.message == g.message
  {
    FirstLine(f, x);
    FirstLine(g, y);
    var line := Line(f);
    assert Line(g) == line && Tail(f) + x == Tail(g) + y;
    ReachesFrame(f, x, line);
    ReachesFrame(g, y, line);
  }

  lemma StreamOfFrames(frames: seq<Frame>)
    ensures EncodeAll(frames) == [] <==> frames == []
  {
    if frames != [] {
      assert |Encode(frames[0])| >= 2;
    }
  }

  /** So parsing a whole well-formed stream has one result. */
  lemma {:induction false} StreamDeterminesMessages(a: seq<Frame>, b: seq<Frame>)
    requires AllWellFormed(a) && AllWellFormed(b) && EncodeAll(a) == EncodeAll(b)
    ensures |a| == |b| && Messages(a) == Messages(b) && Pongs(a) == Pongs(b)
  {
    StreamOfFrames(a);
    StreamOfFrames(b);
    if a == [] {
    } else {
      FirstFrameIsDetermined(a[0], b[0], EncodeAll(a[1..]), EncodeAll(b[1..]));
      StreamDeterminesMessages(a[1..], b[1..]);
    }
  }

  /** Consuming one more frame routes its message, if it is one. */
  lemma TakesFrame(frames: seq<Frame>, taken: nat, wanted: Option<nat>)
    requires taken < |frames|
    ensures var f, so := frames[taken], Messages(frames[..taken]);
      && Messages(frames[..taken + 1]) == so + (if IsMessage(f) then [f.message] else [])
      && Pongs(frames[..taken + 1]) == Pongs(frames[..taken]) + (if f.PingFrame? then [PONG_LINE] else [])
      && frames[taken..][1..] == frames[taken + 1..]
      && Wanted(Messages(frames[..taken + 1]), wanted)
         == Wanted(so, wanted) + (if IsMessage(f) && Matches(f.message, wanted) then [f.message] else [])
      && Unwanted(Messages(frames[..taken + 1]), wanted)
         == Unwanted(so, wanted) + (if IsMessage(f) && !Matches(f.message, wanted) then [f.message] else [])
  {
    var f, so := frames[taken], Messages(frames[..taken]);
    assert frames[..taken + 1] == frames[..taken] + [f];
    FramesAppend(frames[..taken], f);
    var one := if IsMessage(f) then [f.message] else [];
    WantedAppend(so, one, wanted);
    UnwantedAppend(so, one, wanted);
    assert so + [] == so;
  }

  lemma OneMorePong(sent: seq<Bytes>, answered: seq<Bytes>, frames: seq<Frame>, taken: nat)
    requires taken < |frames| && answered == sent + Pongs(frames[..taken])
    ensures answered + (if frames[taken].PingFrame? then [PONG_LINE] else []) == sent + Pongs(frames[..taken + 1])
  {
    TakesFrame(frames, taken, None);
  }

  /** `got` and `pending` are what a call has returned and kept after `taken` frames. */
  ghost predicate Serving(frames: seq<Frame>, taken: nat, before: seq<Message>, count: nat, wanted: Option<nat>,
                          got: seq<Message>, pending: seq<Message>)
    requires taken <= |frames|
  {
    var call := Call(count, wanted, Messages(frames[..taken]));
    Possible(before, call) && got == Returned(before, call) && pending == Kept(before, call)
  }

  /** The call goes on as far as `taken` because what it had before the last frame was too little. */
  ghost predicate Taking(frames: seq<Frame>, taken: nat, before: seq<Message>, count: nat, wanted: Option<nat>) {
    && taken <= |frames|
    && Possible(before, Call(count, wanted, Messages(frames[..taken])))
    && (taken > 0 ==> |Returned(before, Call(count, wanted, Messages(frames[..taken - 1])))| < count)
  }

  lemma StillTaking(frames: seq<Frame>, taken: nat, before: seq<Message>, count: nat, wanted: Option<nat>,
                    got: seq<Message>, pending: seq<Message>)
    requires taken < |frames| && |got| < count && Serving(frames, taken, before, count, wanted, got, pending)
    ensures Taking(frames, taken + 1, before, count, wanted)
  {
    StillServing(frames, taken, before, count, wanted, got, pending);
  }

  /** Between two frames of a call. */
  ghost predicate InCall(frames: seq<Frame>, taken: nat, before: seq<Message>, count: nat, wanted: Option<nat>,
                         got: seq<Message>, pending: seq<Message>) {
    Taking(frames, taken, before, count, wanted) && Serving(frames, taken, before, count, wanted, got, pending)
  }

  lemma StartsServing(frames: seq<Frame>, before: seq<Message>, count: nat, wanted: Option<nat>)
    ensures var (got, pending) := Take(before, count, wanted);
      Serving(frames, 0, before, count, wanted, got, pending) && |got| <= count
    ensures frames[0..] == frames && Pongs(frames[..0]) == []
  {
    TakeFacts(before, count, wanted);
    var (got, pending) := Take(before, count, wanted);
    assert frames[..0] == [] && got + [] == got && pending + [] == pending;
  }

  lemma StillServing(frames: seq<Frame>, taken: nat, before: seq<Message>, count: nat, wanted: Option<nat>,
                     got: seq<Message>, pending: seq<Message>)
    requires taken < |frames| && |got| < count && Serving(frames, taken, before, count, wanted, got, pending)
    ensures var f := frames[taken];
      var matched := IsMessage(f) && Matches(f.message, wanted);
      Serving(frames, taken + 1, before, count, wanted,
        if matched then got + [f.message] else got,
        if IsMessage(f) && !matched then pending + [f.message] else pending)
  {
    TakesFrame(frames, taken, wanted);
    var f := frames[taken];
    var (first, kept) := Take(before, count, wanted);
    var so := Messages(frames[..taken]);
    if IsMessage(f) {
      assert first + (Wanted(so, wanted) + [f.message]) == first + Wanted(so, wanted) + [f.message];
      assert kept + (Unwanted(so, wanted) + [f.message]) == kept + Unwanted(so, wanted) + [f.message];
    }
    assert Wanted(so, wanted) + [] == Wanted(so, wanted) && Unwanted(so, wanted) + [] == Unwanted(so, wanted);
  }

  /** A buffer that overflowed had no line end for very long. */
  lemma OverflowIsFar(before: Bytes, chunk: Bytes, more: Bytes)
    requires Find(before).None? && |before + chunk| > 2 * MAX_BODY && |chunk| <= RECV_SIZE
    ensures Find(before + (chunk + more)).Some? ==>
              Find(before + (chunk + more)).value + 1 >= 2 * MAX_BODY - RECV_SIZE
  {
    FindInPrefix(before, chunk + more);
  }

  /** The first `i` pending messages have gone to `got` and `keep`. */
  ghost predicate Splits(all: seq<Message>, i: nat, count: nat, wanted: Option<nat>, got: seq<Message>, keep: seq<Message>) {
    && i <= |all| && |got| <= count
    && var (more, rest) := Take(all[i..], count - |got|, wanted); Take(all, count, wanted) == (got + more, keep + rest)
  }

  lemma SplitsOn(all: seq<Message>, i: nat, count: nat, wanted: Option<nat>, got: seq<Message>, keep: seq<Message>)
    requires i < |all| && Splits(all, i, count, wanted, got, keep)
    ensures if |got| < count && Matches(all[i], wanted) then Splits(all, i + 1, count, wanted, got + [all[i]], keep)
            else Splits(all, i + 1, count, wanted, got, keep + [all[i]])
  {
    assert all[i..][1..] == all[i + 1..];
    var (more, rest) := Take(all[i..], count - |got|, wanted);
    if |got| < count && Matches(all[i], wanted) {
      assert got + more == got + [all[i]] + more[1..];
    } else {
      assert keep + rest == keep + [all[i]] + rest[1..];
    }
  }

  /** The frames of a stream that a call consumes: those in front of `taken`, unless it was torn off a
      message whose control line it had already read. */
  ghost predicate Consumed(stream: Bytes, frames: seq<Frame>, taken: nat, torn: bool) {
    && taken <= |frames|
    && if !torn then stream == EncodeAll(frames[taken..])
       else taken < |frames| && IsMessage(frames[taken])
            && stream == Tail(frames[taken]) + EncodeAll(frames[taken + 1..])
  }

  /** What was received before a timeout is not the whole of what was waited for: a control line, or the
      body of frame `taken`. */
  ghost predicate Incomplete(buffer: Bytes, frames: seq<Frame>, taken: nat, torn: bool)
    requires torn ==> taken < |frames|
  {
    if torn then |buffer| < |Tail(frames[taken])| else Find(buffer).None?
  }

  const TORN := MsgFrame(Message([97], 1, None, PING))

  lemma TornFrame()
    ensures IsMessage(TORN) && WellFormed(TORN) && Tail(TORN) == Encode(PingFrame)
  {
    ValidSubjectExactly([97]);
    ParseDecimal(1);
    ParseDecimal(4);
    assert Identity.Decimal(1) == [Identity.Digit(1)] && Identity.Decimal(4) == [Identity.Digit(4)];
    assert |Decimal(1)| == 1 && |Decimal(4)| == 1;
    assert Tokens(TORN) == [MSG, [97], Decimal(1), Decimal(4)];
    assert Line(TORN) == MSG + [SPACE] + ([97] + [SPACE] + (Decimal(1) + [SPACE] + Decimal(4)));
  }

  /** Why a torn call loses more than time. What it leaves behind a message with the body `PING` is the
      stream of a peer that never sent that message but a PING in its place: by its contract the next
      call answers this PING, and goes on behind it. The message is lost. */
  lemma TornBodyReadsAsCommand(stream: Bytes, frames: seq<Frame>, taken: nat)
    requires AllWellFormed(frames) && taken < |frames| && frames[taken] == TORN && Consumed(stream, frames, taken, true)
    ensures var heard := [PingFrame] + frames[taken + 1..];
      && AllWellFormed(heard) && stream == EncodeAll(heard)
      && Messages(heard) == Messages(frames[taken + 1..])
      && Messages(frames[taken..]) == [TORN.message] + Messages(heard)
      && Pongs(heard[..1]) == [PONG_LINE]
  {
    TornFrame();
    var rest := frames[taken + 1..];
    var heard := [PingFrame] + rest;
    assert heard[0] == PingFrame && heard[1..] == rest;
    assert frames[taken..][0] == TORN && frames[taken..][1..] == rest;
    assert [] + Messages(rest) == Messages(rest);
    assert heard[..1] == [PingFrame] && [PingFrame][1..] == [];
    forall i | 0 <= i < |heard|
      ensures WellFormed(heard[i])
    {
      if i > 0 {
        assert heard[i] == frames[taken + i];
      }
    }
  }

  /** With the messages of these frames a call has as many as it is asked for. */
  ghost predicate Enough(frames: seq<Frame>, before: seq<Message>, count: nat, wanted: Option<nat>) {
    |Returned(before, Call(count, wanted, Messages(frames)))| >= count
  }

  /** What a call returns, if it does, and what it keeps. */
  ghost predicate HandsOut(r: Result<seq<Message>, WireError>, before: seq<Message>, pending: seq<Message>, call: Call) {
    && |Returned(before, call)| <= call.count && pending == Kept(before, call)
    && match r
       case Success(messages) => messages == Returned(before, call)
       case Failure(e) => e.ConnectionClosed?
  }

  /** What one call of `receive` is asked for. */
  datatype Ask = Ask(count: nat, clock: nat, subscription: Option<Bytes>)

  function Concat(answers: seq<seq<Message>>): seq<Message> {
    if answers == [] then [] else Concat(answers[..|answers| - 1]) + answers[|answers| - 1]
  }

  /** Where a sequence of calls stands: what they read are the messages of the first `at` frames. */
  ghost predicate SessionState(frames: seq<Frame>, at: nat, calls: seq<Call>, answers: seq<seq<Message>>,
                               pending: seq<Message>, stream: Bytes) {
    && at <= |frames| && stream == EncodeAll(frames[at..])
    && AllPossible(calls) && AllRead(calls) == Messages(frames[..at])
    && Concat(answers) == AllReturned(calls) && pending == PendingAfter(calls)
  }

  lemma {:induction false} MessagesAppend(a: seq<Frame>, b: seq<Frame>)
    ensures Messages(a + b) == Messages(a) + Messages(b)
  {
    if a == [] {
      assert a + b == b;
    } else {
      var head := if IsMessage(a[0]) then [a[0].message] else [];
      MessagesAppend(a[1..], b);
      assert (a + b)[1..] == a[1..] + b && (a + b)[0] == a[0];
      assert head + (Messages(a[1..]) + Messages(b)) == head + Messages(a[1..]) + Messages(b);
    }
  }

  /** Frames consumed before and in one more call. */
  lemma FramesSplit(frames: seq<Frame>, at: nat, taken: nat)
    requires at <= |frames| && taken <= |frames[at..]|
    ensures Messages(frames[..at + taken]) == Messages(frames[..at]) + Messages(frames[at..][..taken])
    ensures frames[at..][taken..] == frames[at + taken..]
  {
    assert frames[..at + taken] == frames[..at] + frames[at..][..taken];
    MessagesAppend(frames[..at], frames[at..][..taken]);
  }

  lemma RestIsWellFormed(frames: seq<Frame>, at: nat)
    requires AllWellFormed(frames) && at <= |frames|
    ensures AllWellFormed(frames[at..])
  {
  }

  lemma OneMoreCall(calls: seq<Call>, call: Call)
    requires AllPossible(calls) && Possible(PendingAfter(calls), call)
    ensures AllPossible(calls + [call])
    ensures AllRead(calls + [call]) == AllRead(calls) + call.messages
    ensures AllReturned(calls + [call]) == AllReturned(calls) + Returned(PendingAfter(calls), call)
    ensures PendingAfter(calls + [call]) == Kept(PendingAfter(calls), call)
  {
    assert (calls + [call])[..|calls|] == calls;
  }

  lemma SessionGoesOn(frames: seq<Frame>, at: nat, calls: seq<Call>, answers: seq<seq<Message>>, before: seq<Message>,
                      rest: seq<Frame>, taken: nat, call: Call, r: Result<seq<Message>, WireError>, pending: seq<Message>, stream: Bytes)
    returns (calls': seq<Call>, at': nat)
    requires at <= |frames| && SessionState(frames, at, calls, answers, before, EncodeAll(rest))
    requires rest == frames[at..] && Taking(rest, taken, before, call.count, call.wanted) && call.messages == Messages(rest[..taken])
    requires r.Success? && HandsOut(r, before, pending, call) && Consumed(stream, rest, taken, false)
    ensures SessionState(frames, at', calls', answers + [r.value], pending, stream)
  {
    calls', at' := calls + [call], at + taken;
    OneMoreCall(calls, call);
    FramesSplit(frames, at, taken);
    assert (answers + [r.value])[..|answers|] == answers;
  }

  /** Where a call stands after `taken` frames. */
  ghost predicate CallState(frames: seq<Frame>, taken: nat, before: seq<Message>, count: nat, wanted: Option<nat>,
                            got: seq<Message>, pending: seq<Message>, stream: Bytes, sent: seq<Bytes>, now: seq<Bytes>) {
    && InCall(frames, taken, before, count, wanted, got, pending)
    && stream == EncodeAll(frames[taken..]) && now == sent + Pongs(frames[..taken])
  }

  lemma CallGoesOn(frames: seq<Frame>, taken: nat, before: seq<Message>, count: nat, wanted: Option<nat>,
                   got: seq<Message>, pending: seq<Message>, got': seq<Message>, pending': seq<Message>, stream': Bytes,
                   sent: seq<Bytes>, now: seq<Bytes>, now': seq<Bytes>)
    requires taken < |frames| && |got| < count && Serving(frames, taken, before, count, wanted, got, pending)
    requires Serving(frames, taken + 1, before, count, wanted, got', pending') && stream' == EncodeAll(frames[taken + 1..])
    requires now == sent + Pongs(frames[..taken]) && now' == now + if frames[taken].PingFrame? then [PONG_LINE] else []
    ensures CallState(frames, taken + 1, before, count, wanted, got', pending', stream', sent, now')
  {
    StillTaking(frames, taken, before, count, wanted, got, pending);
    OneMorePong(sent, now, frames, taken);
  }

  /** `SUB`, the subject and the subscription id. */
  function Subscription(subject: Bytes, sid: nat): Bytes {
    [83, 85, 66, 32] + subject + [SPACE] + Decimal(sid) + CRLF
  }

  class NATSWire {
    const sock: Socket
    var buffer: Bytes
    var subscriptions: map<Bytes, nat>
    var nextSid: nat
    var pending: seq<Message>

    constructor (sock: Socket)
      ensures this.sock == sock && buffer == [] && subscriptions == map[] && nextSid == 1 && pending == []
    {
      this.sock := sock;
      buffer, subscriptions, nextSid, pending := [], map[], 1, [];
    }

    /** Everything not yet consumed: buffered bytes and those still to arrive. */
    ghost function Stream(): Bytes
      reads this, sock
    {
      buffer + Flatten(sock.script)
    }

    /** No two subjects share a subscription id, and the next id is unused. */
    ghost predicate DistinctSids()
      reads this
    {
      && (forall s :: s in subscriptions ==> 0 < subscriptions[s] < nextSid)
      && (forall s, t :: s in subscriptions && t in subscriptions && subscriptions[s] == subscriptions[t] ==> s == t)
    }

    /** `valid`: the subject passes the check of subscription subjects. */
    method Subscribe(subject: Bytes, valid: bool) returns (sid: Option<nat>)
      requires DistinctSids() && nextSid > 0
      modifies this, sock`sent
      ensures DistinctSids() && nextSid > 0
      ensures buffer == old(buffer) && pending == old(pending)
      ensures sid.None? <==> !valid
      ensures sid.Some? ==> subject in subscriptions && subscriptions[subject] == sid.value
      ensures if valid && subject !in old(subscriptions) then
                && subscriptions == old(subscriptions)[subject := old(nextSid)] && nextSid == old(nextSid) + 1
                && sock.sent == old(sock.sent) + [Subscription(subject, old(nextSid))]
              else subscriptions == old(subscriptions) && nextSid == old(nextSid) && sock.sent == old(sock.sent)
    {
      if !valid {
        return None;
      }
      if subject !in subscriptions {
        subscriptions := subscriptions[subject := nextSid];
        nextSid := nextSid + 1;
        sock.SendAll(Subscription(subject, subscriptions[subject]));
      }
      return Some(subscriptions[subject]);
    }

    /** Receive until the buffer holds a line end. */
    method FillLine() returns (r: Outcome<nat>)
      requires sock.Valid()
      modifies `buffer, sock`script
      ensures sock.Valid() && |sock.script| <= |old(sock.script)| && Stream() == old(Stream())
      ensures match r
              case Got(at) => Find(buffer) == Some(at) && Find(Stream()) == Some(at)
              case Late => Find(buffer).None?
              case Broken(ConnectionClosed) => Find(Stream()) == None
              case Broken(BufferOverflow) =>
                && |Stream()| > 2 * MAX_BODY
                && (Find(Stream()).Some? ==> Find(Stream()).value + 1 >= 2 * MAX_BODY - RECV_SIZE)
              case Broken(_) => false
      ensures Timeouts(sock.script) + Lost(r) == Timeouts(old(sock.script))
    {
      ghost var stream := Stream();
      while Find(buffer).None?
        invariant sock.Valid() && |sock.script| <= |old(sock.script)| && Stream() == stream
        invariant Timeouts(sock.script) == Timeouts(old(sock.script))
        decreases |sock.script|
      {
        var chunk := sock.Recv();
        if chunk.Late? {
          return Late;
        }
        if chunk.value == [] {
          assert stream == buffer;
          return Broken(ConnectionClosed);
        }
        assert stream == buffer + (chunk.value + Flatten(sock.script));
        ghost var before := buffer;
        buffer := buffer + chunk.value;
        assert Stream() == stream;
        if |buffer| > 2 * MAX_BODY {
          OverflowIsFar(before, chunk.value, Flatten(sock.script));
          return Broken(BufferOverflow);
        }
      }
      FindInPrefix(buffer, Flatten(sock.script));
      return Got(Find(buffer).value);
    }

    method ReadLine() returns (r: Outcome<Bytes>)
      requires sock.Valid()
      modifies `buffer, sock`script
      ensures sock.Valid() && |sock.script| <= |old(sock.script)|
      ensures match r
              case Got(line) =>
                && Find(old(Stream())) == Some(|line|) && line == old(Stream())[..|line|]
                && Stream() == old(Stream())[|line| + 2..] && !StartsWith(line, ERR)
              case Late => Stream() == old(Stream()) && Find(buffer).None?
              case Broken(ConnectionClosed) => Find(old(Stream())) == None && Stream() == old(Stream())
              case Broken(BufferOverflow) =>
                && |old(Stream())| > 2 * MAX_BODY
                && (Find(old(Stream())).Some? ==> Find(old(Stream())).value + 1 >= 2 * MAX_BODY - RECV_SIZE)
              case Broken(ServerError(line)) =>
                Find(old(Stream())) == Some(|line|) && line == old(Stream())[..|line|] && StartsWith(line, ERR)
              case Broken(_) => false
      ensures Timeouts(sock.script) + Lost(r) == Timeouts(old(sock.script))
    {
      var end := FillLine();
      if end.Late? {
        return Late;
      }
      if end.Broken? {
        return Broken(end.error);
      }
      var at := end.value;
      var line := buffer[..at];
      ghost var stream := Stream();
      assert stream[..at] == line && stream[at + 2..] == buffer[at + 2..] + Flatten(sock.script);
      buffer := buffer[at + 2..];
      if StartsWith(line, ERR) {
        return Broken(ServerError(line));
      }
      return Got(line);
    }

    method ReadBody(size: nat) returns (r: Outcome<Bytes>)
      requires sock.Valid()
      modifies `buffer, sock`script
      ensures sock.Valid() && |sock.script| <= |old(sock.script)|
      ensures match r
              case Got(body) =>
                && size <= MAX_BODY && |old(Stream())| >= size + 2 && body == old(Stream())[..size]
                && old(Stream())[size..size + 2] == CRLF && Stream() == old(Stream())[size + 2..]
              case Late => Stream() == old(Stream()) && |buffer| < size + 2
              case Broken(FrameTooLarge) => size > MAX_BODY
              case Broken(ConnectionClosed) => |old(Stream())| < size + 2
              case Broken(BadTerminator) => |old(Stream())| >= size + 2 && old(Stream())[size..size + 2] != CRLF
              case Broken(_) => false
      ensures Timeouts(sock.script) + Lost(r) == Timeouts(old(sock.script))
    {
      if size > MAX_BODY {
        return Broken(FrameTooLarge);
      }
      ghost var stream := Stream();
      while |buffer| < size + 2
        invariant sock.Valid() && |sock.script| <= |old(sock.script)| && Stream() == stream
        invariant Timeouts(sock.script) == Timeouts(old(sock.script))
        decreases |sock.script|
      {
        var chunk := sock.Recv();
        if chunk.Late? {
          return Late;
        }
        if chunk.value == [] {
          return Broken(ConnectionClosed);
        }
        buffer := buffer + chunk.value;
      }
      var body := buffer[..size];
      assert stream[size..size + 2] == buffer[size..size + 2];
      if buffer[size..size + 2] != CRLF {
        return Broken(BadTerminator);
      }
      assert stream[size + 2..] == buffer[size + 2..] + Flatten(sock.script);
      assert stream[..size] == body;
      buffer := buffer[size + 2..];
      return Got(body);
    }

    /** Read the rest of a message whose control line is `line`. */
    method DecodeMessage(line: Bytes) returns (r: Outcome<Message>)
      requires sock.Valid()
      modifies `buffer, sock`script
      ensures sock.Valid() && |sock.script| <= |old(sock.script)|
      ensures ParseControl(line).Success? ==>
        var size, stream := ParseControl(line).value.size, old(Stream());
        match r
        case Got(m) =>
          && |stream| >= size + 2 && Stream() == stream[size + 2..]
          && Finish(ParseControl(line).value, stream[..size]) == Success(m)
        case Late => Stream() == stream && |buffer| < size + 2
        case Broken(e) =>
          || (|stream| >= size + 2 && Finish(ParseControl(line).value, stream[..size]) == Failure(e))
          || (e.FrameTooLarge? && size > MAX_BODY)
          || (e.ConnectionClosed? && |stream| < size + 2)
          || (e.BadTerminator? && |stream| >= size + 2 && stream[size..size + 2] != CRLF)
      ensures ParseControl(line).Failure? ==> r == Broken(ParseControl(line).error) && Stream() == old(Stream())
      ensures Timeouts(sock.script) + Lost(r) == Timeouts(old(sock.script))
    {
      var control := ParseControl(line);
      if control.Failure? {
        return Broken(control.error);
      }
      var body := ReadBody(control.value.size);
      match body {
        case Late => return Late;
        case Broken(e) => return Broken(e);
        case Got(bytes) =>
          var message := Finish(control.value, bytes);
          return if message.Success? then Got(message.value) else Broken(message.error);
      }
    }

    method TakePending(count: nat, wanted: Option<nat>) returns (got: seq<Message>)
      modifies `pending
      ensures (got, pending) == Take(old(pending), count, wanted)
    {
      got := [];
      var keep := [];
      ghost var all := pending;
      assert all[0..] == all && [] + Take(all, count, wanted).0 == Take(all, count, wanted).0;
      assert [] + Take(all, count, wanted).1 == Take(all, count, wanted).1;
      for i := 0 to |pending|
        invariant pending == all && |got| <= count && Splits(all, i, count, wanted, got, keep)
      {
        var message := pending[i];
        SplitsOn(all, i, count, wanted, got, keep);
        if |got| < count && (wanted.None? || message.sid == wanted.value) {
          got := got + [message];
        } else {
          keep := keep + [message];
        }
      }
      assert all[|all|..] == [] && got + [] == got && keep + [] == keep;
      pending := keep;
    }

    /** Read one control line and what belongs to it. `frames` is what the peer has yet to say, if
        that is well formed. */
    method ReadFrame(ghost frames: seq<Frame>, ghost good: bool) returns (r: Outcome<Option<Message>>, ghost torn: bool)
      requires sock.Valid() && (good ==> AllWellFormed(frames) && Stream() == EncodeAll(frames))
      modifies `buffer, sock
      ensures sock.Valid() && |sock.script| <= |old(sock.script)|
      ensures good ==>
        match r
        case Got(message) =>
          && frames != [] && Stream() == EncodeAll(frames[1..])
          && message == (if IsMessage(frames[0]) then Some(frames[0].message) else None)
          && sock.sent == old(sock.sent) + (if frames[0].PingFrame? then [PONG_LINE] else [])
        case Late =>
          && sock.sent == old(sock.sent)
          && if !torn then Stream() == EncodeAll(frames) && Find(buffer).None?
             else
               && frames != [] && IsMessage(frames[0]) && Stream() == Tail(frames[0]) + EncodeAll(frames[1..])
               && |buffer| < |Tail(frames[0])|
        case Broken(e) => e.ConnectionClosed? && frames == [] && Stream() == [] && sock.sent == old(sock.sent)
      ensures Timeouts(sock.script) + Lost(r) == Timeouts(old(sock.script))
    {
      torn := false;
      ghost var stream := Stream();
      ghost var more := if frames == [] then [] else EncodeAll(frames[1..]);
      if good && frames != [] {
        FirstLine(frames[0], more);
      }
      var line := ReadLine();
      if line.Late? {
        return Late, false;
      }
      if line.Broken? {
        return Broken(line.error), false;
      }
      if good {
        ReachesFrame(frames[0], more, line.value);
      }
      r, torn := Dispatch(line.value, if frames == [] then OkFrame else frames[0], more, good);
    }

    /** Act on a control line just read, which is that of `f` if the stream is well formed. */
    method Dispatch(line: Bytes, ghost f: Frame, ghost more: Bytes, ghost good: bool) returns (r: Outcome<Option<Message>>, ghost torn: bool)
      requires sock.Valid() && (good ==> WellFormed(f) && AtFrame(f, more, line, Stream()))
      modifies `buffer, sock
      ensures sock.Valid() && |sock.script| <= |old(sock.script)|
      ensures good ==>
        match r
        case Got(message) =>
          && Stream() == more && message == (if IsMessage(f) then Some(f.message) else None)
          && sock.sent == old(sock.sent) + (if f.PingFrame? then [PONG_LINE] else [])
        case Late => torn && IsMessage(f) && Stream() == Tail(f) + more && |buffer| < |Tail(f)| && sock.sent == old(sock.sent)
        case Broken(e) => false
      ensures Timeouts(sock.script) + Lost(r) == Timeouts(old(sock.script))
    {
      if line == PING {
        sock.SendAll(PONG_LINE);
        return Got(None), false;
      }
      if line == OK || StartsWith(line, INFO) {
        return Got(None), false;
      }
      assert good ==> IsMessage(f) && AtMessage(f, more, Stream()) && ParseControl(line).value.size == |Payload(f)|;
      var message := DecodeMessage(line);
      match message {
        case Late => return Late, true;
        case Broken(e) => return Broken(e), false;
        case Got(m) => return Got(Some(m)), false;
      }
    }

    /** One turn of the loop of `receive`. */
    method ReceiveOne(got: seq<Message>, wanted: Option<nat>, ghost count: nat, ghost before: seq<Message>,
                      ghost frames: seq<Frame>, ghost taken: nat, ghost good: bool)
      returns (r: Outcome<seq<Message>>, ghost torn: bool)
      requires sock.Valid() && |got| < count
      requires good ==>
        && taken <= |frames| && AllWellFormed(frames) && Stream() == EncodeAll(frames[taken..])
        && Serving(frames, taken, before, count, wanted, got, pending)
      modifies `buffer, `pending, sock
      ensures sock.Valid() && (r.Got? ==> |r.value| <= count)
      ensures good ==>
        match r
        case Got(more) =>
          && taken < |frames| && Stream() == EncodeAll(frames[taken + 1..])
          && Serving(frames, taken + 1, before, count, wanted, more, pending)
          && sock.sent == old(sock.sent) + (if frames[taken].PingFrame? then [PONG_LINE] else [])
        case Late =>
          && pending == old(pending) && sock.sent == old(sock.sent) && Consumed(Stream(), frames, taken, torn)
          && Incomplete(buffer, frames, taken, torn)
        case Broken(e) =>
          && e.ConnectionClosed? && taken == |frames| && Stream() == []
          && pending == old(pending) && sock.sent == old(sock.sent)
      ensures Timeouts(sock.script) + Lost(r) == Timeouts(old(sock.script))
    {
      ghost var rest := if good then frames[taken..] else [];
      var message;
      message, torn := ReadFrame(rest, good);
      if message.Late? {
        assert good && torn ==> frames[taken..][1..] == frames[taken + 1..];
        return Late, torn;
      }
      if message.Broken? {
        return Broken(message.error), torn;
      }
      if good {
        assert frames[taken..][1..] == frames[taken + 1..];
        StillServing(frames, taken, before, count, wanted, got, pending);
      }
      if message.value.None? {
        return Got(got), false;
      }
      var m := message.value.value;
      if wanted.None? || m.sid == wanted.value {
        return Got(got + [m]), false;
      }
      pending := pending + [m];
      return Got(got), false;
    }

    /** One call of `receive`. `clock` is the number of loop turns before the deadline. `frames` is
        what the peer has yet to say, if that is well formed; `taken` of them are consumed. A call that
        is `late` met a timeout of the socket; it is `torn` if that was between a control line and its
        body. */
    method Receive(count: nat, clock: nat, subscription: Option<Bytes>, ghost frames: seq<Frame>)
      returns (r: Result<seq<Message>, WireError>, ghost wanted: Option<nat>, ghost taken: nat, ghost late: bool, ghost torn: bool)
      requires sock.Valid() && count > 0
      modifies `buffer, `pending, sock
      ensures sock.Valid()
      ensures wanted == if subscription.Some? && subscription.value in subscriptions then Some(subscriptions[subscription.value]) else None
      ensures Timeouts(sock.script) + (if late then 1 else 0) == Timeouts(old(sock.script))
      ensures AllWellFormed(frames) && old(Stream()) == EncodeAll(frames) ==>
        && Taking(frames, taken, old(pending), count, wanted)
        && HandsOut(r, old(pending), pending, Call(count, wanted, Messages(frames[..taken])))
        && sock.sent == old(sock.sent) + Pongs(frames[..taken])
        && Consumed(Stream(), frames, taken, torn) && taken <= clock && (torn ==> late)
        && (late ==> r.Success? && Incomplete(buffer, frames, taken, torn))
      // a call stops short only for the end of the stream, the deadline or a timeout
      ensures AllWellFormed(frames) && old(Stream()) == EncodeAll(frames) ==>
        var full := Enough(frames[..taken], old(pending), count, wanted);
        && (r.Failure? <==> !full && taken == |frames| && taken < clock && !late)
        && (r.Success? ==> full || taken == clock || late)
      // with time, no timeouts and enough on the wire it yields as many messages as asked for
      ensures
        && AllWellFormed(frames) && old(Stream()) == EncodeAll(frames)
        && Timeouts(old(sock.script)) == 0 && |frames| <= clock
        && Enough(frames, old(pending), count, wanted) ==>
          r.Success? && |r.value| == count
    {
      ghost var good := AllWellFormed(frames) && Stream() == EncodeAll(frames);
      ghost var before := pending;
      var wantedSid := if subscription.Some? && subscription.value in subscriptions then Some(subscriptions[subscription.value]) else None;
      wanted := wantedSid;
      var got := TakePending(count, wantedSid);
      StartsServing(frames, before, count, wanted);
      var error;
      got, error, taken, late, torn := ReceiveMore(got, wantedSid, count, clock, before, frames, good);
      assert frames[..|frames|] == frames;
      r := if error.Some? then Failure(error.value) else Success(got);
    }

    /** The loop of `receive`. */
    method ReceiveMore(had: seq<Message>, wanted: Option<nat>, count: nat, clock: nat, ghost before: seq<Message>,
                       ghost frames: seq<Frame>, ghost good: bool)
      returns (got: seq<Message>, error: Option<WireError>, ghost taken: nat, ghost late: bool, ghost torn: bool)
      requires sock.Valid() && |had| <= count
      requires good ==> AllWellFormed(frames) && Stream() == EncodeAll(frames) && InCall(frames, 0, before, count, wanted, had, pending)
      modifies `buffer, `pending, sock
      ensures sock.Valid() && Timeouts(sock.script) + (if late then 1 else 0) == Timeouts(old(sock.script))
      ensures good ==>
        && InCall(frames, taken, before, count, wanted, got, pending)
        && sock.sent == old(sock.sent) + Pongs(frames[..taken])
        && Consumed(Stream(), frames, taken, torn) && taken <= clock && (torn ==> late)
        && (late ==> error.None? && Incomplete(buffer, frames, taken, torn))
        && |got| <= count
        && (error.Some? <==> |got| < count && taken == |frames| && taken < clock && !late)
        && (error.Some? ==> error.value.ConnectionClosed?)
        && (error.None? ==> |got| == count || taken == clock || late)
    {
      got, error, taken, late, torn := had, None, 0, false, false;
      var ticks := clock;
      assert frames[0..] == frames && frames[..0] == [];
      ghost var sent := sock.sent;
      assert sent + [] == sent;
      while |got| < count && ticks > 0
        invariant sock.Valid() && |got| <= count
        invariant Timeouts(sock.script) == Timeouts(old(sock.script))
        invariant good ==> taken + ticks == clock && CallState(frames, taken, before, count, wanted, got, pending, Stream(), sent, sock.sent)
        decreases ticks
      {
        ticks := ticks - 1;
        ghost var tear, answered, kept := false, sock.sent, pending;
        var more;
        more, tear := ReceiveOne(got, wanted, count, before, frames, taken, good);
        if more.Late? {
          late, torn := true, tear;
          return;
        }
        if more.Broken? {
          error := Some(more.error);
          return;
        }
        if good {
          CallGoesOn(frames, taken, before, count, wanted, got, kept, more.value, pending, Stream(), sent, answered, sock.sent);
          taken := taken + 1;
        }
        got := more.value;
      }
    }

    /** One more call of a session. */
    method ReceiveNext(ask: Ask, ghost frames: seq<Frame>, ghost at: nat, ghost calls: seq<Call>, ghost answers: seq<seq<Message>>,
                       ghost good: bool)
      returns (r: Result<seq<Message>, WireError>, ghost calls': seq<Call>, ghost at': nat, ghost torn: bool)
      requires sock.Valid() && ask.count > 0
      requires good ==> AllWellFormed(frames) && SessionState(frames, at, calls, answers, pending, Stream())
      modifies `buffer, `pending, sock
      ensures sock.Valid()
      ensures good && r.Success? && !torn ==> SessionState(frames, at', calls', answers + [r.value], pending, Stream())
    {
      ghost var rest, before := if good then frames[at..] else [], pending;
      if good {
        RestIsWellFormed(frames, at);
      }
      ghost var wanted, taken, late;
      r, wanted, taken, late, torn := Receive(ask.count, ask.clock, ask.subscription, rest);
      calls', at' := calls, at;
      if good && r.Success? && !torn {
        calls', at' := SessionGoesOn(frames, at, calls, answers, before, rest, taken, Call(ask.count, wanted, Messages(rest[..taken])),
          r, pending, Stream());
      }
    }

    /** Calls of `receive` one after the other, up to the first that fails. `calls` are what they come to
        and `at` the frames consumed; `torn` tells that one of them was torn. */
    method ReceiveAll(asks: seq<Ask>, ghost frames: seq<Frame>)
      returns (answers: seq<seq<Message>>, error: Option<WireError>, ghost calls: seq<Call>, ghost at: nat, ghost torn: bool)
      requires sock.Valid() && forall i :: 0 <= i < |asks| ==> asks[i].count > 0
      modifies `buffer, `pending, sock
      ensures sock.Valid() && |answers| <= |asks| && (error.None? ==> |answers| == |asks|)
      ensures AllWellFormed(frames) && old(Stream()) == EncodeAll(frames) && old(pending) == [] && error.None? && !torn ==>
        && SessionState(frames, at, calls, answers, pending, Stream())
        && forall sid: nat :: OfSid(Concat(answers), sid) + OfSid(pending, sid) == OfSid(Messages(frames[..at]), sid)
    {
      ghost var good := AllWellFormed(frames) && Stream() == EncodeAll(frames) && pending == [];
      answers, error, calls, at, torn := [], None, [], 0, false;
      assert frames[0..] == frames && frames[..0] == [];
      for i := 0 to |asks|
        invariant sock.Valid() && |answers| == i
        invariant good && !torn ==> SessionState(frames, at, calls, answers, pending, Stream())
      {
        ghost var tear;
        var r;
        r, calls, at, tear := ReceiveNext(asks[i], frames, at, calls, answers, good && !torn);
        if r.Failure? {
          error := Some(r.error);
          return;
        }
        torn := torn || tear;
        answers := answers + [r.value];
      }
      if good && !torn {
        forall sid: nat
          ensures OfSid(Concat(answers), sid) + OfSid(pending, sid) == OfSid(Messages(frames[..at]), sid)
        {
          CallsKeepOrder(calls, sid);
        }
      }
    }
  }
}
