/** The tables of the event store and the transactions on them (anvil_events/storage/events.py,
    operations.py, delivery.py and retention.py; schema in anvil_events/storage/database.py).

    Each transaction is a function from the store before to the store after; one that raises
    is rolled back and returns a failure. Times are integers passed in. */
module StoreTables {
  import opened Basics
  import Identity

  /** JSON values up to equality; the intent of `record` and the payload of an audit event are
      objects with known members. */
  datatype Json =
    | Text(text: string)
    | RecordIntent(node: string, payload: Json, causes: seq<string>)
    | Degraded(cause: string, records: nat)
    | Number(number: int)
    | Object(members: map<string, Json>)

  /** An event envelope. `sound`: it passes every check of validation and size other than those on
      sequence number and event id. Two envelopes have the same canonical JSON, and so the same
      SHA-256 digest, exactly when they are equal. */
  datatype Event = Event(
    id: string,
    producer: string,
    number: int,
    subject: string,
    node: string,
    kind: string,
    payload: Json,
    correlation: Option<string>,
    causes: seq<string>,
    sound: bool)

  predicate Valid(e: Event) {
    e.sound && e.number >= 1 && e.id == Identity.EventId(e.producer, e.number)
  }

  datatype Role = Pending | Acked

  datatype PubAck = PubAck(stream: string, number: int, duplicate: bool)

  /** A stored text that is no longer canonical, and the envelope it parses to, if it does. */
  datatype Spoil = Spoil(raw: string, parsed: Option<Event>)

  /** `event` is the envelope whose digest the row holds; `damaged` is the stored text if it is no
      longer that envelope's canonical text. */
  datatype Row = Row(
    rowId: nat,
    event: Event,
    damaged: Option<Spoil>,
    role: Option<Role>,
    journaled: bool,
    ackedAt: Option<int>,
    puback: Option<PubAck>)

  datatype Cursor = Cursor(eventId: string, number: int)

  datatype CursorKey = CursorKey(subject: string, producer: string)

  datatype Quarantined = Quarantined(eventId: string, raw: string, reason: string)

  datatype OpState = Prepared | Recorded | Applied | Failed | Indeterminate

  datatype Operation = Operation(
    key: string,
    producer: string,
    kind: string,
    correlation: Option<string>,
    state: OpState,
    intent: Json,
    eventId: Option<string>,
    error: Option<string>)

  /** `keys` is the unique index on the idempotency keys of `operations`. */
  datatype Store = Store(
    events: map<string, Row>,
    nextRow: nat,
    sequences: map<string, int>,
    cursors: map<CursorKey, Cursor>,
    counter: nat,
    quarantine: multiset<Quarantined>,
    operations: map<string, Operation>,
    keys: map<string, string>)

  datatype StoreError =
    | InvalidEvent | IdentityCollision | SequenceCollision
    | BadEvidence | UnknownEvent | ConflictingPubAck
    | BadArgument | KeyCollision | OperationIdCollision | MissingEvent
    | Unreadable | StorageFault
    | UnknownOperation | IndeterminateOperation | ConflictingResolution | NotPrepared | IntentDiffers

  const HEALED := "stored envelope healed by canonical redelivery"
  const MISMATCH := "canonical event integrity mismatch"
  const SPOILED_CAUSE := "invalid pending records quarantined"
  const EXPIRED_CAUSE := "retention sweep deleted expired archives"
  const QUARANTINED_OPERATION := "event record quarantined"

  function Empty(): Store {
    Store(map[], 1, map[], map[], 0, multiset{}, map[], map[])
  }

  function Max(a: int, b: int): int {
    if a < b then b else a
  }

  // ---------------------------------------------------------------------------------
  // Events
  // ---------------------------------------------------------------------------------

  function LastSequence(s: Store, producer: string): int {
    if producer in s.sequences then s.sequences[producer] else 0
  }

  function Sequenced(sequences: map<string, int>, producer: string, number: int): map<string, int> {
    sequences[producer := if producer in sequences then Max(sequences[producer], number) else number]
  }

  /** The role of a row after a put: the cascade of the original. */
  function NewRole(was: Option<Role>, role: Option<Role>): Option<Role> {
    if role == Some(Acked) || was.None? then (if role.Some? then role else was)
    else if role == Some(Pending) && was != Some(Acked) then Some(Pending)
    else was
  }

  function PutOn(row: Row, role: Option<Role>, journaled: bool, now: int): Row {
    var newRole := NewRole(row.role, role);
    row.(damaged := None, role := newRole, journaled := row.journaled || journaled,
         ackedAt := if newRole == Some(Acked) && row.ackedAt.None? then Some(now) else row.ackedAt)
  }

  function NewRow(s: Store, e: Event, role: Option<Role>, journaled: bool, now: int): Row {
    Row(s.nextRow, e, None, role, journaled, if role == Some(Acked) then Some(now) else None, None)
  }

  predicate SequenceTaken(s: Store, e: Event) {
    exists id :: id in s.events && s.events[id].event.producer == e.producer && s.events[id].event.number == e.number
  }

  datatype PutResult = PutResult(inserted: bool, changed: bool)

  function Put(s: Store, e: Event, role: Option<Role>, journaled: bool, now: int): Result<(Store, PutResult), StoreError> {
    if !Valid(e) then Failure(InvalidEvent)
    else if e.id in s.events then
      var row := s.events[e.id];
      if row.event != e then Failure(IdentityCollision)
      else
        var quarantine :=
          if row.damaged.Some? then s.quarantine + multiset{Quarantined(e.id, row.damaged.value.raw, HEALED)} else s.quarantine;
        Success((s.(events := s.events[e.id := PutOn(row, role, journaled, now)],
                    quarantine := quarantine,
                    sequences := Sequenced(s.sequences, e.producer, e.number)),
                 PutResult(false, row.role != NewRole(row.role, role))))
    else if SequenceTaken(s, e) then Failure(SequenceCollision)
    else
      Success((s.(events := s.events[e.id := NewRow(s, e, role, journaled, now)],
                  nextRow := s.nextRow + 1,
                  sequences := Sequenced(s.sequences, e.producer, e.number)),
               PutResult(true, role.Some?)))
  }

  function Bumped(s: Store, changed: bool): Store {
    if changed then s.(counter := s.counter + 1) else s
  }

  /** What a caller of `emit` supplies; `sound` as in `Event`. */
  datatype Draft = Draft(
    producer: string,
    subject: string,
    node: string,
    kind: string,
    payload: Json,
    correlation: Option<string>,
    causes: seq<string>,
    sound: bool)

  function Envelope(d: Draft, number: int): Event
    requires number >= 0
  {
    Event(Identity.EventId(d.producer, number), d.producer, number, d.subject, d.node, d.kind, d.payload,
      d.correlation, d.causes, d.sound)
  }

  predicate NonNegative(sequences: map<string, int>) {
    forall p :: p in sequences ==> sequences[p] >= 0
  }

  /** `emit`: the next sequence number, put as pending. */
  function Emit(s: Store, d: Draft, now: int): Result<(Store, Event), StoreError>
    requires NonNegative(s.sequences)
  {
    var e := Envelope(d, LastSequence(s, d.producer) + 1);
    match Put(s, e, Some(Pending), false, now)
    case Failure(error) => Failure(error)
    case Success((s', r)) => Success((Bumped(s', r.changed), e))
  }

  /** `journal_v1_in`: an audit event that is never delivery work. */
  function Audit(s: Store, d: Draft, now: int): Result<(Store, Event), StoreError>
    requires NonNegative(s.sequences)
  {
    var e := Envelope(d, LastSequence(s, d.producer) + 1);
    match Put(s, e, None, true, now)
    case Failure(error) => Failure(error)
    case Success((s', _)) => Success((s', e))
  }

  function Append(s: Store, e: Event, now: int): Result<Store, StoreError> {
    match Put(s, e, Some(Pending), false, now)
    case Failure(error) => Failure(error)
    case Success((s', r)) => Success(Bumped(s', r.changed))
  }

  /** The answer says whether the event had not been journaled before. */
  function AppendJournal(s: Store, e: Event, now: int): Result<(Store, bool), StoreError> {
    match Put(s, e, None, true, now)
    case Failure(error) => Failure(error)
    case Success((s', _)) => Success((s', e.id !in s.events || !s.events[e.id].journaled))
  }

  predicate TokenChar(c: char) {
    'A' <= c <= 'Z' || 'a' <= c <= 'z' || '0' <= c <= '9' || c == '_' || c == '-'
  }

  predicate GoodEvidence(p: PubAck) {
    p.number >= 1 && p.stream != [] && forall i :: 0 <= i < |p.stream| ==> TokenChar(p.stream[i])
  }

  function Advanced(cursors: map<CursorKey, Cursor>, e: Event): map<CursorKey, Cursor> {
    var key := CursorKey(e.subject, e.producer);
    if key in cursors && e.number <= cursors[key].number then cursors else cursors[key := Cursor(e.id, e.number)]
  }

  function RecordPuback(s: Store, e: Event, p: PubAck, now: int): Result<Store, StoreError> {
    if !GoodEvidence(p) then Failure(BadEvidence)
    else if e.id !in s.events then Failure(UnknownEvent)
    else
      var prior := s.events[e.id];
      if prior.role == Some(Acked)
         && (prior.puback.None? || prior.puback.value.stream != p.stream || prior.puback.value.number != p.number) then
        Failure(ConflictingPubAck)
      else
        match Put(s, e, Some(Acked), false, now)
        case Failure(error) => Failure(error)
        case Success((s', r)) =>
          if e.id !in s'.events then Failure(UnknownEvent)
          else
            Success(Acknowledged(s', e, p, r.changed, now))
  }

  /** The evidence on the row, the cursor and the change counter after an acknowledgement was put. */
  function Acknowledged(s: Store, e: Event, p: PubAck, changed: bool, now: int): Store
    requires e.id in s.events
  {
    var row := s.events[e.id];
    var acked := row.(puback := Some(p), ackedAt := if row.ackedAt.None? then Some(now) else row.ackedAt);
    Bumped(s.(events := s.events[e.id := acked], cursors := Advanced(s.cursors, e)), changed)
  }

  /** What parsing the stored text of a row gives. */
  function ReadBack(row: Row): Result<Event, StoreError> {
    match row.damaged
    case None => Success(row.event)
    case Some(spoil) => if spoil.parsed.Some? then Success(spoil.parsed.value) else Failure(Unreadable)
  }

  // ---------------------------------------------------------------------------------
  // Repair and retention
  // ---------------------------------------------------------------------------------

  /** A pending row whose stored text no longer fits its digest. */
  predicate Spoiled(row: Row) {
    row.role == Some(Pending) && row.damaged.Some?
  }

  function SpoiledIds(s: Store): set<string> {
    set id | id in s.events && Spoiled(s.events[id])
  }

  function Released(op: Operation, ids: set<string>): Operation {
    if op.eventId.Some? && op.eventId.value in ids && op.state == Recorded
    then op.(state := Indeterminate, error := Some(QUARANTINED_OPERATION))
    else op
  }

  function Evidence(s: Store, ids: set<string>): set<Quarantined> {
    set id | id in ids && id in s.events && s.events[id].damaged.Some? ::
      Quarantined(id, s.events[id].damaged.value.raw, MISMATCH)
  }

  /** Rows taken out of delivery, their text put aside and the operations that owned them marked. */
  function TakenOut(s: Store, ids: set<string>): Store {
    s.(events := map id | id in s.events :: if id in ids then s.events[id].(role := None) else s.events[id],
       quarantine := s.quarantine + multiset(Evidence(s, ids)),
       operations := map o | o in s.operations :: Released(s.operations[o], ids))
  }

  function AuditDraft(producer: string, cause: string, records: nat): Draft {
    Draft(producer, "anvil.fleet.local.event.degraded", "local", "event.degraded", Degraded(cause, records), None, [], true)
  }

  /** `repair`: spoiled rows leave delivery; one change and one audit event if there were any. */
  function Repair(s: Store, now: int): Result<(Store, nat), StoreError>
    requires NonNegative(s.sequences)
  {
    var ids := SpoiledIds(s);
    if ids == {} then Success((s, 0))
    else
      match Audit(Bumped(TakenOut(s, ids), true), AuditDraft("local:recovery", SPOILED_CAUSE, |ids|), now)
      case Failure(error) => Failure(error)
      case Success((s', _)) => Success((s', |ids|))
  }

  function ExpiredIds(s: Store, cutoff: int): set<string> {
    set id | id in s.events && s.events[id].role == Some(Acked)
             && s.events[id].ackedAt.Some? && s.events[id].ackedAt.value < cutoff
  }

  function Expire(s: Store, ids: set<string>): Store {
    s.(events := map id | id in s.events :: if id in ids then s.events[id].(role := None) else s.events[id])
  }

  /** `collect`: expired acknowledged rows leave their role; one audit event if there were any. */
  function Collect(s: Store, cutoff: int, now: int): Result<(Store, nat), StoreError>
    requires NonNegative(s.sequences)
  {
    var ids := ExpiredIds(s, cutoff);
    if ids == {} then Success((s, 0))
    else
      match Audit(Expire(s, ids), AuditDraft("local:gc", EXPIRED_CAUSE, |ids|), now)
      case Failure(error) => Failure(error)
      case Success((s', _)) => Success((s', |ids|))
  }

  // ---------------------------------------------------------------------------------
  // Operations
  // ---------------------------------------------------------------------------------

  predicate GoodName(s: string) {
    0 < |s| <= 256
  }

  datatype Request = Request(id: string, key: string, producer: string, kind: string, correlation: Option<string>)

  predicate GoodRequest(r: Request) {
    GoodName(r.id) && GoodName(r.key) && GoodName(r.producer) && GoodName(r.kind)
  }

  predicate SameRequest(s: Store, r: Request, intent: Json)
    requires r.key in s.keys && s.keys[r.key] in s.operations
  {
    var op := s.operations[s.keys[r.key]];
    s.keys[r.key] == r.id && op.producer == r.producer && op.kind == r.kind && op.intent == intent
    && op.correlation == r.correlation
  }

  function Registered(s: Store, r: Request, op: Operation): Store {
    s.(operations := s.operations[r.id := op], keys := s.keys[r.key := r.id])
  }

  /** The answer says whether the operation had been prepared before. */
  function Prepare(s: Store, r: Request, intent: Json): Result<(Store, bool), StoreError>
    requires KeysIndex(s.keys, s.operations)
  {
    if !GoodRequest(r) then Failure(BadArgument)
    else if r.key in s.keys then
      if SameRequest(s, r, intent) then Success((s, true)) else Failure(KeyCollision)
    else if r.id in s.operations then Failure(OperationIdCollision)
    else
      Success((Registered(s, r, Operation(r.key, r.producer, r.kind, r.correlation, Prepared, intent, None, None)), false))
  }

  /** The index and the table agree. */
  ghost predicate KeysIndex(keys: map<string, string>, operations: map<string, Operation>) {
    && (forall k :: k in keys ==> keys[k] in operations && operations[keys[k]].key == k)
    && (forall o :: o in operations ==> operations[o].key in keys && keys[operations[o].key] == o)
  }

  function RecordDraft(r: Request, subject: string, node: string, payload: Json, causes: seq<string>, sound: bool): Draft {
    Draft(r.producer, subject, node, r.kind, payload, r.correlation, causes, sound)
  }

  /** The event of an idempotent request: the stored one, or a new one with its operation row. */
  function Record(s: Store, r: Request, d: Draft, now: int): Result<(Store, Event, bool), StoreError>
    requires KeysIndex(s.keys, s.operations) && NonNegative(s.sequences)
    requires d.producer == r.producer && d.kind == r.kind && d.correlation == r.correlation
  {
    var intent := RecordIntent(d.node, d.payload, d.causes);
    if !GoodRequest(r) || !GoodName(d.node) then Failure(BadArgument)
    else if r.key in s.keys then
      var op := s.operations[s.keys[r.key]];
      if !SameRequest(s, r, intent) || op.state != Recorded || op.eventId.None? then Failure(KeyCollision)
      else if op.eventId.value !in s.events then Failure(MissingEvent)
      else
        match ReadBack(s.events[op.eventId.value])
        case Failure(error) => Failure(error)
        case Success(e) => Success((s, e, true))
    else if r.id in s.operations then Failure(OperationIdCollision)
    else
      match Emit(s, d, now)
      case Failure(error) => Failure(error)
      case Success((s', e)) =>
        Success((Registered(s', r, Operation(r.key, r.producer, r.kind, r.correlation, Recorded, intent, Some(e.id), None)),
                 e, false))
  }

  function Clip(error: Option<string>): Option<string> {
    match error
    case None => None
    case Some(text) => Some(if |text| <= 300 then text else text[..300])
  }

  /** `subject` and `sound` belong to the event that a first resolution emits. */
  function Resolve(s: Store, id: string, node: string, payload: Json, succeeded: bool, error: Option<string>,
                   subject: string, sound: bool, now: int): Result<(Store, Event, bool), StoreError>
    requires NonNegative(s.sequences)
  {
    var expected := if succeeded then Applied else Failed;
    if !GoodName(id) then Failure(BadArgument)
    else if id !in s.operations then Failure(UnknownOperation)
    else
      var op := s.operations[id];
      if op.state == Indeterminate then Failure(IndeterminateOperation)
      else if op.eventId.Some? then
        if op.state != expected || op.error != Clip(error) then Failure(ConflictingResolution)
        else if op.eventId.value !in s.events then Failure(MissingEvent)
        else
          match ReadBack(s.events[op.eventId.value])
          case Failure(unread) => Failure(unread)
          case Success(e) =>
            if e.node != node || payload != op.intent || e.payload != payload then Failure(ConflictingResolution)
            else Success((s, e, true))
      else if op.state != Prepared then Failure(NotPrepared)
      else if payload != op.intent then Failure(IntentDiffers)
      else
        ResolveFirst(s, id, op, expected, Draft(op.producer, subject, node, op.kind, op.intent, op.correlation, [], sound), error, now)
  }

  /** The first resolution emits the event. */
  function ResolveFirst(s: Store, id: string, op: Operation, expected: OpState, d: Draft, error: Option<string>, now: int)
    : Result<(Store, Event, bool), StoreError>
    requires NonNegative(s.sequences)
  {
    match Emit(s, d, now)
    case Failure(e) => Failure(e)
    case Success((s', e)) =>
      Success((s'.(operations := s'.operations[id := op.(state := expected, eventId := Some(e.id), error := Clip(error))]),
               e, false))
  }

  function MarkIndeterminate(s: Store, id: string, error: string): Result<Store, StoreError> {
    if id !in s.operations || s.operations[id].state != Prepared then Failure(NotPrepared)
    else
      Success(s.(operations := s.operations[id := s.operations[id].(state := Indeterminate, error := Clip(Some(error)))]))
  }
}
