/**
 * The transactional outbox end to end: create (from `Orders`), relayOutboxBatch, the confirmed publish,
 * the work queue with its dead-letter queue, and processOrderPlacedEvent. Any number of creates, relays
 * and message handlers interleave statement by statement, and any of them may fail or crash in between.
 */
module Pipeline {
  import opened Options
  import opened Messages
  import Orders

  // ---- State ----

  /** One relay transaction: the rows it locked, how many it has published and marked, and where it stands with the
      next. */
  datatype RelayPhase = Idle | Attempted | Sent
  datatype RelayTx = RelayTx(rows: seq<nat>, done: nat, phase: RelayPhase)

  /** One run of the consumer callback. `Finished` means its transaction has committed. */
  datatype HandlerPhase = Received | Parsed | Marked | Effected | Finished(applied: bool)
  datatype Handler = Handler(copy: nat, msg: Message, phase: HandlerPhase)

  /** Where the broker holds a message: `Unrouted` ones were confirmed but no queue was bound to take them. */
  datatype Place = Queued | InFlight(h: nat) | Acked | Dead | Unrouted

  /** One message the broker accepted. `source` is history: the outbox row the relay sent it from. */
  datatype Copy = Copy(msg: Message, source: Option<nat>, place: Place)

  /** Committed tables, open transactions and the broker. `declared` says that the exchange exists, `bound` that the
      work queue is bound to it. The last three fields are history: how often a row was sent by a batch that then
      rolled back, whether anyone but the relay published, and the effects in order. */
  datatype State = State(
    shop: Orders.Shop,
    relays: map<nat, RelayTx>,
    handlers: map<nat, Handler>,
    processed: set<string>,
    effects: map<string, nat>,
    copies: map<nat, Copy>,
    nextCopy: nat,
    nextHandler: nat,
    declared: bool,
    bound: bool,
    undone: map<nat, nat>,
    foreign: bool,
    applied: seq<string>)

  datatype Action =
    | ShopStep(a: Orders.Action)
    | RelayClaim(r: nat, limit: nat, rows: seq<nat>)
    | RelayAttempt(r: nat)
    | RelaySend(r: nat)
    | RelayMark(r: nat)
    | RelayCommit(r: nat)
    | RelayAbort(r: nat)
    | DeclareExchange
    | BindQueue
    | PublishOther(msg: Message)
    | Deliver(c: nat)
    | Return(c: nat, exhausted: bool)
    | Reject(h: nat)
    | Parse(h: nat)
    | InsertMarker(h: nat)
    | Skip(h: nat)
    | InsertEffect(h: nat)
    | CommitEffect(h: nat)
    | FailHandler(h: nat)
    | CrashHandler(h: nat)
    | Ack(h: nat)

  // ---- Relay ----

  ghost predicate Locked(s: State, x: nat) {
    exists r :: r in s.relays && x in s.relays[r].rows
  }

  /** Rows the SELECT ... FOR UPDATE SKIP LOCKED can return. */
  ghost predicate Available(s: State, x: nat) {
    x in s.shop.outbox && !s.shop.outbox[x].published && !Locked(s, x)
  }

  predicate Before(outbox: map<nat, Orders.OutboxRow>, x: nat, y: nat)
    requires x in outbox && y in outbox
  {
    outbox[x].createdAt < outbox[y].createdAt || (outbox[x].createdAt == outbox[y].createdAt && x < y)
  }

  predicate Distinct<T(==)>(xs: seq<T>) {
    forall i, j | 0 <= i < j < |xs| :: xs[i] != xs[j]
  }

  /** The first `limit` available rows in (created_at, id) order. */
  ghost predicate IsBatch(s: State, limit: nat, rows: seq<nat>) {
    && |rows| <= limit
    && (forall i | 0 <= i < |rows| :: Available(s, rows[i]))
    && (forall i, j | 0 <= i < j < |rows| :: Before(s.shop.outbox, rows[i], rows[j]))
    && (forall y | y in s.shop.outbox && Available(s, y) && y !in rows ::
          |rows| == limit && forall i | 0 <= i < |rows| :: Before(s.shop.outbox, rows[i], y))
  }

  /** How many of its rows this transaction has already handed to the broker. */
  function SentCount(tx: RelayTx): nat {
    tx.done + if tx.phase.Sent? then 1 else 0
  }

  predicate SentBy(tx: RelayTx, x: nat) {
    SentCount(tx) <= |tx.rows| && x in tx.rows[..SentCount(tx)]
  }

  function Mark(row: Orders.OutboxRow): Orders.OutboxRow {
    row.(published := true, attempts := row.attempts + 1)
  }

  function MarkRows(outbox: map<nat, Orders.OutboxRow>, rows: seq<nat>): (marked: map<nat, Orders.OutboxRow>)
    ensures marked.Keys == outbox.Keys
  {
    map x | x in outbox :: if x in rows then Mark(outbox[x]) else outbox[x]
  }

  function Undone(s: State, x: nat): nat {
    if x in s.undone then s.undone[x] else 0
  }

  function WithRelay(s: State, r: nat, tx: RelayTx): State {
    s.(relays := s.relays[r := tx])
  }

  function Send(s: State, r: nat): State
    requires r in s.relays && s.relays[r].done < |s.relays[r].rows|
    requires s.relays[r].rows[s.relays[r].done] in s.shop.outbox
  {
    var x := s.relays[r].rows[s.relays[r].done];
    WithRelay(Publish(s, s.shop.outbox[x].payload, Some(x)), r, s.relays[r].(phase := Sent))
  }

  function Publish(s: State, msg: Message, source: Option<nat>): State {
    s.(copies := s.copies[s.nextCopy := Copy(msg, source, if s.bound then Queued else Unrouted)],
       nextCopy := s.nextCopy + 1)
  }

  function CommitRelay(s: State, r: nat): State
    requires r in s.relays
  {
    s.(shop := s.shop.(outbox := MarkRows(s.shop.outbox, s.relays[r].rows)), relays := s.relays - {r})
  }

  /** Rollback forgets the attempts and the marks; what the broker took stays sent. */
  function AbortRelay(s: State, r: nat): State
    requires r in s.relays
  {
    s.(relays := s.relays - {r},
       undone := map x | x in s.shop.outbox :: Undone(s, x) + if SentBy(s.relays[r], x) then 1 else 0)
  }

  // ---- Consumer ----

  predicate HoldsMarker(handler: Handler) {
    handler.phase.Marked? || handler.phase.Effected?
  }

  /** A delivery belongs to h until the broker has taken it back. */
  predicate Owns(s: State, h: nat) {
    h in s.handlers && s.handlers[h].copy in s.copies && s.copies[s.handlers[h].copy].place == InFlight(h)
  }

  function WithHandler(s: State, h: nat, handler: Handler): State {
    s.(handlers := s.handlers[h := handler])
  }

  /** The callback is over. Its ack or nack reaches the broker only if the delivery is still its own. */
  function Close(s: State, h: nat, place: Place): State
    requires h in s.handlers
  {
    var c := s.handlers[h].copy;
    s.(handlers := s.handlers - {h},
       copies := if Owns(s, h) then s.copies[c := s.copies[c].(place := place)] else s.copies)
  }

  function DoDeliver(s: State, c: nat): State
    requires c in s.copies
  {
    s.(copies := s.copies[c := s.copies[c].(place := InFlight(s.nextHandler))],
       handlers := s.handlers[s.nextHandler := Handler(c, s.copies[c].msg, Received)],
       nextHandler := s.nextHandler + 1)
  }

  /** COMMIT makes the marker and the effect visible together; the effect insert skips an id that has one. */
  function DoCommitEffect(s: State, h: nat): State
    requires h in s.handlers && s.handlers[h].msg.Message?
  {
    var m := s.handlers[h].msg;
    s.(handlers := s.handlers[h := s.handlers[h].(phase := Finished(true))],
       processed := s.processed + {m.eventId},
       effects := if m.eventId in s.effects then s.effects else s.effects[m.eventId := m.orderId],
       applied := s.applied + [m.eventId])
  }

  // ---- Steps ----

  /** Publishing to an exchange that does not exist closes the channel: nothing is taken and nothing confirmed, so
      RelaySend is then not enabled and the batch can only be aborted. */
  ghost predicate Enabled(s: State, a: Action) {
    match a
    case ShopStep(sa) => Orders.Enabled(s.shop, sa)
    case RelayClaim(r, limit, rows) => r !in s.relays && IsBatch(s, limit, rows)
    case RelayAttempt(r) => r in s.relays && s.relays[r].phase.Idle? && s.relays[r].done < |s.relays[r].rows|
    case RelaySend(r) =>
      s.declared && r in s.relays && s.relays[r].phase.Attempted? && s.relays[r].done < |s.relays[r].rows| &&
      s.relays[r].rows[s.relays[r].done] in s.shop.outbox
    case RelayMark(r) => r in s.relays && s.relays[r].phase.Sent?
    case RelayCommit(r) => r in s.relays && s.relays[r].phase.Idle? && s.relays[r].done == |s.relays[r].rows|
    case RelayAbort(r) => r in s.relays
    case DeclareExchange => true
    case BindQueue => s.declared
    case PublishOther(msg) => s.declared
    case Deliver(c) => c in s.copies && s.copies[c].place.Queued?
    case Return(c, exhausted) => c in s.copies && s.copies[c].place.InFlight?
    case Reject(h) => h in s.handlers && s.handlers[h].phase.Received? && !Accepted(s.handlers[h].msg)
    case Parse(h) => h in s.handlers && s.handlers[h].phase.Received? && Accepted(s.handlers[h].msg)
    case InsertMarker(h) =>
      h in s.handlers && s.handlers[h].phase.Parsed? && IdOf(s.handlers[h].msg) !in s.processed &&
      forall g | g in s.handlers && HoldsMarker(s.handlers[g]) :: IdOf(s.handlers[g].msg) != IdOf(s.handlers[h].msg)
    case Skip(h) => h in s.handlers && s.handlers[h].phase.Parsed? && IdOf(s.handlers[h].msg) in s.processed
    case InsertEffect(h) => h in s.handlers && s.handlers[h].phase.Marked?
    case CommitEffect(h) => h in s.handlers && s.handlers[h].phase.Effected? && s.handlers[h].msg.Message?
    case FailHandler(h) => h in s.handlers
    case CrashHandler(h) => h in s.handlers
    case Ack(h) => h in s.handlers && s.handlers[h].phase.Finished?
  }

  ghost function Apply(s: State, a: Action): State
    requires Enabled(s, a)
  {
    match a
    case ShopStep(sa) => s.(shop := Orders.Apply(s.shop, sa))
    case RelayClaim(r, limit, rows) => WithRelay(s, r, RelayTx(rows, 0, Idle))
    case RelayAttempt(r) => WithRelay(s, r, s.relays[r].(phase := Attempted))
    case RelaySend(r) => Send(s, r)
    case RelayMark(r) => WithRelay(s, r, s.relays[r].(phase := Idle, done := s.relays[r].done + 1))
    case RelayCommit(r) => CommitRelay(s, r)
    case RelayAbort(r) => AbortRelay(s, r)
    case DeclareExchange => s.(declared := true)
    case BindQueue => s.(bound := true)
    case PublishOther(msg) => Publish(s, msg, None).(foreign := true)
    case Deliver(c) => DoDeliver(s, c)
    case Return(c, exhausted) =>
      s.(copies := s.copies[c := s.copies[c].(place := if exhausted then Dead else Queued)])
    case Reject(h) => Close(s, h, Dead)
    case Parse(h) => WithHandler(s, h, s.handlers[h].(phase := Parsed))
    case InsertMarker(h) => WithHandler(s, h, s.handlers[h].(phase := Marked))
    case Skip(h) => WithHandler(s, h, s.handlers[h].(phase := Finished(false)))
    case InsertEffect(h) => WithHandler(s, h, s.handlers[h].(phase := Effected))
    case CommitEffect(h) => DoCommitEffect(s, h)
    case FailHandler(h) => Close(s, h, Dead)
    case CrashHandler(h) => s.(handlers := s.handlers - {h})
    case Ack(h) => Close(s, h, Acked)
  }

  ghost predicate Valid(s: State, acts: seq<Action>)
    decreases |acts|
  {
    acts == [] || (Enabled(s, acts[0]) && Valid(Apply(s, acts[0]), acts[1..]))
  }

  ghost function Run(s: State, acts: seq<Action>): State
    requires Valid(s, acts)
    decreases |acts|
  {
    if acts == [] then s else Run(Apply(s, acts[0]), acts[1..])
  }

  /** Empty tables, an idle broker, no process at work; the topology may be complete, half declared or absent. */
  ghost predicate Init(s: State) {
    && Orders.Init(s.shop)
    && s.relays == map[] && s.handlers == map[] && s.processed == {} && s.effects == map[] && s.copies == map[]
    && s.undone == map[] && !s.foreign && s.applied == [] && (s.bound ==> s.declared)
  }

  ghost predicate Reachable(s: State) {
    exists init, acts :: Init(init) && Valid(init, acts) && s == Run(init, acts)
  }
}
