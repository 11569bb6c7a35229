/**
 * OrdersService.create at statement granularity: any number of requests hold open
 * transactions at once, each may abort (or its process crash) between any two statements,
 * and products may be repriced or removed at any time.
 */
module Orders {
  import opened Options
  import opened Messages
  import Decimals

  const INT4_MAX := 0x7fff_ffff
  const MAX_KEY_LENGTH := 200

  datatype Product = Product(price: int, active: bool)
  datatype ItemRow = ItemRow(productId: int, quantity: int, unitPrice: int)
  datatype Status = Created | Paid | Shipped | Completed | Cancelled

  /** A committed order with its order_items rows. `key`, `quoted` and `outboxId` are history:
      the key and the first-read prices of the request, and the outbox row it committed with. */
  datatype Order = Order(userId: nat, status: Status, total: int, rows: seq<ItemRow>,
                         key: string, quoted: seq<int>, outboxId: nat)

  datatype OutboxRow = OutboxRow(createdAt: nat, payload: Message, published: bool, attempts: nat)

  datatype Reply = Reply(key: string, orderId: nat, items: seq<Item>, total: int)

  datatype Phase = Reserved | Totalling | Inserting | Enqueued | Bound

  datatype CreateTx = CreateTx(key: string, items: seq<Item>, phase: Phase, user: nat,
                               quoted: seq<int>, total: int, orderId: nat, rows: seq<ItemRow>,
                               outboxId: nat, event: Message, startedAt: nat)

  /** The path of a request whose key is already committed: INSERT found it, then SELECT ... FOR UPDATE, the two reads
      of the stored order, and COMMIT. */
  datatype ReplayPhase =
    | Conflicted
    | KeyLocked(order: nat)
    | OrderRead(order: nat, total: int)
    | ItemsRead(order: nat, total: int, items: seq<Item>)

  datatype ReplayStep = Conflict(key: string) | LockKey | ReadOrder | ReadItems | Finish | GiveUp

  datatype ReplayTx = ReplayTx(key: string, phase: ReplayPhase)

  /** Committed tables, the two id sequences (never rolled back), open transactions, and every response computed. */
  datatype Shop = Shop(products: map<int, Product>, buyer: Option<nat>,
                       orders: map<nat, Order>, keys: map<string, Option<nat>>, outbox: map<nat, OutboxRow>,
                       nextOrderId: nat, nextOutboxId: nat,
                       open: map<nat, CreateTx>, replays: map<nat, ReplayTx>, replies: seq<Reply>)

  datatype Action =
    | Begin(t: nat, key: string, items: seq<Item>, now: nat)
    | Replay(q: nat, step: ReplayStep)
    | PickBuyer(t: nat)
    | Quote(t: nat)
    | InsertOrder(t: nat)
    | InsertItem(t: nat)
    | InsertOutbox(t: nat, occurredAt: string)
    | BindKey(t: nat)
    | Commit(t: nat)
    | Abort(t: nat)
    | Reprice(productId: int, product: Product)
    | RemoveProduct(productId: int)
    | SetStatus(orderId: nat, status: Status)

  predicate IsSpace(c: char) {
    c == ' ' || '\t' <= c <= '\r'
  }

  predicate Blank(key: string) {
    forall i | 0 <= i < |key| :: IsSpace(key[i])
  }

  /** The checks made before a transaction is opened. */
  predicate Admissible(key: string, items: seq<Item>) {
    items != [] && !Blank(key) && |key| <= MAX_KEY_LENGTH
  }

  predicate ValidItem(item: Item) {
    item.productId > 0 && item.quantity > 0
  }

  /** price1 * quantity1 + ... over the items priced so far. */
  function Dot(items: seq<Item>, prices: seq<int>): int
    requires |prices| <= |items|
    decreases |prices|
  {
    if prices == [] then 0
    else
      var last := |prices| - 1;
      Dot(items, prices[..last]) + prices[last] * items[last].quantity
  }

  function ItemsOf(rows: seq<ItemRow>): (items: seq<Item>)
    ensures |items| == |rows|
    ensures forall i | 0 <= i < |rows| :: items[i] == Item(rows[i].productId, rows[i].quantity)
  {
    seq(|rows|, i requires 0 <= i < |rows| => Item(rows[i].productId, rows[i].quantity))
  }

  function UnitPrices(rows: seq<ItemRow>): (prices: seq<int>)
    ensures |prices| == |rows|
    ensures forall i | 0 <= i < |rows| :: prices[i] == rows[i].unitPrice
  {
    seq(|rows|, i requires 0 <= i < |rows| => rows[i].unitPrice)
  }

  /** The total a reader would compute from the stored order_items rows. */
  function ItemSum(rows: seq<ItemRow>): int {
    Dot(ItemsOf(rows), UnitPrices(rows))
  }

  predicate HasOrder(tx: CreateTx) {
    tx.phase.Inserting? || HasEvent(tx)
  }

  predicate HasEvent(tx: CreateTx) {
    tx.phase.Enqueued? || tx.phase.Bound?
  }

  predicate Priced(s: Shop, item: Item) {
    item.productId in s.products
  }

  /** No other replay holds the row lock of q's key. */
  predicate KeyFree(s: Shop, q: nat)
    requires q in s.replays
  {
    forall p | p in s.replays && p != q && s.replays[p].key == s.replays[q].key :: s.replays[p].phase.Conflicted?
  }

  predicate CanReplay(s: Shop, q: nat, step: ReplayStep) {
    match step
    case Conflict(key) => q !in s.replays && key in s.keys
    case LockKey => q in s.replays && s.replays[q].phase.Conflicted? && KeyFree(s, q)
    case ReadOrder => q in s.replays && s.replays[q].phase.KeyLocked?
    case ReadItems => q in s.replays && s.replays[q].phase.OrderRead?
    case Finish => q in s.replays && s.replays[q].phase.ItemsRead?
    case GiveUp => q in s.replays
  }

  /** A reservation waits for an open transaction that holds the same key, so Begin is then not enabled. */
  ghost predicate Enabled(s: Shop, a: Action) {
    match a
    case Begin(t, key, items, now) =>
      t !in s.open && Admissible(key, items) && key !in s.keys &&
      forall u | u in s.open :: s.open[u].key != key
    case Replay(q, step) => CanReplay(s, q, step)
    case PickBuyer(t) => t in s.open && s.open[t].phase.Reserved? && s.buyer.Some?
    case Quote(t) =>
      t in s.open && s.open[t].phase.Totalling? && |s.open[t].quoted| < |s.open[t].items| &&
      var item := s.open[t].items[|s.open[t].quoted|];
      ValidItem(item) && Priced(s, item) && s.products[item.productId].active
    case InsertOrder(t) =>
      t in s.open && s.open[t].phase.Totalling? && |s.open[t].quoted| == |s.open[t].items| &&
      s.open[t].total <= INT4_MAX
    case InsertItem(t) =>
      t in s.open && s.open[t].phase.Inserting? && |s.open[t].rows| < |s.open[t].items| &&
      Priced(s, s.open[t].items[|s.open[t].rows|])
    case InsertOutbox(t, occurredAt) =>
      t in s.open && s.open[t].phase.Inserting? && |s.open[t].rows| == |s.open[t].items| && occurredAt != "" &&
      EventIdFree(s, s.open[t].orderId)
    case BindKey(t) => t in s.open && s.open[t].phase.Enqueued?
    case Commit(t) => t in s.open && s.open[t].phase.Bound?
    case Abort(t) => t in s.open
    case Reprice(p, product) => 0 < product.price <= INT4_MAX
    case RemoveProduct(p) => true
    case SetStatus(o, status) => o in s.orders
  }

  /** outbox_messages.event_id is UNIQUE, among committed and uncommitted rows alike. */
  ghost predicate EventIdFree(s: Shop, orderId: nat) {
    && (forall x | x in s.outbox :: IdOf(s.outbox[x].payload) != EventIdOf(orderId))
    && (forall u | u in s.open && HasEvent(s.open[u]) :: IdOf(s.open[u].event) != EventIdOf(orderId))
  }

  function With(s: Shop, t: nat, tx: CreateTx): Shop {
    s.(open := s.open[t := tx])
  }

  function Apply(s: Shop, a: Action): Shop
    requires Enabled(s, a)
  {
    match a
    case Begin(t, key, items, now) =>
      With(s, t, CreateTx(key, items, Reserved, 0, [], 0, 0, [], 0, Garbage, now))
    case Replay(q, step) => DoReplay(s, q, step)
    case PickBuyer(t) =>
      With(s, t, s.open[t].(phase := Totalling, user := s.buyer.value))
    case Quote(t) => DoQuote(s, t)
    case InsertOrder(t) =>
      With(s, t, s.open[t].(phase := Inserting, orderId := s.nextOrderId)).(nextOrderId := s.nextOrderId + 1)
    case InsertItem(t) => DoInsertItem(s, t)
    case InsertOutbox(t, occurredAt) =>
      var tx := s.open[t];
      With(s, t, tx.(phase := Enqueued, outboxId := s.nextOutboxId,
                     event := EventFor(tx.orderId, tx.user, tx.items, tx.total, occurredAt)))
      .(nextOutboxId := s.nextOutboxId + 1)
    case BindKey(t) => With(s, t, s.open[t].(phase := Bound))
    case Commit(t) => DoCommit(s, t)
    case Abort(t) => s.(open := s.open - {t})
    case Reprice(p, product) => s.(products := s.products[p := product])
    case RemoveProduct(p) => s.(products := s.products - {p})
    case SetStatus(o, status) => s.(orders := s.orders[o := s.orders[o].(status := status)])
  }

  function WithReplay(s: Shop, q: nat, phase: ReplayPhase): Shop
    requires q in s.replays
  {
    s.(replays := s.replays[q := s.replays[q].(phase := phase)])
  }

  /** A key without a completed order is an error, which ends the request. */
  function DoLockKey(s: Shop, q: nat): Shop
    requires q in s.replays
  {
    var key := s.replays[q].key;
    if key in s.keys && s.keys[key].Some? then WithReplay(s, q, KeyLocked(s.keys[key].value))
    else s.(replays := s.replays - {q})
  }

  /** So is an order that is not there. */
  function DoReadOrder(s: Shop, q: nat): Shop
    requires q in s.replays && s.replays[q].phase.KeyLocked?
  {
    var o := s.replays[q].phase.order;
    if o in s.orders then WithReplay(s, q, OrderRead(o, s.orders[o].total)) else s.(replays := s.replays - {q})
  }

  function DoReadItems(s: Shop, q: nat): Shop
    requires q in s.replays && s.replays[q].phase.OrderRead?
  {
    var phase := s.replays[q].phase;
    var items := if phase.order in s.orders then ItemsOf(s.orders[phase.order].rows) else [];
    WithReplay(s, q, ItemsRead(phase.order, phase.total, items))
  }

  function DoReplay(s: Shop, q: nat, step: ReplayStep): Shop
    requires CanReplay(s, q, step)
  {
    match step
    case Conflict(key) => s.(replays := s.replays[q := ReplayTx(key, Conflicted)])
    case LockKey => DoLockKey(s, q)
    case ReadOrder => DoReadOrder(s, q)
    case ReadItems => DoReadItems(s, q)
    case Finish =>
      var phase := s.replays[q].phase;
      s.(replays := s.replays - {q},
         replies := s.replies + [Reply(s.replays[q].key, phase.order, phase.items, phase.total)])
    case GiveUp => s.(replays := s.replays - {q})
  }

  function DoQuote(s: Shop, t: nat): Shop
    requires t in s.open && |s.open[t].quoted| < |s.open[t].items|
    requires Priced(s, s.open[t].items[|s.open[t].quoted|])
  {
    var tx := s.open[t];
    var item := tx.items[|tx.quoted|];
    var price := s.products[item.productId].price;
    With(s, t, tx.(quoted := tx.quoted + [price], total := tx.total + price * item.quantity))
  }

  function DoInsertItem(s: Shop, t: nat): Shop
    requires t in s.open && |s.open[t].rows| < |s.open[t].items|
    requires Priced(s, s.open[t].items[|s.open[t].rows|])
  {
    var tx := s.open[t];
    var item := tx.items[|tx.rows|];
    With(s, t, tx.(rows := tx.rows + [ItemRow(item.productId, item.quantity, s.products[item.productId].price)]))
  }

  function DoCommit(s: Shop, t: nat): Shop
    requires t in s.open
  {
    var tx := s.open[t];
    s.(open := s.open - {t},
       orders := s.orders[tx.orderId := Order(tx.user, Created, tx.total, tx.rows, tx.key, tx.quoted, tx.outboxId)],
       keys := s.keys[tx.key := Some(tx.orderId)],
       outbox := s.outbox[tx.outboxId := OutboxRow(tx.startedAt, tx.event, false, 0)],
       replies := s.replies + [Reply(tx.key, tx.orderId, tx.items, tx.total)])
  }

  ghost predicate Valid(s: Shop, acts: seq<Action>)
    decreases |acts|
  {
    acts == [] || (Enabled(s, acts[0]) && Valid(Apply(s, acts[0]), acts[1..]))
  }

  ghost function Run(s: Shop, acts: seq<Action>): Shop
    requires Valid(s, acts)
    decreases |acts|
  {
    if acts == [] then s else Run(Apply(s, acts[0]), acts[1..])
  }

  function EmptyShop(products: map<int, Product>, buyer: Option<nat>): Shop {
    Shop(products, buyer, map[], map[], map[], 1, 1, map[], map[], [])
  }

  /** Empty tables over any catalogue; order and outbox ids come from sequences that start at 1. */
  ghost predicate Init(s: Shop) {
    && s.orders == map[] && s.keys == map[] && s.outbox == map[]
    && s.open == map[] && s.replays == map[] && s.replies == []
    && s.nextOrderId == 1 && s.nextOutboxId == 1
    && PricesPositive(s)
  }

  /** What a transaction has read and written so far agrees with its request. */
  ghost predicate Progress(tx: CreateTx) {
    && tx.items != []
    && |tx.quoted| <= |tx.items| && (tx.phase.Reserved? ==> tx.quoted == [])
    && tx.total == Dot(tx.items, tx.quoted)
    && (forall i | 0 <= i < |tx.quoted| :: ValidItem(tx.items[i]) && tx.quoted[i] > 0)
    && |tx.rows| <= |tx.items|
    && ItemsOf(tx.rows) == tx.items[..|tx.rows|]
    && (HasOrder(tx) ==> |tx.quoted| == |tx.items| && tx.total <= INT4_MAX)
    && (!HasOrder(tx) ==> tx.rows == [])
    && (HasEvent(tx) ==> |tx.rows| == |tx.items| && CarriesEvent(tx))
  }

  ghost predicate CarriesEvent(tx: CreateTx) {
    && tx.event.Message? && tx.event.eventId == EventIdOf(tx.orderId) && tx.event.kind == "order.placed"
    && tx.event.occurredAt != "" && tx.event.orderId == tx.orderId && tx.event.userId == tx.user
    && tx.event.items == tx.items && tx.event.total == tx.total
  }

  /** Its key and its ids are not yet in any committed table. */
  ghost predicate Unpublished(s: Shop, tx: CreateTx) {
    && tx.key !in s.keys
    && (HasOrder(tx) ==> 0 < tx.orderId < s.nextOrderId && tx.orderId !in s.orders)
    && (HasEvent(tx) ==> 0 < tx.outboxId < s.nextOutboxId && tx.outboxId !in s.outbox)
  }

  ghost predicate Apart(a: CreateTx, b: CreateTx) {
    && a.key != b.key
    && (HasOrder(a) && HasOrder(b) ==> a.orderId != b.orderId)
    && (HasEvent(a) && HasEvent(b) ==> a.outboxId != b.outboxId)
  }

  ghost predicate TxOk(s: Shop, t: nat)
    requires t in s.open
  {
    Progress(s.open[t]) && Unpublished(s, s.open[t])
  }

  ghost predicate OpenInv(s: Shop) {
    && (forall t {:trigger TxOk(s, t)} | t in s.open :: TxOk(s, t))
    && (forall t, u {:trigger Apart(s.open[t], s.open[u])} | t in s.open && u in s.open && t != u ::
          Apart(s.open[t], s.open[u]))
  }

  ghost predicate PricesPositive(s: Shop) {
    forall p | p in s.products :: 0 < s.products[p].price <= INT4_MAX
  }

  ghost predicate Sequences(s: Shop) {
    && s.nextOrderId > 0 && s.nextOutboxId > 0
    && (forall o | o in s.orders :: 0 < o < s.nextOrderId)
    && (forall x | x in s.outbox :: 0 < x < s.nextOutboxId)
  }

  /** An outbox payload m announces exactly the order stored under o. */
  ghost predicate Announces(m: Message, o: nat, order: Order) {
    && m.Message? && m.eventId == EventIdOf(o) && m.kind == "order.placed" && m.occurredAt != ""
    && m.orderId == o && m.userId == order.userId && m.items == ItemsOf(order.rows) && m.total == order.total
  }

  ghost predicate WellPriced(order: Order) {
    && order.rows != [] && |order.quoted| == |order.rows|
    && order.total == Dot(ItemsOf(order.rows), order.quoted) <= INT4_MAX
    && (forall i | 0 <= i < |order.rows| :: order.rows[i].productId > 0 && order.rows[i].quantity > 0)
  }

  ghost predicate OrderOk(s: Shop, o: nat)
    requires o in s.orders
  {
    var order := s.orders[o];
    && order.key in s.keys && s.keys[order.key] == Some(o)
    && order.outboxId in s.outbox && Announces(s.outbox[order.outboxId].payload, o, order)
    && WellPriced(order)
  }

  /** A committed key is never null: it names the one order it was bound to. */
  ghost predicate KeyOk(s: Shop, key: string)
    requires key in s.keys
  {
    s.keys[key].Some? && s.keys[key].value in s.orders && s.orders[s.keys[key].value].key == key
  }

  ghost predicate OutboxOk(s: Shop, x: nat)
    requires x in s.outbox
  {
    var m := s.outbox[x].payload;
    m.Message? && m.orderId in s.orders && s.orders[m.orderId].outboxId == x
  }

  ghost predicate Answers(s: Shop, r: Reply) {
    && r.key in s.keys && s.keys[r.key] == Some(r.orderId)
    && r.orderId in s.orders
    && r.items == ItemsOf(s.orders[r.orderId].rows)
    && r.total == s.orders[r.orderId].total
  }

  ghost predicate RepliesInv(s: Shop) {
    forall r {:trigger Answers(s, r)} | r in s.replies :: Answers(s, r)
  }

  ghost predicate TablesInv(s: Shop) {
    && (forall o {:trigger OrderOk(s, o)} | o in s.orders :: OrderOk(s, o))
    && (forall key {:trigger KeyOk(s, key)} | key in s.keys :: KeyOk(s, key))
    && (forall x {:trigger OutboxOk(s, x)} | x in s.outbox :: OutboxOk(s, x))
    && RepliesInv(s)
  }

  /** What a replay has read so far is the stored order of its key. */
  ghost predicate ReplayOk(s: Shop, q: nat)
    requires q in s.replays
  {
    var key := s.replays[q].key;
    && key in s.keys && s.keys[key].Some? && s.keys[key].value in s.orders
    && var o := s.keys[key].value;
    match s.replays[q].phase
    case Conflicted => true
    case KeyLocked(order) => order == o
    case OrderRead(order, total) => order == o && total == s.orders[o].total
    case ItemsRead(order, total, items) =>
      order == o && total == s.orders[o].total && items == ItemsOf(s.orders[o].rows)
  }

  ghost predicate ReplaysInv(s: Shop) {
    forall q {:trigger ReplayOk(s, q)} | q in s.replays :: ReplayOk(s, q)
  }

  ghost predicate Inv(s: Shop) {
    PricesPositive(s) && Sequences(s) && OpenInv(s) && TablesInv(s) && ReplaysInv(s)
  }

  /** One transaction moves on; the committed tables stay as they are. */
  lemma MoveKeepsOpen(s: Shop, t: nat, tx: CreateTx, s': Shop)
    requires OpenInv(s) && s'.open == s.open[t := tx]
    requires s'.keys == s.keys && s'.orders == s.orders && s'.outbox == s.outbox
    requires s.nextOrderId <= s'.nextOrderId && s.nextOutboxId <= s'.nextOutboxId
    requires Progress(tx) && Unpublished(s', tx)
    requires forall u | u in s.open && u != t :: Apart(tx, s.open[u])
    ensures OpenInv(s')
  {
    forall u | u in s'.open ensures TxOk(s', u) {
      assert u != t ==> TxOk(s, u);
    }
    forall u, v | u in s'.open && v in s'.open && u != v ensures Apart(s'.open[u], s'.open[v]) {
      if u != t && v != t {
        assert Apart(s.open[u], s.open[v]);
      } else {
        assert u != t ==> Apart(tx, s.open[u]);
      }
    }
  }

  /** A transaction ends; the ones still open are untouched, and nothing new they rely on appears. */
  lemma EndKeepsOpen(s: Shop, s': Shop, tx: CreateTx)
    requires OpenInv(s)
    requires s'.open.Keys <= s.open.Keys && forall t | t in s'.open :: s'.open[t] == s.open[t]
    requires s'.keys.Keys <= s.keys.Keys + {tx.key}
    requires s'.orders.Keys <= s.orders.Keys + {tx.orderId} && s'.outbox.Keys <= s.outbox.Keys + {tx.outboxId}
    requires s'.nextOrderId == s.nextOrderId && s'.nextOutboxId == s.nextOutboxId
    requires HasEvent(tx) || (s'.keys.Keys == s.keys.Keys && s'.orders.Keys == s.orders.Keys &&
             s'.outbox.Keys == s.outbox.Keys)
    requires HasEvent(tx) ==> forall u | u in s'.open :: Apart(tx, s.open[u])
    ensures OpenInv(s')
  {
    forall u | u in s'.open ensures TxOk(s', u) {
      assert TxOk(s, u);
      assert HasEvent(tx) ==> Apart(tx, s.open[u]);
    }
    forall u, v | u in s'.open && v in s'.open && u != v ensures Apart(s'.open[u], s'.open[v]) {
      assert Apart(s.open[u], s.open[v]);
    }
  }

  lemma QuoteKeepsProgress(tx: CreateTx, price: int)
    requires Progress(tx) && tx.phase.Totalling? && |tx.quoted| < |tx.items| && price > 0
    requires ValidItem(tx.items[|tx.quoted|])
    ensures Progress(tx.(quoted := tx.quoted + [price],
                         total := tx.total + price * tx.items[|tx.quoted|].quantity))
  {
    assert (tx.quoted + [price])[..|tx.quoted|] == tx.quoted;
  }

  lemma InsertItemKeepsProgress(tx: CreateTx, price: int)
    requires Progress(tx) && tx.phase.Inserting? && |tx.rows| < |tx.items|
    ensures var item := tx.items[|tx.rows|];
            Progress(tx.(rows := tx.rows + [ItemRow(item.productId, item.quantity, price)]))
  {
    var item := tx.items[|tx.rows|];
    var rows := tx.rows + [ItemRow(item.productId, item.quantity, price)];
    assert ItemsOf(rows) == tx.items[..|rows|];
  }

  lemma BeginKeepsOpen(s: Shop, t: nat, key: string, items: seq<Item>, now: nat)
    requires OpenInv(s) && Enabled(s, Begin(t, key, items, now))
    ensures OpenInv(Apply(s, Begin(t, key, items, now)))
  {
    var s' := Apply(s, Begin(t, key, items, now));
    assert ItemsOf([]) == items[..0];
    MoveKeepsOpen(s, t, s'.open[t], s');
  }

  /** The other transactions keep their distance when t changes neither its key nor its ids. */
  lemma LocalMoveKeepsOpen(s: Shop, t: nat, tx: CreateTx)
    requires OpenInv(s) && t in s.open && Progress(tx)
    requires tx.key == s.open[t].key && tx.orderId == s.open[t].orderId && tx.outboxId == s.open[t].outboxId
    requires HasOrder(tx) == HasOrder(s.open[t]) && HasEvent(tx) == HasEvent(s.open[t])
    ensures OpenInv(With(s, t, tx))
  {
    assert TxOk(s, t);
    forall u | u in s.open && u != t ensures Apart(tx, s.open[u]) {
      assert Apart(s.open[t], s.open[u]);
    }
    MoveKeepsOpen(s, t, tx, With(s, t, tx));
  }

  lemma QuoteKeepsOpen(s: Shop, t: nat)
    requires OpenInv(s) && PricesPositive(s) && Enabled(s, Quote(t))
    ensures OpenInv(DoQuote(s, t))
  {
    var tx := s.open[t];
    assert TxOk(s, t);
    QuoteKeepsProgress(tx, s.products[tx.items[|tx.quoted|].productId].price);
    LocalMoveKeepsOpen(s, t, DoQuote(s, t).open[t]);
  }

  lemma InsertItemKeepsOpen(s: Shop, t: nat)
    requires OpenInv(s) && Enabled(s, InsertItem(t))
    ensures OpenInv(DoInsertItem(s, t))
  {
    var tx := s.open[t];
    assert TxOk(s, t);
    InsertItemKeepsProgress(tx, s.products[tx.items[|tx.rows|].productId].price);
    LocalMoveKeepsOpen(s, t, DoInsertItem(s, t).open[t]);
  }

  lemma PhaseChangeKeepsOpen(s: Shop, a: Action)
    requires OpenInv(s) && Enabled(s, a) && (a.PickBuyer? || a.BindKey?)
    ensures OpenInv(Apply(s, a))
  {
    assert TxOk(s, a.t);
    LocalMoveKeepsOpen(s, a.t, Apply(s, a).open[a.t]);
  }

  /** A fresh id from a sequence is in no table and in no other transaction. */
  lemma InsertOrderKeepsOpen(s: Shop, t: nat)
    requires OpenInv(s) && Sequences(s) && Enabled(s, InsertOrder(t))
    ensures OpenInv(Apply(s, InsertOrder(t)))
  {
    var s' := Apply(s, InsertOrder(t));
    assert TxOk(s, t);
    forall u | u in s.open && u != t ensures Apart(s'.open[t], s.open[u]) {
      assert Apart(s.open[t], s.open[u]) && TxOk(s, u);
    }
    MoveKeepsOpen(s, t, s'.open[t], s');
  }

  lemma InsertOutboxKeepsOpen(s: Shop, t: nat, occurredAt: string)
    requires OpenInv(s) && Sequences(s) && Enabled(s, InsertOutbox(t, occurredAt))
    ensures OpenInv(Apply(s, InsertOutbox(t, occurredAt)))
  {
    var s' := Apply(s, InsertOutbox(t, occurredAt));
    assert TxOk(s, t);
    forall u | u in s.open && u != t ensures Apart(s'.open[t], s.open[u]) {
      assert Apart(s.open[t], s.open[u]) && TxOk(s, u);
    }
    MoveKeepsOpen(s, t, s'.open[t], s');
  }

  lemma CommitKeepsOpen(s: Shop, t: nat)
    requires OpenInv(s) && Enabled(s, Commit(t))
    ensures OpenInv(DoCommit(s, t))
  {
    var tx := s.open[t];
    forall u | u in s.open && u != t ensures Apart(tx, s.open[u]) {
      assert Apart(s.open[t], s.open[u]);
    }
    EndKeepsOpen(s, DoCommit(s, t), tx);
  }

  lemma TablesOnlyKeepOpen(s: Shop, s': Shop)
    requires OpenInv(s)
    requires s'.open.Keys <= s.open.Keys && forall t | t in s'.open :: s'.open[t] == s.open[t]
    requires s'.keys == s.keys && s'.orders.Keys == s.orders.Keys && s'.outbox.Keys == s.outbox.Keys
    requires s'.nextOrderId == s.nextOrderId && s'.nextOutboxId == s.nextOutboxId
    ensures OpenInv(s')
  {
    var idle := CreateTx("", [], Reserved, 0, [], 0, 0, [], 0, Garbage, 0);
    EndKeepsOpen(s, s', idle);
  }

  /** A replay touches nothing but itself and the responses. */
  lemma ReplayFrame(s: Shop, q: nat, step: ReplayStep)
    requires CanReplay(s, q, step)
    ensures DoReplay(s, q, step) == s.(replays := DoReplay(s, q, step).replays, replies := DoReplay(s, q, step).replies)
  {
  }

  lemma ReplayKeepsOpen(s: Shop, q: nat, step: ReplayStep)
    requires OpenInv(s) && CanReplay(s, q, step)
    ensures OpenInv(DoReplay(s, q, step))
  {
    ReplayFrame(s, q, step);
    TablesOnlyKeepOpen(s, DoReplay(s, q, step));
  }

  lemma OtherStepKeepsOpen(s: Shop, a: Action)
    requires OpenInv(s) && Enabled(s, a) && (a.Abort? || a.Reprice? || a.RemoveProduct? || a.SetStatus?)
    ensures OpenInv(Apply(s, a))
  {
    TablesOnlyKeepOpen(s, Apply(s, a));
  }

  lemma OpenInvStep(s: Shop, a: Action)
    requires OpenInv(s) && Sequences(s) && PricesPositive(s) && Enabled(s, a)
    ensures OpenInv(Apply(s, a))
  {
    if a.Abort? || a.Reprice? || a.RemoveProduct? || a.SetStatus? {
      OtherStepKeepsOpen(s, a);
    } else {
      match a
      case Begin(t, key, items, now) => BeginKeepsOpen(s, t, key, items, now);
      case Replay(q, step) => ReplayKeepsOpen(s, q, step);
      case PickBuyer(t) => PhaseChangeKeepsOpen(s, a);
      case Quote(t) => QuoteKeepsOpen(s, t);
      case InsertOrder(t) => InsertOrderKeepsOpen(s, t);
      case InsertItem(t) => InsertItemKeepsOpen(s, t);
      case InsertOutbox(t, occurredAt) => InsertOutboxKeepsOpen(s, t, occurredAt);
      case BindKey(t) => PhaseChangeKeepsOpen(s, a);
      case Commit(t) => CommitKeepsOpen(s, t);
    }
  }

  /** The commit of one create: the order, its outbox row, its key and its response appear together. */
  lemma CommitKeepsOrders(s: Shop, t: nat, o: nat)
    requires OpenInv(s) && TablesInv(s) && Enabled(s, Commit(t)) && o in DoCommit(s, t).orders
    ensures OrderOk(DoCommit(s, t), o)
  {
    var tx := s.open[t];
    assert TxOk(s, t);
    if o == tx.orderId {
      assert ItemsOf(tx.rows) == tx.items;
    } else {
      assert OrderOk(s, o);
    }
  }

  lemma CommitKeepsKeys(s: Shop, t: nat)
    requires OpenInv(s) && TablesInv(s) && Enabled(s, Commit(t))
    ensures forall key | key in DoCommit(s, t).keys :: KeyOk(DoCommit(s, t), key)
    ensures forall x | x in DoCommit(s, t).outbox :: OutboxOk(DoCommit(s, t), x)
  {
    var tx, s' := s.open[t], DoCommit(s, t);
    assert TxOk(s, t);
    forall key | key in s'.keys ensures KeyOk(s', key) {
      assert key != tx.key ==> KeyOk(s, key);
    }
    forall x | x in s'.outbox ensures OutboxOk(s', x) {
      assert x != tx.outboxId ==> OutboxOk(s, x);
    }
  }

  lemma CommitKeepsTables(s: Shop, t: nat)
    requires OpenInv(s) && TablesInv(s) && Enabled(s, Commit(t))
    ensures TablesInv(DoCommit(s, t))
  {
    forall o | o in DoCommit(s, t).orders ensures OrderOk(DoCommit(s, t), o) {
      CommitKeepsOrders(s, t, o);
    }
    CommitKeepsKeys(s, t);
    CommitKeepsReplies(s, t);
  }

  lemma CommitKeepsReplies(s: Shop, t: nat)
    requires OpenInv(s) && RepliesInv(s) && Enabled(s, Commit(t))
    ensures RepliesInv(DoCommit(s, t))
  {
    var tx, s' := s.open[t], DoCommit(s, t);
    assert TxOk(s, t);
    assert ItemsOf(tx.rows) == tx.items;
    forall r | r in s'.replies ensures Answers(s', r) {
      assert r in s.replies ==> Answers(s, r);
    }
  }

  lemma ReplayKeepsTables(s: Shop, q: nat, step: ReplayStep)
    requires TablesInv(s) && ReplaysInv(s) && CanReplay(s, q, step)
    ensures TablesInv(DoReplay(s, q, step))
  {
    var s' := DoReplay(s, q, step);
    assert q in s.replays ==> ReplayOk(s, q);
    forall r | r in s'.replies ensures Answers(s', r) {
      assert r in s.replies ==> Answers(s, r);
    }
    SameTables(s, s');
  }

  lemma SameTables(s: Shop, s': Shop)
    requires TablesInv(s) && RepliesInv(s')
    requires s'.orders == s.orders && s'.keys == s.keys && s'.outbox == s.outbox
    ensures TablesInv(s')
  {
    forall o | o in s'.orders ensures OrderOk(s', o) {
      assert OrderOk(s, o);
    }
    forall key | key in s'.keys ensures KeyOk(s', key) {
      assert KeyOk(s, key);
    }
    forall x | x in s'.outbox ensures OutboxOk(s', x) {
      assert OutboxOk(s, x);
    }
  }

  lemma UntouchedTables(s: Shop, s': Shop)
    requires TablesInv(s)
    requires s'.orders == s.orders && s'.keys == s.keys && s'.outbox == s.outbox && s'.replies == s.replies
    ensures TablesInv(s')
  {
    forall r | r in s'.replies ensures Answers(s', r) {
      assert Answers(s, r);
    }
    SameTables(s, s');
  }

  function WithStatus(s: Shop, o: nat, status: Status): Shop
    requires o in s.orders
  {
    s.(orders := s.orders[o := s.orders[o].(status := status)])
  }

  lemma StatusKeepsOrders(s: Shop, o: nat, status: Status, i: nat)
    requires TablesInv(s) && o in s.orders && i in s.orders
    ensures OrderOk(WithStatus(s, o, status), i)
  {
    assert OrderOk(s, i);
  }

  lemma StatusKeepsRows(s: Shop, o: nat, status: Status)
    requires TablesInv(s) && o in s.orders
    ensures var s' := WithStatus(s, o, status);
            (forall key | key in s'.keys :: KeyOk(s', key)) && (forall x | x in s'.outbox :: OutboxOk(s', x))
  {
    var s' := WithStatus(s, o, status);
    forall key | key in s'.keys ensures KeyOk(s', key) {
      assert KeyOk(s, key);
    }
    forall x | x in s'.outbox ensures OutboxOk(s', x) {
      assert OutboxOk(s, x);
    }
  }

  lemma StatusKeepsTables(s: Shop, o: nat, status: Status)
    requires TablesInv(s) && o in s.orders
    ensures TablesInv(WithStatus(s, o, status))
  {
    var s' := WithStatus(s, o, status);
    forall i | i in s'.orders ensures OrderOk(s', i) {
      StatusKeepsOrders(s, o, status, i);
    }
    StatusKeepsRows(s, o, status);
    forall r | r in s'.replies ensures Answers(s', r) {
      assert Answers(s, r);
    }
  }

  lemma TablesInvStep(s: Shop, a: Action)
    requires OpenInv(s) && TablesInv(s) && ReplaysInv(s) && Enabled(s, a)
    ensures TablesInv(Apply(s, a))
  {
    match a
    case Replay(q, step) => ReplayKeepsTables(s, q, step);
    case Commit(t) => CommitKeepsTables(s, t);
    case SetStatus(o, status) => StatusKeepsTables(s, o, status);
    case _ => UntouchedTables(s, Apply(s, a));
  }

  /** Keys stay bound and stored orders keep their items and totals. */
  lemma StoredOrdersStay(s: Shop, a: Action)
    requires OpenInv(s) && Enabled(s, a)
    ensures var s' := Apply(s, a);
            && (forall key | key in s.keys :: key in s'.keys && s'.keys[key] == s.keys[key])
            && (forall o | o in s.orders :: o in s'.orders && s'.orders[o].total == s.orders[o].total &&
                                            s'.orders[o].rows == s.orders[o].rows)
  {
    if a.Replay? {
      ReplayFrame(s, a.q, a.step);
    } else if a.Commit? {
      assert TxOk(s, a.t);
    }
  }

  lemma ReplayMoveOk(s: Shop, q: nat, step: ReplayStep)
    requires TablesInv(s) && ReplaysInv(s) && CanReplay(s, q, step)
    ensures ReplaysInv(DoReplay(s, q, step))
  {
    var s' := DoReplay(s, q, step);
    if step.Conflict? {
      assert KeyOk(s, step.key);
    }
    forall p | p in s'.replays ensures ReplayOk(s', p) {
      assert p in s.replays ==> ReplayOk(s, p);
    }
  }

  lemma ReplaysInvStep(s: Shop, a: Action)
    requires OpenInv(s) && TablesInv(s) && ReplaysInv(s) && Enabled(s, a)
    ensures ReplaysInv(Apply(s, a))
  {
    if a.Replay? {
      ReplayMoveOk(s, a.q, a.step);
    } else {
      var s' := Apply(s, a);
      StoredOrdersStay(s, a);
      forall q | q in s'.replays ensures ReplayOk(s', q) {
        assert ReplayOk(s, q);
      }
    }
  }

  lemma CountersInvStep(s: Shop, a: Action)
    requires OpenInv(s) && PricesPositive(s) && Sequences(s) && Enabled(s, a)
    ensures PricesPositive(Apply(s, a)) && Sequences(Apply(s, a))
  {
    if a.Replay? {
      ReplayFrame(s, a.q, a.step);
    } else {
      StatementKeepsCounters(s, a);
    }
  }

  lemma StatementKeepsCounters(s: Shop, a: Action)
    requires OpenInv(s) && PricesPositive(s) && Sequences(s) && Enabled(s, a) && !a.Replay?
    ensures PricesPositive(Apply(s, a)) && Sequences(Apply(s, a))
  {
    if a.Commit? {
      assert TxOk(s, a.t);
    }
  }

  lemma InvStep(s: Shop, a: Action)
    requires Inv(s) && Enabled(s, a)
    ensures Inv(Apply(s, a))
  {
    OpenInvStep(s, a);
    TablesInvStep(s, a);
    ReplaysInvStep(s, a);
    CountersInvStep(s, a);
  }

  lemma {:induction false} InvRun(s: Shop, acts: seq<Action>)
    requires Inv(s) && Valid(s, acts)
    ensures Inv(Run(s, acts))
    decreases |acts|
  {
    if acts != [] {
      InvStep(s, acts[0]);
      InvRun(Apply(s, acts[0]), acts[1..]);
    }
  }

  lemma InitInv(s: Shop)
    requires Init(s)
    ensures Inv(s)
  {
  }

  ghost predicate Reachable(s: Shop) {
    exists init, acts :: Init(init) && Valid(init, acts) && s == Run(init, acts)
  }

  lemma ReachableInv(s: Shop)
    requires Reachable(s)
    ensures Inv(s)
  {
    var init, acts :| Init(init) && Valid(init, acts) && s == Run(init, acts);
    InitInv(init);
    InvRun(init, acts);
  }

  lemma {:induction false} Extend(s: Shop, acts: seq<Action>, a: Action)
    requires Valid(s, acts) && Enabled(Run(s, acts), a)
    ensures Valid(s, acts + [a]) && Run(s, acts + [a]) == Apply(Run(s, acts), a)
    decreases |acts|
  {
    if acts == [] {
      assert acts + [a] == [a];
    } else {
      assert (acts + [a])[0] == acts[0] && (acts + [a])[1..] == acts[1..] + [a];
      Extend(Apply(s, acts[0]), acts[1..], a);
    }
  }

  // ---- What every interleaving guarantees ----

  /** However requests race, a key commits at most one order. */
  lemma KeyCommitsOneOrder(s: Shop, o1: nat, o2: nat)
    requires Reachable(s) && o1 in s.orders && o2 in s.orders && s.orders[o1].key == s.orders[o2].key
    ensures o1 == o2
  {
    ReachableInv(s);
    assert OrderOk(s, o1) && OrderOk(s, o2);
  }

  /** A committed key always has its order, so neither error of the replay path is ever taken: the request stays open
      at each of its statements and answers with the stored order, whatever body it carries. */
  lemma ReplayFindsTheOrder(s: Shop, q: nat)
    requires Reachable(s) && q in s.replays
    ensures var key := s.replays[q].key;
            && key in s.keys && s.keys[key].Some? && s.keys[key].value in s.orders
            && var o := s.keys[key].value;
            && (CanReplay(s, q, LockKey) ==> q in DoReplay(s, q, LockKey).replays)
            && (CanReplay(s, q, ReadOrder) ==> q in DoReplay(s, q, ReadOrder).replays)
            && (CanReplay(s, q, Finish) ==>
                  DoReplay(s, q, Finish).replies ==
                  s.replies + [Reply(key, o, ItemsOf(s.orders[o].rows), s.orders[o].total)])
  {
    ReachableInv(s);
    assert ReplayOk(s, q);
  }

  /** The key rows a replay meets: never null, always naming a stored order of that key. */
  lemma CommittedKeysAreComplete(s: Shop, key: string)
    requires Reachable(s) && key in s.keys
    ensures s.keys[key].Some? && s.keys[key].value in s.orders && s.orders[s.keys[key].value].key == key
  {
    ReachableInv(s);
    assert KeyOk(s, key);
  }

  /** All responses ever computed for one key carry the same id, items and total. */
  lemma RepliesAgree(s: Shop, i: nat, j: nat)
    requires Reachable(s) && i < |s.replies| && j < |s.replies| && s.replies[i].key == s.replies[j].key
    ensures s.replies[i] == s.replies[j]
  {
    ReachableInv(s);
    assert Answers(s, s.replies[i]) && Answers(s, s.replies[j]);
  }

  /** Every committed order has exactly one outbox row, with its own event id and its own content. */
  lemma OneOutboxRowPerOrder(s: Shop, o: nat)
    requires Reachable(s) && o in s.orders
    ensures exists x :: x in s.outbox && s.outbox[x].payload.Message? &&
              var m, order := s.outbox[x].payload, s.orders[o];
              && m.eventId == "order.placed:" + Decimals.Decimal(o) && m.kind == "order.placed" && m.occurredAt != ""
              && m.orderId == o && m.userId == order.userId && m.total == order.total && |m.items| == |order.rows|
              && forall i | 0 <= i < |order.rows| ::
                   m.items[i].productId == order.rows[i].productId && m.items[i].quantity == order.rows[i].quantity
    ensures forall x, y | x in s.outbox && y in s.outbox ::
              IdOf(s.outbox[x].payload) == EventIdOf(o) == IdOf(s.outbox[y].payload) ==> x == y
  {
    ReachableInv(s);
    assert OrderOk(s, o);
    forall x, y | x in s.outbox && y in s.outbox &&
        IdOf(s.outbox[x].payload) == EventIdOf(o) == IdOf(s.outbox[y].payload)
      ensures x == y
    {
      RowAnnouncesItsOrder(s, x);
      RowAnnouncesItsOrder(s, y);
      EventIdInjective(s.outbox[x].payload.orderId, o);
      EventIdInjective(s.outbox[y].payload.orderId, o);
      assert OutboxOk(s, x) && OutboxOk(s, y);
    }
  }

  /** Conversely no outbox row exists without its order. */
  lemma RowAnnouncesItsOrder(s: Shop, x: nat)
    requires TablesInv(s) && x in s.outbox
    ensures var m := s.outbox[x].payload;
            m.Message? && m.orderId in s.orders && Announces(m, m.orderId, s.orders[m.orderId])
  {
    assert OutboxOk(s, x);
    assert OrderOk(s, s.outbox[x].payload.orderId);
  }

  /** The UNIQUE constraint on event_id never fires: order ids are drawn fresh even after aborts. */
  lemma OutboxInsertNeverConflicts(s: Shop, t: nat)
    requires Reachable(s) && t in s.open && s.open[t].phase.Inserting?
    ensures EventIdFree(s, s.open[t].orderId)
  {
    ReachableInv(s);
    var o := s.open[t].orderId;
    assert TxOk(s, t);
    forall x | x in s.outbox ensures IdOf(s.outbox[x].payload) != EventIdOf(o) {
      RowAnnouncesItsOrder(s, x);
      if IdOf(s.outbox[x].payload) == EventIdOf(o) {
        EventIdInjective(s.outbox[x].payload.orderId, o);
      }
    }
    forall u | u in s.open && HasEvent(s.open[u]) ensures IdOf(s.open[u].event) != EventIdOf(o) {
      assert TxOk(s, u) && Apart(s.open[t], s.open[u]);
      if IdOf(s.open[u].event) == EventIdOf(o) {
        EventIdInjective(s.open[u].orderId, o);
      }
    }
  }

  // ---- Totals ----

  /** The open request t is still to commit. */
  predicate Completes(acts: seq<Action>, t: nat)
    decreases |acts|
  {
    acts != [] && (acts[0] == Commit(t) || (acts[0] != Abort(t) && Completes(acts[1..], t)))
  }

  /** Between its two reads by the request that commits under this key, no product gets another price than the one that
      was quoted. Earlier and later prices are free, and so are those of other products, other requests, and attempts
      that abort. */
  ghost predicate Quiet(s: Shop, acts: seq<Action>, key: string)
    requires acts != []
  {
    acts[0].Reprice? ==>
      forall t | t in s.open && s.open[t].key == key && Completes(acts, t) :: Unmoved(s.open[t], acts[0])
  }

  /** The lines i that are quoted but not yet inserted lie between their two reads. */
  predicate Unmoved(tx: CreateTx, a: Action)
    requires a.Reprice?
  {
    forall i | |tx.rows| <= i < |tx.quoted| && i < |tx.items| ::
      tx.items[i].productId == a.productId ==> a.product.price == tx.quoted[i]
  }

  ghost predicate QuietRun(s: Shop, acts: seq<Action>, key: string)
    requires Valid(s, acts)
    decreases |acts|
  {
    acts == [] || (Quiet(s, acts, key) && QuietRun(Apply(s, acts[0]), acts[1..], key))
  }

  /** The prices read for the total are the ones stored, or still the ones that will be stored. */
  ghost predicate Held(s: Shop, tx: CreateTx) {
    && |tx.rows| <= |tx.quoted| <= |tx.items|
    && (forall i | 0 <= i < |tx.rows| :: tx.rows[i].unitPrice == tx.quoted[i])
    && (forall i | |tx.rows| <= i < |tx.quoted| && tx.items[i].productId in s.products ::
          s.products[tx.items[i].productId].price == tx.quoted[i])
  }

  ghost predicate PricesHeld(s: Shop, acts: seq<Action>, key: string) {
    && (forall t {:trigger Held(s, s.open[t])} | t in s.open && s.open[t].key == key && Completes(acts, t) ::
          Held(s, s.open[t]))
    && (forall o | o in s.orders && s.orders[o].key == key :: UnitPrices(s.orders[o].rows) == s.orders[o].quoted)
  }

  /** Every statement of a create other than its commit keeps its own quoted prices. */
  lemma StatementHolds(s: Shop, a: Action, t: nat)
    requires OpenInv(s) && Enabled(s, a) && !a.Reprice? && !a.Replay? && t in Apply(s, a).open
    requires t in s.open ==> Held(s, s.open[t])
    ensures Held(Apply(s, a), Apply(s, a).open[t])
  {
    if t in s.open {
      assert TxOk(s, t);
      if s.open[t] != Apply(s, a).open[t] {
        match a
        case Quote(_) =>
        case InsertItem(_) =>
        case _ =>
      }
    }
  }

  lemma ReplayHolds(s: Shop, acts: seq<Action>, key: string)
    requires acts != [] && acts[0].Replay? && Enabled(s, acts[0]) && PricesHeld(s, acts, key)
    ensures PricesHeld(Apply(s, acts[0]), acts[1..], key)
  {
    ReplayFrame(s, acts[0].q, acts[0].step);
    var s' := Apply(s, acts[0]);
    forall t | t in s'.open && s'.open[t].key == key && Completes(acts[1..], t) ensures Held(s', s'.open[t]) {
      assert Held(s, s.open[t]);
    }
  }

  lemma RepriceHolds(s: Shop, a: Action, tx: CreateTx)
    requires a.Reprice? && Enabled(s, a) && Held(s, tx) && Unmoved(tx, a)
    ensures Held(Apply(s, a), tx)
  {
  }

  lemma StillOpen(s: Shop, a: Action, t: nat)
    requires Enabled(s, a) && !a.Replay? && t in s.open && t in Apply(s, a).open
    ensures a != Abort(t) && Apply(s, a).open[t].key == s.open[t].key
  {
  }

  lemma QuietStatementHolds(s: Shop, a: Action, t: nat)
    requires OpenInv(s) && Enabled(s, a) && !a.Replay? && t in Apply(s, a).open
    requires t in s.open ==> Held(s, s.open[t]) && (a.Reprice? ==> Unmoved(s.open[t], a))
    ensures Held(Apply(s, a), Apply(s, a).open[t])
  {
    if a.Reprice? {
      RepriceHolds(s, a, s.open[t]);
    } else {
      StatementHolds(s, a, t);
    }
  }

  lemma QuietCommitHolds(s: Shop, acts: seq<Action>, key: string, o: nat)
    requires acts != [] && OpenInv(s) && PricesHeld(s, acts, key) && Enabled(s, acts[0]) && !acts[0].Replay?
    requires o in Apply(s, acts[0]).orders && Apply(s, acts[0]).orders[o].key == key
    ensures UnitPrices(Apply(s, acts[0]).orders[o].rows) == Apply(s, acts[0]).orders[o].quoted
  {
    if acts[0].Commit? && o == s.open[acts[0].t].orderId {
      assert TxOk(s, acts[0].t) && Held(s, s.open[acts[0].t]);
    } else if !acts[0].Commit? {
      OrdersKept(s, acts[0], o);
    }
  }

  lemma OrdersKept(s: Shop, a: Action, o: nat)
    requires Enabled(s, a) && !a.Replay? && !a.Commit? && o in Apply(s, a).orders
    ensures o in s.orders && Apply(s, a).orders[o] == s.orders[o].(status := Apply(s, a).orders[o].status)
  {
  }

  lemma QuietStep(s: Shop, acts: seq<Action>, key: string)
    requires acts != [] && OpenInv(s) && PricesHeld(s, acts, key) && Enabled(s, acts[0]) && Quiet(s, acts, key)
    ensures PricesHeld(Apply(s, acts[0]), acts[1..], key)
  {
    if acts[0].Replay? {
      ReplayHolds(s, acts, key);
    } else {
      var s' := Apply(s, acts[0]);
      forall t | t in s'.open && s'.open[t].key == key && Completes(acts[1..], t) ensures Held(s', s'.open[t]) {
        if t in s.open {
          StillOpen(s, acts[0], t);
          assert Completes(acts, t);
        }
        QuietStatementHolds(s, acts[0], t);
      }
      forall o | o in s'.orders && s'.orders[o].key == key
        ensures UnitPrices(s'.orders[o].rows) == s'.orders[o].quoted
      {
        QuietCommitHolds(s, acts, key, o);
      }
    }
  }

  lemma {:induction false} QuietRunHolds(s: Shop, acts: seq<Action>, key: string)
    requires Inv(s) && PricesHeld(s, acts, key) && Valid(s, acts) && QuietRun(s, acts, key)
    ensures PricesHeld(Run(s, acts), [], key) && Inv(Run(s, acts))
    decreases |acts|
  {
    if acts != [] {
      InvStep(s, acts[0]);
      QuietStep(s, acts, key);
      QuietRunHolds(Apply(s, acts[0]), acts[1..], key);
    }
  }

  /** If no product of the order was repriced between its two reads by that order's request, the total is the sum over
      the items. */
  lemma TotalsMatchWhenQuiet(init: Shop, acts: seq<Action>, o: nat)
    requires Init(init) && Valid(init, acts) && o in Run(init, acts).orders
    requires QuietRun(init, acts, Run(init, acts).orders[o].key)
    ensures Run(init, acts).orders[o].total == ItemSum(Run(init, acts).orders[o].rows)
  {
    InitInv(init);
    QuietRunHolds(init, acts, Run(init, acts).orders[o].key);
    assert OrderOk(Run(init, acts), o);
  }

  lemma {:induction false} DotMonotone(items: seq<Item>, p: seq<int>, q: seq<int>)
    requires |p| == |q| <= |items|
    requires forall i | 0 <= i < |p| :: items[i].quantity > 0 && p[i] <= q[i]
    ensures Dot(items, p) <= Dot(items, q)
    ensures Dot(items, p) == Dot(items, q) ==> p == q
    decreases |p|
  {
    if p != [] {
      var n := |p| - 1;
      DotMonotone(items, p[..n], q[..n]);
      assert p == p[..n] + [p[n]] && q == q[..n] + [q[n]];
      assert p[n] * items[n].quantity <= q[n] * items[n].quantity;
      assert p[n] < q[n] ==> p[n] * items[n].quantity < q[n] * items[n].quantity;
    }
  }

  /** Between the two reads no price rose, or none fell. An order with one item always is of this kind. */
  predicate OneWay(order: Order)
    requires |order.quoted| == |order.rows|
  {
    || (forall i | 0 <= i < |order.rows| :: order.quoted[i] <= order.rows[i].unitPrice)
    || (forall i | 0 <= i < |order.rows| :: order.rows[i].unitPrice <= order.quoted[i])
  }

  lemma OneItemIsOneWay(order: Order)
    requires |order.quoted| == |order.rows| == 1
    ensures OneWay(order)
  {
    assert order.quoted[0] <= order.rows[0].unitPrice || order.rows[0].unitPrice <= order.quoted[0];
  }

  /** If the prices moved one way only between the reads, the total matches the items exactly when none moved. */
  lemma TotalMatchesIffPricesHeld(s: Shop, o: nat)
    requires Reachable(s) && o in s.orders
    ensures |s.orders[o].quoted| == |s.orders[o].rows|
    ensures OneWay(s.orders[o]) ==>
              (s.orders[o].total == ItemSum(s.orders[o].rows) <==>
               forall i | 0 <= i < |s.orders[o].rows| :: s.orders[o].quoted[i] == s.orders[o].rows[i].unitPrice)
  {
    ReachableInv(s);
    assert OrderOk(s, o);
    var order := s.orders[o];
    var prices := UnitPrices(order.rows);
    if forall i | 0 <= i < |order.rows| :: order.quoted[i] <= order.rows[i].unitPrice {
      DotMonotone(ItemsOf(order.rows), order.quoted, prices);
    } else if OneWay(order) {
      DotMonotone(ItemsOf(order.rows), prices, order.quoted);
    }
    if forall i | 0 <= i < |order.rows| :: order.quoted[i] == order.rows[i].unitPrice {
      assert prices == order.quoted;
    }
  }

  /** One buyer, one product, one open request for two pieces of it. */
  function DemoShop(price: int, orders: nat, tx: CreateTx): Shop {
    Shop(map[1 := Product(price, true)], Some(1), map[], map[], map[], orders, 1, map[0 := tx], map[], [])
  }

  function DemoTx(phase: Phase, quoted: seq<int>, total: int, orderId: nat, rows: seq<ItemRow>): CreateTx {
    CreateTx("k", [Item(1, 2)], phase, 1, quoted, total, orderId, rows, 0, Garbage, 0)
  }

  const DEMO_START := DemoShop(100, 1, DemoTx(Reserved, [], 0, 0, [])).(open := map[])

  lemma DemoQuoted() returns (acts: seq<Action>)
    ensures Valid(DEMO_START, acts) && Run(DEMO_START, acts) == DemoShop(100, 1, DemoTx(Totalling, [100], 200, 0, []))
  {
    assert !IsSpace("k"[0]);
    acts := [];
    Extend(DEMO_START, acts, Begin(0, "k", [Item(1, 2)], 0)); acts := acts + [Begin(0, "k", [Item(1, 2)], 0)];
    Extend(DEMO_START, acts, PickBuyer(0));                   acts := acts + [PickBuyer(0)];
    Extend(DEMO_START, acts, Quote(0));                       acts := acts + [Quote(0)];
    assert Run(DEMO_START, acts).open[0].quoted == [100];
    assert Run(DEMO_START, acts).open == map[0 := DemoTx(Totalling, [100], 200, 0, [])];
  }

  lemma DemoInserted() returns (acts: seq<Action>)
    ensures Valid(DEMO_START, acts)
    ensures Run(DEMO_START, acts) == DemoShop(200, 2, DemoTx(Inserting, [100], 200, 1, [ItemRow(1, 2, 200)]))
  {
    acts := DemoQuoted();
    Extend(DEMO_START, acts, Reprice(1, Product(200, true))); acts := acts + [Reprice(1, Product(200, true))];
    Extend(DEMO_START, acts, InsertOrder(0));                 acts := acts + [InsertOrder(0)];
    Extend(DEMO_START, acts, InsertItem(0));                  acts := acts + [InsertItem(0)];
    assert Run(DEMO_START, acts).products == map[1 := Product(200, true)];
    assert Run(DEMO_START, acts).open[0].rows == [ItemRow(1, 2, 200)];
    assert Run(DEMO_START, acts).open == map[0 := DemoTx(Inserting, [100], 200, 1, [ItemRow(1, 2, 200)])];
  }

  /** One reprice between the two reads is enough: the stored total is 200 while the stored items sum to 400. */
  lemma RepriceBetweenReadsSplitsTheTotal() returns (acts: seq<Action>)
    ensures Init(DEMO_START) && Valid(DEMO_START, acts) && 1 in Run(DEMO_START, acts).orders
    ensures Run(DEMO_START, acts).orders[1].total == 200 && ItemSum(Run(DEMO_START, acts).orders[1].rows) == 400
  {
    acts := DemoInserted();
    Extend(DEMO_START, acts, InsertOutbox(0, "now")); acts := acts + [InsertOutbox(0, "now")];
    Extend(DEMO_START, acts, BindKey(0));             acts := acts + [BindKey(0)];
    Extend(DEMO_START, acts, Commit(0));              acts := acts + [Commit(0)];
    var rows := [ItemRow(1, 2, 200)];
    assert Run(DEMO_START, acts).orders[1].rows == rows;
    assert UnitPrices(rows)[..0] == [] && UnitPrices(rows)[0] == 200 && ItemsOf(rows)[0].quantity == 2;
  }
}
