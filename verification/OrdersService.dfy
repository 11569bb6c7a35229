/**
 * OrdersService.create as the method it is: the checks, the totals loop, the insert loop, the outbox row
 * and the key, ending in COMMIT or ROLLBACK. An uninterrupted call is shown to be a run of the
 * statement-level system in `Orders`, so every guarantee of that system holds for it.
 */
module OrdersServices {
  import opened Options
  import opened Messages
  import opened Orders

  datatype CreateError = EmptyOrder | UnusableKey | NoBuyer | InvalidItem | UnknownProduct | OutOfRange
  datatype CreateResult = Placed(reply: Reply) | Refused(error: CreateError)

  predicate Sellable(products: map<int, Product>, item: Item) {
    ValidItem(item) && item.productId in products && products[item.productId].active
  }

  predicate Known(products: map<int, Product>, items: seq<Item>) {
    forall i | 0 <= i < |items| :: items[i].productId in products
  }

  function PricesAt(products: map<int, Product>, items: seq<Item>): (prices: seq<int>)
    requires Known(products, items)
    ensures |prices| == |items|
  {
    seq(|items|, i requires 0 <= i < |items| => products[items[i].productId].price)
  }

  function RowsAt(products: map<int, Product>, items: seq<Item>): (rows: seq<ItemRow>)
    requires Known(products, items)
    ensures |rows| == |items|
  {
    seq(|items|, i requires 0 <= i < |items| =>
      ItemRow(items[i].productId, items[i].quantity, products[items[i].productId].price))
  }

  /** A new order is accepted exactly when there is a buyer, every item can be sold and the total fits its column. */
  ghost predicate Orderable(products: map<int, Product>, buyer: Option<nat>, items: seq<Item>) {
    && buyer.Some?
    && (forall i | 0 <= i < |items| :: Sellable(products, items[i]))
    && Dot(items, PricesAt(products, items)) <= INT4_MAX
  }

  /** Item i is the first that cannot be sold. */
  predicate StopsAt(products: map<int, Product>, items: seq<Item>, i: nat) {
    i < |items| && !Sellable(products, items[i]) && forall j | 0 <= j < i :: Sellable(products, items[j])
  }

  /** A malformed item is reported as such, a well-formed one as an unknown or inactive product. */
  function ItemError(item: Item): CreateError {
    if ValidItem(item) then UnknownProduct else InvalidItem
  }

  /** Why a request is refused: the checks in the order in which they are made. */
  ghost predicate RefusedFor(products: map<int, Product>, buyer: Option<nat>, items: seq<Item>, key: string,
      e: CreateError) {
    match e
    case EmptyOrder => items == []
    case UnusableKey => items != [] && !Admissible(key, items)
    case NoBuyer => Admissible(key, items) && buyer.None?
    case OutOfRange =>
      Admissible(key, items) && buyer.Some? && (forall i | 0 <= i < |items| :: Sellable(products, items[i])) &&
      Dot(items, PricesAt(products, items)) > INT4_MAX
    case _ =>
      Admissible(key, items) && buyer.Some? && exists i: nat :: StopsAt(products, items, i) && e == ItemError(items[i])
  }

  // ---- The uninterrupted request as a run ----

  ghost function During(s: Shop, tx: CreateTx): Shop {
    s.(open := map[0 := tx])
  }

  /** The transaction after k quotes, all at today's prices. */
  ghost function QuotedTx(s: Shop, key: string, items: seq<Item>, now: nat, k: nat): CreateTx
    requires Orderable(s.products, s.buyer, items) && k <= |items|
  {
    var prices := PricesAt(s.products, items)[..k];
    CreateTx(key, items, Totalling, s.buyer.value, prices, Dot(items, prices), 0, [], 0, Garbage, now)
  }

  lemma QuoteStarts(s: Shop, key: string, items: seq<Item>, now: nat) returns (acts: seq<Action>)
    requires Orderable(s.products, s.buyer, items)
    requires Enabled(s, Begin(0, key, items, now)) && s.open == map[]
    ensures Valid(s, acts) && Run(s, acts) == During(s, QuotedTx(s, key, items, now, 0))
  {
    acts := [];
    Extend(s, acts, Begin(0, key, items, now));
    acts := acts + [Begin(0, key, items, now)];
    Extend(s, acts, PickBuyer(0));
    acts := acts + [PickBuyer(0)];
    assert PricesAt(s.products, items)[..0] == [];
  }

  lemma QuoteGoesOn(s: Shop, key: string, items: seq<Item>, now: nat, k: nat)
    requires Orderable(s.products, s.buyer, items) && k < |items|
    ensures var t := During(s, QuotedTx(s, key, items, now, k));
            Enabled(t, Quote(0)) && Apply(t, Quote(0)) == During(s, QuotedTx(s, key, items, now, k + 1))
  {
    var tx, tx' := QuotedTx(s, key, items, now, k), QuotedTx(s, key, items, now, k + 1);
    assert Sellable(s.products, items[k]);
    assert tx'.quoted == tx.quoted + [s.products[items[k].productId].price];
    assert tx'.quoted[..k] == tx.quoted;
    assert map[0 := tx][0 := tx'] == map[0 := tx'];
  }

  lemma {:induction false} QuoteRun(s: Shop, key: string, items: seq<Item>, now: nat, k: nat)
    returns (acts: seq<Action>)
    requires Orderable(s.products, s.buyer, items) && k <= |items|
    requires Enabled(s, Begin(0, key, items, now)) && s.open == map[]
    ensures Valid(s, acts) && Run(s, acts) == During(s, QuotedTx(s, key, items, now, k))
    decreases k
  {
    if k == 0 {
      acts := QuoteStarts(s, key, items, now);
    } else {
      acts := QuoteRun(s, key, items, now, k - 1);
      QuoteGoesOn(s, key, items, now, k - 1);
      Extend(s, acts, Quote(0));
      acts := acts + [Quote(0)];
    }
  }

  ghost function InsertedTx(s: Shop, key: string, items: seq<Item>, now: nat, k: nat): CreateTx
    requires Orderable(s.products, s.buyer, items) && k <= |items|
  {
    var prices := PricesAt(s.products, items);
    CreateTx(key, items, Inserting, s.buyer.value, prices, Dot(items, prices), s.nextOrderId,
             RowsAt(s.products, items)[..k], 0, Garbage, now)
  }

  lemma {:induction false} InsertRun(s: Shop, key: string, items: seq<Item>, now: nat,
      k: nat) returns (acts: seq<Action>)
    requires Orderable(s.products, s.buyer, items) && k <= |items|
    requires Enabled(s, Begin(0, key, items, now)) && s.open == map[]
    ensures Valid(s, acts)
    ensures Run(s, acts) == During(s, InsertedTx(s, key, items, now, k)).(nextOrderId := s.nextOrderId + 1)
    decreases k
  {
    var tx' := InsertedTx(s, key, items, now, k);
    if k == 0 {
      acts := QuoteRun(s, key, items, now, |items|);
      var tx := QuotedTx(s, key, items, now, |items|);
      assert tx.quoted == PricesAt(s.products, items);
      Extend(s, acts, InsertOrder(0));
      acts := acts + [InsertOrder(0)];
      assert map[0 := tx][0 := tx'] == map[0 := tx'];
    } else {
      acts := InsertRun(s, key, items, now, k - 1);
      var tx := InsertedTx(s, key, items, now, k - 1);
      assert Sellable(s.products, items[k - 1]);
      assert tx'.rows == tx.rows + [RowsAt(s.products, items)[k - 1]];
      Extend(s, acts, InsertItem(0));
      acts := acts + [InsertItem(0)];
      assert map[0 := tx][0 := tx'] == map[0 := tx'];
    }
  }

  /** The tables after a new order commits: one order, one outbox row, one key and one response more. */
  function Ordered(s: Shop, key: string, items: seq<Item>, now: nat, occurredAt: string): Shop
    requires s.buyer.Some? && Known(s.products, items)
  {
    var prices := PricesAt(s.products, items);
    var total := Dot(items, prices);
    var o, x := s.nextOrderId, s.nextOutboxId;
    s.(orders := s.orders[o := Order(s.buyer.value, Created, total, RowsAt(s.products, items), key, prices, x)],
       keys := s.keys[key := Some(o)],
       outbox := s.outbox[x := OutboxRow(now, EventFor(o, s.buyer.value, items, total, occurredAt), false, 0)],
       nextOrderId := o + 1, nextOutboxId := x + 1,
       replies := s.replies + [Reply(key, o, items, total)])
  }

  lemma NextEventIdIsFree(s: Shop)
    requires TablesInv(s) && Sequences(s)
    ensures forall x | x in s.outbox :: IdOf(s.outbox[x].payload) != EventIdOf(s.nextOrderId)
  {
    forall x | x in s.outbox ensures IdOf(s.outbox[x].payload) != EventIdOf(s.nextOrderId) {
      RowAnnouncesItsOrder(s, x);
      if IdOf(s.outbox[x].payload) == EventIdOf(s.nextOrderId) {
        EventIdInjective(s.outbox[x].payload.orderId, s.nextOrderId);
      }
    }
  }

  ghost function EnqueuedTx(s: Shop, key: string, items: seq<Item>, now: nat, occurredAt: string): CreateTx
    requires Orderable(s.products, s.buyer, items)
  {
    var tx := InsertedTx(s, key, items, now, |items|);
    tx.(phase := Enqueued, outboxId := s.nextOutboxId,
        event := EventFor(tx.orderId, tx.user, tx.items, tx.total, occurredAt))
  }

  lemma EnqueueGoesOn(s: Shop, key: string, items: seq<Item>, now: nat, occurredAt: string)
    requires TablesInv(s) && Sequences(s) && Orderable(s.products, s.buyer, items) && occurredAt != ""
    ensures var t := During(s, InsertedTx(s, key, items, now, |items|)).(nextOrderId := s.nextOrderId + 1);
            && Enabled(t, InsertOutbox(0, occurredAt))
            && Apply(t, InsertOutbox(0, occurredAt)) ==
               During(s, EnqueuedTx(s, key, items, now, occurredAt))
               .(nextOrderId := s.nextOrderId + 1, nextOutboxId := s.nextOutboxId + 1)
  {
    var tx, tx' := InsertedTx(s, key, items, now, |items|), EnqueuedTx(s, key, items, now, occurredAt);
    NextEventIdIsFree(s);
    assert map[0 := tx][0 := tx'] == map[0 := tx'];
  }

  lemma EnqueueRun(s: Shop, key: string, items: seq<Item>, now: nat, occurredAt: string) returns (acts: seq<Action>)
    requires TablesInv(s) && Sequences(s) && s.open == map[] && Orderable(s.products, s.buyer, items)
    requires Enabled(s, Begin(0, key, items, now)) && occurredAt != ""
    ensures Valid(s, acts)
    ensures Run(s, acts) == During(s, EnqueuedTx(s, key, items, now, occurredAt))
                            .(nextOrderId := s.nextOrderId + 1, nextOutboxId := s.nextOutboxId + 1)
  {
    acts := InsertRun(s, key, items, now, |items|);
    EnqueueGoesOn(s, key, items, now, occurredAt);
    Extend(s, acts, InsertOutbox(0, occurredAt));
    acts := acts + [InsertOutbox(0, occurredAt)];
  }

  lemma CreateRun(s: Shop, key: string, items: seq<Item>, now: nat, occurredAt: string) returns (acts: seq<Action>)
    requires Inv(s) && s.open == map[] && Orderable(s.products, s.buyer, items) && occurredAt != ""
    requires Admissible(key, items) && key !in s.keys
    ensures Valid(s, acts) && Run(s, acts) == Ordered(s, key, items, now, occurredAt)
  {
    acts := EnqueueRun(s, key, items, now, occurredAt);
    Extend(s, acts, BindKey(0));
    acts := acts + [BindKey(0)];
    Extend(s, acts, Commit(0));
    acts := acts + [Commit(0)];
    assert EnqueuedTx(s, key, items, now, occurredAt).rows == RowsAt(s.products, items);
    assert Run(s, acts).open == map[];
  }

  function StoredReply(s: Shop, key: string): Reply
    requires key in s.keys && s.keys[key].Some? && s.keys[key].value in s.orders
  {
    var o := s.keys[key].value;
    Reply(key, o, ItemsOf(s.orders[o].rows), s.orders[o].total)
  }

  /** The statements of an undisturbed replay, and what they leave behind: one response more. */
  lemma ReplayRun(s: Shop, key: string) returns (acts: seq<Action>)
    requires TablesInv(s) && s.replays == map[] && key in s.keys
    ensures key in s.keys && s.keys[key].Some? && s.keys[key].value in s.orders
    ensures Valid(s, acts) && Run(s, acts) == s.(replies := s.replies + [StoredReply(s, key)])
  {
    assert KeyOk(s, key);
    var o := s.keys[key].value;
    acts := [];
    Extend(s, acts, Replay(0, Conflict(key)));
    acts := acts + [Replay(0, Conflict(key))];
    Extend(s, acts, Replay(0, LockKey));
    acts := acts + [Replay(0, LockKey)];
    assert Run(s, acts).replays[0] == ReplayTx(key, KeyLocked(o));
    Extend(s, acts, Replay(0, ReadOrder));
    acts := acts + [Replay(0, ReadOrder)];
    Extend(s, acts, Replay(0, ReadItems));
    acts := acts + [Replay(0, ReadItems)];
    Extend(s, acts, Replay(0, Finish));
    acts := acts + [Replay(0, Finish)];
    assert Run(s, acts).replays == map[];
  }

  // ---- The method ----

  class OrdersService {
    var products: map<int, Product>
    var buyer: Option<nat>
    var orders: map<nat, Order>
    var keys: map<string, Option<nat>>
    var outbox: map<nat, OutboxRow>
    var nextOrderId: nat
    var nextOutboxId: nat
    ghost var replies: seq<Reply>

    /** The database between two calls: no transaction is open. */
    ghost function Snapshot(): Shop
      reads this
    {
      Shop(products, buyer, orders, keys, outbox, nextOrderId, nextOutboxId, map[], map[], replies)
    }

    /** The totals loop: the order's total, or the first item that cannot be sold. */
    method TotalAmount(items: seq<Item>) returns (total: int, failed: Option<CreateError>)
      ensures failed.None? <==> forall i | 0 <= i < |items| :: Sellable(products, items[i])
      ensures failed.None? ==> total == Dot(items, PricesAt(products, items))
      ensures failed.Some? ==> exists i: nat :: StopsAt(products, items, i) && failed == Some(ItemError(items[i]))
    {
      total := 0;
      failed := None;
      for i := 0 to |items|
        invariant forall j | 0 <= j < i :: Sellable(products, items[j])
        invariant total == Dot(items, PricesAt(products, items[..i]))
      {
        if !ValidItem(items[i]) {
          assert StopsAt(products, items, i);
          return total, Some(InvalidItem);
        }
        if !Sellable(products, items[i]) {
          assert StopsAt(products, items, i);
          return total, Some(UnknownProduct);
        }
        total := total + products[items[i].productId].price * items[i].quantity;
        assert PricesAt(products, items[..i + 1])[..i] == PricesAt(products, items[..i]);
      }
      assert items[..|items|] == items;
    }

    /** The insert loop: the order_items rows, each with the price as read now. */
    method InsertItems(items: seq<Item>) returns (rows: seq<ItemRow>)
      requires Known(products, items)
      ensures rows == RowsAt(products, items)
    {
      rows := [];
      for i := 0 to |items|
        invariant rows == RowsAt(products, items)[..i]
      {
        rows := rows + [ItemRow(items[i].productId, items[i].quantity, products[items[i].productId].price)];
      }
    }

    /** The path of a key that already committed: the stored order is the response, whatever the body was. */
    method ReplayStored(key: string) returns (reply: Reply, ghost acts: seq<Action>)
      requires Inv(Snapshot()) && key in keys
      modifies `replies
      ensures Inv(Snapshot())
      ensures Valid(old(Snapshot()), acts) && Run(old(Snapshot()), acts) == Snapshot()
      ensures reply.key == key && Answers(Snapshot(), reply)
      ensures Snapshot() == old(Snapshot()).(replies := old(replies) + [reply])
    {
      ghost var before := Snapshot();
      acts := ReplayRun(before, key);
      InvRun(before, acts);
      var o := keys[key].value;
      reply := Reply(key, o, ItemsOf(orders[o].rows), orders[o].total);
      replies := replies + [reply];
    }

    /** Everything from the order row to COMMIT, once the total is known. */
    method InsertAndCommit(items: seq<Item>, key: string, total: int, now: nat,
        occurredAt: string) returns (reply: Reply)
      requires buyer.Some? && Known(products, items) && total == Dot(items, PricesAt(products, items))
      modifies this
      ensures Snapshot() == Ordered(old(Snapshot()), key, items, now, occurredAt)
      ensures reply == Reply(key, old(nextOrderId), items, total)
    {
      var orderId := nextOrderId;
      nextOrderId := nextOrderId + 1;
      var rows := InsertItems(items);
      var outboxId := nextOutboxId;
      nextOutboxId := nextOutboxId + 1;
      orders := orders[orderId := Order(buyer.value, Created, total, rows, key, PricesAt(products, items), outboxId)];
      outbox := outbox[outboxId := OutboxRow(now, EventFor(orderId, buyer.value, items, total, occurredAt), false, 0)];
      keys := keys[key := Some(orderId)];
      reply := Reply(key, orderId, items, total);
      replies := replies + [reply];
    }

    method Create(items: seq<Item>, key: string, now: nat, occurredAt: string)
      returns (r: CreateResult, ghost acts: seq<Action>)
      requires Inv(Snapshot()) && occurredAt != ""
      modifies this
      ensures Inv(Snapshot())
      ensures Valid(old(Snapshot()), acts) && Run(old(Snapshot()), acts) == Snapshot()
      ensures r.Placed? <==>
              && items != [] && |key| <= 200
              && (exists i :: 0 <= i < |key| && key[i] != ' ' && !('\t' <= key[i] <= '\r'))
              && (key in old(keys) ||
                  (&& old(buyer).Some?
                   && (forall i | 0 <= i < |items| ::
                         && items[i].productId > 0 && items[i].quantity > 0
                         && items[i].productId in old(products) && old(products)[items[i].productId].active)
                   && Dot(items, PricesAt(old(products), items)) <= 0x7fff_ffff))
      ensures r.Refused? ==> Snapshot() == old(Snapshot()) && RefusedFor(old(products), old(buyer), items, key, r.error)
      ensures r.Placed? && key in old(keys) ==>
              && r.reply.key == key && Answers(Snapshot(), r.reply)
              && Snapshot() == old(Snapshot()).(replies := old(replies) + [r.reply])
      ensures r.Placed? && key !in old(keys) ==>
              && Snapshot() == Ordered(old(Snapshot()), key, items, now, occurredAt)
              && r.reply == Reply(key, old(nextOrderId), items, Dot(items, PricesAt(old(products), items)))
    {
      acts := [];
      if |items| == 0 {
        return Refused(EmptyOrder), acts;
      }
      if Blank(key) || |key| > MAX_KEY_LENGTH {
        return Refused(UnusableKey), acts;
      }
      var reply: Reply;
      if key in keys {
        reply, acts := ReplayStored(key);
        return Placed(reply), acts;
      }
      if buyer.None? {
        return Refused(NoBuyer), acts;
      }
      var total, failed := TotalAmount(items);
      if failed.Some? {
        return Refused(failed.value), acts;
      }
      if total > INT4_MAX {
        return Refused(OutOfRange), acts;
      }
      acts := CreateRun(Snapshot(), key, items, now, occurredAt);
      InvRun(Snapshot(), acts);
      reply := InsertAndCommit(items, key, total, now, occurredAt);
      return Placed(reply), acts;
    }

    /** An order's status changes only through this; an unknown order is refused and nothing is emitted. */
    method UpdateStatus(orderId: nat, status: Status) returns (updated: bool)
      requires Inv(Snapshot())
      modifies `orders
      ensures updated <==> orderId in old(orders)
      ensures updated ==> Snapshot() == Apply(old(Snapshot()), SetStatus(orderId, status)) && Inv(Snapshot())
      ensures !updated ==> orders == old(orders)
    {
      updated := orderId in orders;
      if updated {
        InvStep(Snapshot(), SetStatus(orderId, status));
        orders := orders[orderId := orders[orderId].(status := status)];
      }
    }
  }
}
