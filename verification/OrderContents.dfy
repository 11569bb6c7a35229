/**
 * What a stored order says, field by field: it is the request of its key, made out to the buyer, with rows for exactly
 * the items asked for; and its sums are plain sums.
 */
module OrderContents {
  import opened Options
  import opened Messages
  import opened Orders

  // ---- Every order was requested ----

  ghost predicate Requested(done: seq<Action>, key: string, items: seq<Item>) {
    exists i :: 0 <= i < |done| && done[i].Begin? && done[i].key == key && done[i].items == items
  }

  ghost predicate Asked(done: seq<Action>, order: Order) {
    exists i :: 0 <= i < |done| && done[i].Begin? && done[i].key == order.key && |done[i].items| == |order.rows| &&
                forall j | 0 <= j < |order.rows| ::
                  done[i].items[j].productId == order.rows[j].productId &&
                  done[i].items[j].quantity == order.rows[j].quantity
  }

  /** Not longer than its column, and not only of blanks. */
  predicate Usable(key: string) {
    |key| <= 200 && exists i :: 0 <= i < |key| && key[i] != ' ' && !('\t' <= key[i] <= '\r')
  }

  ghost predicate TxTraced(done: seq<Action>, buyer: Option<nat>, tx: CreateTx) {
    && Requested(done, tx.key, tx.items) && Usable(tx.key)
    && (!tx.phase.Reserved? ==> buyer == Some(tx.user))
  }

  ghost predicate OrderTraced(done: seq<Action>, buyer: Option<nat>, order: Order) {
    Asked(done, order) && Usable(order.key) && buyer == Some(order.userId)
  }

  ghost predicate Traced(s: Shop, done: seq<Action>) {
    && (forall t {:trigger TxTraced(done, s.buyer, s.open[t])} | t in s.open :: TxTraced(done, s.buyer, s.open[t]))
    && (forall o {:trigger OrderTraced(done, s.buyer, s.orders[o])} | o in s.orders ::
          OrderTraced(done, s.buyer, s.orders[o]))
  }

  lemma RequestedGrows(done: seq<Action>, a: Action, key: string, items: seq<Item>)
    requires Requested(done, key, items)
    ensures Requested(done + [a], key, items)
  {
    var i :| 0 <= i < |done| && done[i].Begin? && done[i].key == key && done[i].items == items;
    assert (done + [a])[i] == done[i];
  }

  lemma AskedGrows(done: seq<Action>, a: Action, order: Order)
    requires Asked(done, order)
    ensures Asked(done + [a], order)
  {
    var i :| 0 <= i < |done| && done[i].Begin? && done[i].key == order.key && |done[i].items| == |order.rows| &&
             forall j | 0 <= j < |order.rows| ::
               done[i].items[j].productId == order.rows[j].productId &&
               done[i].items[j].quantity == order.rows[j].quantity;
    assert (done + [a])[i] == done[i];
  }

  lemma RequestIsAsked(done: seq<Action>, tx: CreateTx, order: Order)
    requires Requested(done, tx.key, tx.items) && order.key == tx.key && ItemsOf(order.rows) == tx.items
    ensures Asked(done, order)
  {
    var i :| 0 <= i < |done| && done[i].Begin? && done[i].key == tx.key && done[i].items == tx.items;
    assert |done[i].items| == |ItemsOf(order.rows)|;
  }

  lemma TxStaysTraced(s: Shop, done: seq<Action>, a: Action, t: nat)
    requires Traced(s, done) && Enabled(s, a) && !a.Replay? && t in Apply(s, a).open
    ensures Apply(s, a).buyer == s.buyer && TxTraced(done + [a], s.buyer, Apply(s, a).open[t])
  {
    var tx := Apply(s, a).open[t];
    if t in s.open {
      assert TxTraced(done, s.buyer, s.open[t]);
      RequestedGrows(done, a, s.open[t].key, s.open[t].items);
    } else {
      assert (done + [a])[|done|] == a;
    }
  }

  lemma OrderStaysTraced(s: Shop, done: seq<Action>, a: Action, o: nat)
    requires OpenInv(s) && Traced(s, done) && Enabled(s, a) && !a.Replay? && o in Apply(s, a).orders
    ensures OrderTraced(done + [a], s.buyer, Apply(s, a).orders[o])
  {
    var order := Apply(s, a).orders[o];
    if a.Commit? && o == s.open[a.t].orderId {
      assert TxOk(s, a.t) && TxTraced(done, s.buyer, s.open[a.t]);
      RequestIsAsked(done, s.open[a.t], order);
      AskedGrows(done, a, order);
    } else {
      OrdersStandStill(s, a, o);
      assert OrderTraced(done, s.buyer, s.orders[o]);
      AskedGrows(done, a, s.orders[o]);
    }
  }

  lemma OrdersStandStill(s: Shop, a: Action, o: nat)
    requires Enabled(s, a) && !a.Replay? && o in Apply(s, a).orders && (a.Commit? ==> o != s.open[a.t].orderId)
    ensures o in s.orders && Apply(s, a).orders[o] == s.orders[o].(status := Apply(s, a).orders[o].status)
  {
  }

  lemma TracedStep(s: Shop, done: seq<Action>, a: Action)
    requires OpenInv(s) && Traced(s, done) && Enabled(s, a)
    ensures Traced(Apply(s, a), done + [a])
  {
    var s' := Apply(s, a);
    if a.Replay? {
      ReplayFrame(s, a.q, a.step);
      forall t | t in s'.open ensures TxTraced(done + [a], s'.buyer, s'.open[t]) {
        assert TxTraced(done, s.buyer, s.open[t]);
        RequestedGrows(done, a, s.open[t].key, s.open[t].items);
      }
      forall o | o in s'.orders ensures OrderTraced(done + [a], s'.buyer, s'.orders[o]) {
        assert OrderTraced(done, s.buyer, s.orders[o]);
        AskedGrows(done, a, s.orders[o]);
      }
    } else {
      BuyerStays(s, a);
      forall t | t in s'.open ensures TxTraced(done + [a], s'.buyer, s'.open[t]) {
        TxStaysTraced(s, done, a, t);
      }
      forall o | o in s'.orders ensures OrderTraced(done + [a], s'.buyer, s'.orders[o]) {
        OrderStaysTraced(s, done, a, o);
      }
    }
  }

  lemma BuyerStays(s: Shop, a: Action)
    requires Enabled(s, a)
    ensures Apply(s, a).buyer == s.buyer
  {
    if a.Replay? {
      ReplayFrame(s, a.q, a.step);
    }
  }

  lemma {:induction false} TracedRun(s: Shop, done: seq<Action>, acts: seq<Action>)
    requires Inv(s) && Traced(s, done) && Valid(s, acts)
    ensures Traced(Run(s, acts), done + acts) && Run(s, acts).buyer == s.buyer
    decreases |acts|
  {
    if acts == [] {
      assert done + acts == done;
    } else {
      InvStep(s, acts[0]);
      TracedStep(s, done, acts[0]);
      BuyerStays(s, acts[0]);
      TracedRun(Apply(s, acts[0]), done + [acts[0]], acts[1..]);
      assert done + [acts[0]] + acts[1..] == done + acts;
    }
  }

  /** Over any run: behind every stored order stands a request with its key whose items are the order's rows, one for
      one; the order is the buyer's, is not empty, and its key could be used. */
  lemma OrdersWereRequested(init: Shop, acts: seq<Action>, o: nat)
    requires Init(init) && Valid(init, acts) && o in Run(init, acts).orders
    ensures var order := Run(init, acts).orders[o];
            && init.buyer == Some(order.userId)
            && |order.rows| > 0 && |order.key| <= 200
            && (exists i :: 0 <= i < |order.key| && order.key[i] != ' ' && !('\t' <= order.key[i] <= '\r'))
            && exists i :: 0 <= i < |acts| && acts[i].Begin? && acts[i].key == order.key &&
                           |acts[i].items| == |order.rows| &&
                           forall j | 0 <= j < |order.rows| ::
                             acts[i].items[j].productId == order.rows[j].productId &&
                             acts[i].items[j].quantity == order.rows[j].quantity
  {
    InitInv(init);
    TracedRun(init, [], acts);
    assert [] + acts == acts;
    assert OrderTraced(acts, init.buyer, Run(init, acts).orders[o]);
    InvRun(init, acts);
    assert OrderOk(Run(init, acts), o);
  }

  // ---- What is not on sale is not sold ----

  ghost predicate NotQuoted(tx: CreateTx, p: int) {
    forall i | 0 <= i < |tx.quoted| && i < |tx.items| :: tx.items[i].productId != p
  }

  ghost predicate NotSold(order: Order, p: int) {
    forall i | 0 <= i < |order.rows| :: order.rows[i].productId != p
  }

  ghost predicate OffSale(s: Shop, p: int) {
    && (p in s.products ==> !s.products[p].active)
    && (forall t {:trigger NotQuoted(s.open[t], p)} | t in s.open :: NotQuoted(s.open[t], p))
    && (forall o {:trigger NotSold(s.orders[o], p)} | o in s.orders :: NotSold(s.orders[o], p))
  }

  lemma StaysUnquoted(s: Shop, a: Action, p: int, t: nat)
    requires OffSale(s, p) && Enabled(s, a) && !a.Replay? && t in Apply(s, a).open
    ensures NotQuoted(Apply(s, a).open[t], p)
  {
    if t in s.open {
      assert NotQuoted(s.open[t], p);
    }
  }

  lemma StaysUnsold(s: Shop, a: Action, p: int, o: nat)
    requires OpenInv(s) && OffSale(s, p) && Enabled(s, a) && !a.Replay? && o in Apply(s, a).orders
    ensures NotSold(Apply(s, a).orders[o], p)
  {
    if a.Commit? && o == s.open[a.t].orderId {
      var tx := s.open[a.t];
      assert TxOk(s, a.t) && NotQuoted(tx, p);
      forall i | 0 <= i < |tx.rows| ensures tx.rows[i].productId != p {
        assert ItemsOf(tx.rows)[i] == tx.items[i];
      }
    } else {
      OrdersStandStill(s, a, o);
      assert NotSold(s.orders[o], p);
    }
  }

  lemma OffSaleStep(s: Shop, a: Action, p: int)
    requires OpenInv(s) && OffSale(s, p) && Enabled(s, a)
    requires a.Reprice? && a.productId == p ==> !a.product.active
    ensures OffSale(Apply(s, a), p)
  {
    var s' := Apply(s, a);
    if a.Replay? {
      ReplayFrame(s, a.q, a.step);
      forall t | t in s'.open ensures NotQuoted(s'.open[t], p) {
        assert NotQuoted(s.open[t], p);
      }
      forall o | o in s'.orders ensures NotSold(s'.orders[o], p) {
        assert NotSold(s.orders[o], p);
      }
    } else {
      forall t | t in s'.open ensures NotQuoted(s'.open[t], p) {
        StaysUnquoted(s, a, p, t);
      }
      forall o | o in s'.orders ensures NotSold(s'.orders[o], p) {
        StaysUnsold(s, a, p, o);
      }
    }
  }

  lemma {:induction false} OffSaleRun(s: Shop, acts: seq<Action>, p: int)
    requires Inv(s) && OffSale(s, p) && Valid(s, acts)
    requires forall a | a in acts && a.Reprice? && a.productId == p :: !a.product.active
    ensures OffSale(Run(s, acts), p)
    decreases |acts|
  {
    if acts != [] {
      assert acts[0] in acts;
      InvStep(s, acts[0]);
      OffSaleStep(s, acts[0], p);
      OffSaleRun(Apply(s, acts[0]), acts[1..], p);
    }
  }

  /** A product that is never active is in no order. */
  lemma NeverActiveNeverOrdered(init: Shop, acts: seq<Action>, p: int, o: nat)
    requires Init(init) && Valid(init, acts) && (p in init.products ==> !init.products[p].active)
    requires forall a | a in acts && a.Reprice? && a.productId == p :: !a.product.active
    requires o in Run(init, acts).orders
    ensures forall i | 0 <= i < |Run(init, acts).orders[o].rows| :: Run(init, acts).orders[o].rows[i].productId != p
  {
    InitInv(init);
    OffSaleRun(init, acts, p);
    assert NotSold(Run(init, acts).orders[o], p);
  }

  /** A product that has been removed is neither quoted nor inserted until it is there again. */
  lemma RemovedIsNotSold(s: Shop, p: int, t: nat)
    requires Enabled(s, RemoveProduct(p)) && t in s.open
    ensures var s', tx := Apply(s, RemoveProduct(p)), s.open[t];
            && (|tx.quoted| < |tx.items| && tx.items[|tx.quoted|].productId == p ==> !Enabled(s', Quote(t)))
            && (|tx.rows| < |tx.items| && tx.items[|tx.rows|].productId == p ==> !Enabled(s', InsertItem(t)))
  {
  }

  // ---- Replays of one key take turns ----

  ghost predicate TakeTurns(a: ReplayTx, b: ReplayTx) {
    a.key == b.key ==> a.phase.Conflicted? || b.phase.Conflicted?
  }

  ghost predicate Turns(s: Shop) {
    forall p, q {:trigger TakeTurns(s.replays[p], s.replays[q])} | p in s.replays && q in s.replays && p != q ::
      TakeTurns(s.replays[p], s.replays[q])
  }

  lemma TurnsStep(s: Shop, a: Action)
    requires Turns(s) && Enabled(s, a)
    ensures Turns(Apply(s, a))
  {
    if a.Replay? {
      var s' := Apply(s, a);
      forall p, q | p in s'.replays && q in s'.replays && p != q ensures TakeTurns(s'.replays[p], s'.replays[q]) {
        assert p in s.replays && q in s.replays ==> TakeTurns(s.replays[p], s.replays[q]);
      }
    } else {
      ReplaysStandStill(s, a);
    }
  }

  lemma ReplaysStandStill(s: Shop, a: Action)
    requires Enabled(s, a) && !a.Replay?
    ensures Apply(s, a).replays == s.replays
  {
  }

  lemma {:induction false} TurnsRun(s: Shop, acts: seq<Action>)
    requires Turns(s) && Valid(s, acts)
    ensures Turns(Run(s, acts))
    decreases |acts|
  {
    if acts != [] {
      TurnsStep(s, acts[0]);
      TurnsRun(Apply(s, acts[0]), acts[1..]);
    }
  }

  /** FOR UPDATE holds the others back: of the replays of one key at most one has gone past its key row. */
  lemma ReplaysOfAKeyTakeTurns(s: Shop, p: nat, q: nat)
    requires Reachable(s) && p in s.replays && q in s.replays && s.replays[p].key == s.replays[q].key
    requires !s.replays[p].phase.Conflicted? && !s.replays[q].phase.Conflicted?
    ensures p == q
  {
    var init, acts :| Init(init) && Valid(init, acts) && s == Run(init, acts);
    TurnsRun(init, acts);
    assert p != q ==> TakeTurns(s.replays[p], s.replays[q]);
  }

  /** A replay that fails or dies after locking its key answers nothing and lets the next one of the key go on. */
  lemma GivenUpReplayFreesItsKey(s: Shop, q: nat, p: nat)
    requires Reachable(s) && q in s.replays && !s.replays[q].phase.Conflicted?
    requires p in s.replays && p != q && s.replays[p].key == s.replays[q].key
    ensures var s' := DoReplay(s, q, GiveUp);
            !CanReplay(s, p, LockKey) && CanReplay(s', p, LockKey) && s'.replies == s.replies
  {
    forall r | r in s.replays && r != q && s.replays[r].key == s.replays[q].key ensures s.replays[r].phase.Conflicted? {
      if !s.replays[r].phase.Conflicted? {
        ReplaysOfAKeyTakeTurns(s, r, q);
      }
    }
  }

  // ---- Sums ----

  /** The rows added up from the first on. */
  function PlainSum(rows: seq<ItemRow>): int {
    if rows == [] then 0 else rows[0].quantity * rows[0].unitPrice + PlainSum(rows[1..])
  }

  lemma {:induction false} PlainSumFromTheEnd(rows: seq<ItemRow>, last: ItemRow)
    ensures PlainSum(rows + [last]) == PlainSum(rows) + last.quantity * last.unitPrice
    decreases |rows|
  {
    if rows == [] {
      assert [last][1..] == [];
    } else {
      PlainSumFromTheEnd(rows[1..], last);
      assert (rows + [last])[1..] == rows[1..] + [last];
    }
  }

  /** The total a reader computes from the rows, from whichever end. */
  lemma {:induction false} ItemSumIsPlain(rows: seq<ItemRow>)
    ensures ItemSum(rows) == PlainSum(rows)
    decreases |rows|
  {
    if rows != [] {
      var n := |rows| - 1;
      ItemSumIsPlain(rows[..n]);
      PlainSumFromTheEnd(rows[..n], rows[n]);
      assert rows == rows[..n] + [rows[n]];
      assert UnitPrices(rows)[..n] == UnitPrices(rows[..n]);
      DotOfPrefix(ItemsOf(rows), ItemsOf(rows[..n]), UnitPrices(rows[..n]));
    }
  }

  lemma {:induction false} DotOfPrefix(items: seq<Item>, prefix: seq<Item>, prices: seq<int>)
    requires |prices| <= |prefix| <= |items| && forall i | 0 <= i < |prefix| :: prefix[i] == items[i]
    ensures Dot(items, prices) == Dot(prefix, prices)
    decreases |prices|
  {
    if prices != [] {
      DotOfPrefix(items, prefix, prices[..|prices| - 1]);
    }
  }
}
