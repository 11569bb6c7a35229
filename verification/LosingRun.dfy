/** How an order is lost: a relay that publishes while the exchange exists but the work queue is not yet bound to it. */
module LosingRun {
  import opened Options
  import opened Messages
  import opened Pipeline
  import opened PipelineInvariant
  import opened PipelineTheorems
  import Batches
  import Orders
  import OrdersServices
  import Relay

  lemma ReachableOn(s: State, acts: seq<Action>)
    requires Reachable(s) && Valid(s, acts)
    ensures Reachable(Run(s, acts))
  {
    var init, past :| Init(init) && Valid(init, past) && s == Run(init, past);
    Batches.RunConcat(init, past, acts);
  }

  lemma PublishedUnboundIsLost(s: State, o: nat)
    requires Reachable(s) && !s.bound && o in s.shop.orders && s.shop.orders[o].outboxId in s.shop.outbox
    requires s.shop.outbox[s.shop.orders[o].outboxId].published
    ensures !Safe(s, o)
  {
    var init, past :| Init(init) && Valid(init, past) && s == Run(init, past);
    UnboundQueueLosesPublishedEvents(init, past, o);
  }

  lemma BindingComesTooLate(s: State, o: nat)
    requires Reachable(s) && s.declared && o in s.shop.orders && s.shop.orders[o].outboxId in s.shop.outbox &&
             !Safe(s, o)
    ensures Enabled(s, BindQueue) && Reachable(s.(bound := true)) && !Safe(s.(bound := true), o)
  {
    assert CopiesOf(s.(bound := true), s.shop.orders[o].outboxId) == CopiesOf(s, s.shop.orders[o].outboxId);
    assert Apply(s, BindQueue) == s.(bound := true);
    Relay.Extend(s, [], BindQueue);
    ReachableOn(s, [] + [BindQueue]);
  }

  lemma BatchPublishes(s: State, rows: seq<nat>, x: nat)
    requires (forall i | 0 <= i < |rows| :: rows[i] in s.shop.outbox) && x in rows
    ensures var t := Relay.AfterBatch(s, rows);
            x in t.shop.outbox && t.shop.outbox[x].published && t.shop.orders == s.shop.orders
            && t.declared == s.declared && t.bound == s.bound
  {
  }

  /** From any reachable state with the exchange declared and no queue bound: an undisturbed batch loses every order
      whose row it takes, and binding the queue afterwards does not bring it back. */
  lemma UnboundBatchLoses(s: State, r: nat, limit: nat, rows: seq<nat>, o: nat) returns (acts: seq<Action>)
    requires Reachable(s) && s.declared && !s.bound && Enabled(s, RelayClaim(r, limit, rows))
    requires o in s.shop.orders && s.shop.orders[o].outboxId in rows
    ensures Valid(s, acts) && Enabled(Run(s, acts), BindQueue)
    ensures var end := Run(s, acts).(bound := true);
            Reachable(end) && o in end.shop.orders && end.shop.orders[o].outboxId in end.shop.outbox &&
            end.shop.outbox[end.shop.orders[o].outboxId].published && !Safe(end, o)
  {
    acts := Relay.BatchRun(s, r, limit, rows);
    ReachableOn(s, acts);
    BatchPublishes(s, rows, s.shop.orders[o].outboxId);
    PublishedUnboundIsLost(Run(s, acts), o);
    BindingComesTooLate(Run(s, acts), o);
  }

  // ---- A concrete one ----

  function ShopSteps(acts: seq<Orders.Action>): seq<Action> {
    if acts == [] then [] else [ShopStep(acts[0])] + ShopSteps(acts[1..])
  }

  /** Statements of create are steps of the pipeline. */
  lemma {:induction false} ShopRun(s: State, acts: seq<Orders.Action>)
    requires Orders.Valid(s.shop, acts)
    ensures Valid(s, ShopSteps(acts)) && Run(s, ShopSteps(acts)) == s.(shop := Orders.Run(s.shop, acts))
    decreases |acts|
  {
    if acts != [] {
      var s' := s.(shop := Orders.Apply(s.shop, acts[0]));
      ShopRun(s', acts[1..]);
      assert ShopSteps(acts)[0] == ShopStep(acts[0]) && ShopSteps(acts)[1..] == ShopSteps(acts[1..]);
      assert Apply(s, ShopStep(acts[0])) == s';
    }
  }

  const ITEMS := [Item(1, 2)]

  /** One buyer and one product; the exchange is declared, the queue not yet bound. */
  const START := State(Orders.EmptyShop(map[1 := Orders.Product(100, true)], Some(1)),
                       map[], map[], {}, map[], map[], 0, 0, true, false, map[], false, [])

  lemma OrderPlaced() returns (s: State)
    ensures Reachable(s) && s.declared && !s.bound && s.relays == map[]
    ensures 1 in s.shop.orders && s.shop.orders[1].outboxId == 1
    ensures s.shop.outbox.Keys == {1} && !s.shop.outbox[1].published
  {
    var shop := START.shop;
    Orders.InitInv(shop);
    var prices := OrdersServices.PricesAt(shop.products, ITEMS);
    assert prices[..0] == [] && Orders.Dot(ITEMS, prices) == 200;
    assert !Orders.IsSpace("k"[0]);
    var acts := OrdersServices.CreateRun(shop, "k", ITEMS, 0, "now");
    ShopRun(START, acts);
    assert Init(START);
    s := Run(START, ShopSteps(acts));
  }

  /** An order has committed, its event was confirmed and its row marked, the queue is bound - and the event is nowhere.
      */
  lemma ConfirmedAndLost() returns (s: State)
    ensures Reachable(s) && s.bound && 1 in s.shop.orders && s.shop.orders[1].outboxId in s.shop.outbox
    ensures s.shop.outbox[s.shop.orders[1].outboxId].published && !Safe(s, 1)
  {
    var t := OrderPlaced();
    assert Available(t, 1);
    assert IsBatch(t, 10, [1]);
    var acts := UnboundBatchLoses(t, 0, 10, [1], 1);
    s := Run(t, acts).(bound := true);
  }
}
