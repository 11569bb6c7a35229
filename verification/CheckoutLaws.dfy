/** What a checkout of n pieces does to each table, in figures, and what it is refused for. */
module CheckoutLaws {
  import opened Options
  import opened Checkout
  import Decimals

  /** Which answer an indivisible checkout gives. */
  lemma CheckoutAnswers(db: Db, input: Input, id: nat)
    ensures var r, n := AtomicCheckout(db, input, id).0, if input.quantity.Whole? then input.quantity.n else 0;
            && (r == Err(InvalidQuantity) <==> n <= 0)
            && (r == Err(InsufficientStock) <==>
                  0 < n <= 2147483647 && (input.product !in db.products || db.products[input.product].stock < n))
            && (r == Err(InsufficientBalance) <==>
                  && 0 < n <= 2147483647 && input.product in db.products && db.products[input.product].stock >= n
                  && db.products[input.product].price * n <= 2147483647
                  && (input.user !in db.balances || db.balances[input.user] < db.products[input.product].price * n))
            && (r.Ok? <==>
                  && 0 < n <= 2147483647 && input.product in db.products && db.products[input.product].stock >= n
                  && db.products[input.product].price * n <= 2147483647
                  && input.user in db.balances && db.balances[input.user] >= db.products[input.product].price * n)
            && (r.Err? ==> AtomicCheckout(db, input, id).1 == db)
  {
  }

  /** One order of n pieces, told by the tables before and after: the stock is lower by n, the balance by n times the
      price, and there is one order, item and task more that say so. */
  ghost predicate Bought(db: Db, db': Db, input: Input, id: nat) {
    && input.quantity.Whole? && input.quantity.n > 0
    && input.product in db.products && input.user in db.balances
    && var n, price := input.quantity.n, db.products[input.product].price;
    && db.products[input.product].stock >= n && db.balances[input.user] >= price * n
    && db'.products == db.products[input.product := Product(price, db.products[input.product].stock - n)]
    && db'.balances == db.balances[input.user := db.balances[input.user] - price * n]
    && db'.orders == db.orders[id := Order(input.user, price * n)]
    && db'.items == db.items[id := Item(input.product, n, price)]
    && db'.tasks == db.tasks + {id}
  }

  /** Every commit of every run buys exactly the quantity asked for, at the price of that moment. */
  lemma EveryCommitBuys(init: State, acts: seq<Action>, c: nat)
    requires Init(init) && Valid(init, acts) && Enabled(Run(init, acts), Commit(c))
    ensures var s := Run(init, acts); var s' := Apply(s, Commit(c));
            var tx, id := s.txs[c], s.txs[c].order.value;
            && id !in s.db.orders && Bought(s.db, s'.db, tx.input, id)
            && s'.txs[c].phase ==
               Committed(Result(id, s.db.products[tx.input.product].price * tx.input.quantity.n,
                                s.db.products[tx.input.product].stock - tx.input.quantity.n))
  {
    InitInv(init);
    InvRun(init, acts);
    assert TxOk(Run(init, acts), c);
  }

  /** And what it publishes says the same - the caller is told of the order only if the broker has confirmed: the
      event names the order, its buyer, the product, the quantity asked for, and the total that is the item's price
      times it. */
  lemma EveryEventTellsTheOrder(init: State, acts: seq<Action>, c: nat, confirmed: bool)
    requires Init(init) && Valid(init, acts) && Enabled(Run(init, acts), Publish(c, confirmed))
    ensures var s := Run(init, acts); var s' := Apply(s, Publish(c, confirmed));
            && s'.txs[c].phase == Done(if confirmed then Ok(s.txs[c].phase.result) else Err(Failure))
            && |s'.published| == |s.published| + 1 && s'.published[..|s.published|] == s.published
            && var e, input := s'.published[|s.published|], s.txs[c].input;
            && e.eventId == "order.placed:" + Decimals.Decimal(e.order)
            && e.user == input.user && e.product == input.product
            && input.quantity == Whole(e.quantity) && e.quantity > 0
            && e.order in s.db.orders && s.db.orders[e.order] == Order(input.user, e.total)
            && e.order in s.db.items && s.db.items[e.order].product == input.product
            && s.db.items[e.order].quantity == e.quantity
            && e.total == s.db.items[e.order].unitPrice * e.quantity
  {
    InitInv(init);
    InvRun(init, acts);
    assert TxOk(Run(init, acts), c);
  }
}
