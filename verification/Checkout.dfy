/**
 * Two-row checkout, statement by statement: a conditional decrement of the product's stock, one of the buyer's
 * balance, the inserts, the commit and then the publish. Any number of checkouts interleave, wait for each other's
 * row locks, and may fail between any two statements. Rows a transaction has written stay private until it commits.
 */
module Checkout {
  import opened Options
  import opened Sums
  import Messages

  const INT4_MAX := 2147483647

  datatype Quantity = Whole(n: int) | Fractional
  datatype Input = Input(user: nat, product: nat, quantity: Quantity)

  datatype Product = Product(price: int, stock: int)
  datatype Order = Order(user: nat, total: int)
  datatype Item = Item(product: nat, quantity: int, unitPrice: int)

  /** The committed tables; a checkout's order has one item and one task, filed here under the order's id. */
  datatype Db = Db(products: map<nat, Product>, balances: map<nat, int>,
                   orders: map<nat, Order>, items: map<nat, Item>, tasks: set<nat>)

  datatype Error = InvalidQuantity | OutOfRange | InsufficientStock | InsufficientBalance | Failure
  datatype Result = Result(orderId: nat, total: int, remainingStock: int)
  datatype Outcome = Ok(result: Result) | Err(error: Error)

  datatype PlacedEvent = PlacedEvent(eventId: string, order: nat, user: nat, product: nat, quantity: int, total: int)

  // ---- What a checkout means ----

  function Units(input: Input): int {
    if input.quantity.Whole? then input.quantity.n else 0
  }

  predicate Orderable(input: Input) {
    input.quantity.Whole? && input.quantity.n > 0
  }

  /** The purchase as one indivisible step on the committed tables. */
  function AtomicCheckout(db: Db, input: Input, id: nat): (Outcome, Db) {
    if !Orderable(input) then (Err(InvalidQuantity), db)
    else
      var units := Units(input);
      if units > INT4_MAX then (Err(OutOfRange), db)
      else if input.product !in db.products ||
          db.products[input.product].stock < units then (Err(InsufficientStock), db)
      else
        var product := db.products[input.product];
        var total := product.price * units;
        if total > INT4_MAX then (Err(OutOfRange), db)
        else if input.user !in db.balances || db.balances[input.user] < total then (Err(InsufficientBalance), db)
        else
          (Ok(Result(id, total, product.stock - units)),
           Db(db.products[input.product := Product(product.price, product.stock - units)],
              db.balances[input.user := db.balances[input.user] - total],
              db.orders[id := Order(input.user, total)],
              db.items[id := Item(input.product, units, product.price)],
              db.tasks + {id}))
  }

  function CreateOrderPlacedEvent(input: Input, result: Result): PlacedEvent {
    PlacedEvent(Messages.EventIdOf(result.orderId), result.orderId, input.user, input.product, Units(input),
        result.total)
  }

  // ---- Interleaved checkouts ----

  datatype Phase =
    | Fresh
    | Begun
    | HasProduct
    | HasUser
    | OrderIn
    | ItemIn
    | TaskIn
    | Aborting(error: Error)
    | Committed(result: Result)
    | Done(outcome: Outcome)

  /** `row` and `balance` are the versions the transaction has written and holds the lock of; `order` its new id. */
  datatype Tx = Tx(input: Input, phase: Phase, row: Option<Product>, balance: Option<int>, order: Option<nat>)

  /** `used` holds the ids the order sequence has given out. */
  datatype State = State(db: Db, txs: map<nat, Tx>, used: set<nat>, published: seq<PlacedEvent>)

  datatype Action =
    | Begin(c: nat)
    | TakeProduct(c: nat)
    | TakeUser(c: nat)
    | InsertOrder(c: nat, id: nat)
    | InsertItem(c: nat)
    | InsertTask(c: nat)
    | Commit(c: nat)
    | Rollback(c: nat)
    | Publish(c: nat, confirmed: bool)
    | Fail(c: nat)
    | SetPrice(p: nat, price: int)

  predicate HoldsProduct(tx: Tx, p: nat) {
    tx.row.Some? && tx.input.product == p
  }

  predicate HoldsUser(tx: Tx, u: nat) {
    tx.balance.Some? && tx.input.user == u
  }

  /** price * quantity, as computed from the returned row. */
  function Price(tx: Tx): int {
    if tx.row.Some? then tx.row.value.price * Units(tx.input) else 0
  }

  /** c's next statement finds the committed row good enough but locked by d. A parameter that does not fit its column,
      or a committed row that falls short, makes the statement end without waiting. */
  predicate Waits(s: State, c: nat, d: nat) {
    c in s.txs && d in s.txs && c != d &&
        (WaitsForProduct(s.db, s.txs[c], s.txs[d]) || WaitsForUser(s.db, s.txs[c], s.txs[d]))
  }

  predicate WaitsForProduct(db: Db, waiter: Tx, holder: Tx) {
    && waiter.phase.Begun? && Units(waiter.input) <= INT4_MAX
    && waiter.input.product in db.products && db.products[waiter.input.product].stock >= Units(waiter.input)
    && HoldsProduct(holder, waiter.input.product)
  }

  predicate WaitsForUser(db: Db, waiter: Tx, holder: Tx) {
    && waiter.phase.HasProduct? && Price(waiter) <= INT4_MAX
    && waiter.input.user in db.balances && db.balances[waiter.input.user] >= Price(waiter)
    && HoldsUser(holder, waiter.input.user)
  }

  predicate InTransaction(tx: Tx) {
    match tx.phase
    case Fresh => false
    case Aborting(_) => false
    case Committed(_) => false
    case Done(_) => false
    case _ => true
  }

  predicate Enabled(s: State, a: Action) {
    match a
    case Begin(c) => c in s.txs && s.txs[c].phase.Fresh?
    case TakeProduct(c) => c in s.txs && s.txs[c].phase.Begun? && forall d | d in s.txs :: !Waits(s, c, d)
    case TakeUser(c) => c in s.txs && s.txs[c].phase.HasProduct? && forall d | d in s.txs :: !Waits(s, c, d)
    case InsertOrder(c, id) => c in s.txs && s.txs[c].phase.HasUser? && id !in s.used
    case InsertItem(c) => c in s.txs && s.txs[c].phase.OrderIn?
    case InsertTask(c) => c in s.txs && s.txs[c].phase.ItemIn?
    case Commit(c) =>
      c in s.txs && s.txs[c].phase.TaskIn? && s.txs[c].row.Some? && s.txs[c].balance.Some? && s.txs[c].order.Some?
    case Rollback(c) => c in s.txs && s.txs[c].phase.Aborting?
    case Publish(c, _) => c in s.txs && s.txs[c].phase.Committed?
    case Fail(c) => c in s.txs && (InTransaction(s.txs[c]) || s.txs[c].phase.Committed?)
    case SetPrice(p, price) =>
      p in s.db.products && 0 < price <= INT4_MAX && forall d | d in s.txs :: !HoldsProduct(s.txs[d], p)
  }

  function ProductTaken(db: Db, tx: Tx): Tx {
    var units := Units(tx.input);
    if units > INT4_MAX then tx.(phase := Aborting(OutOfRange))
    else if tx.input.product !in db.products || db.products[tx.input.product].stock < units
    then tx.(phase := Aborting(InsufficientStock))
    else
      var product := db.products[tx.input.product];
      tx.(phase := HasProduct, row := Some(Product(product.price, product.stock - units)))
  }

  function UserTaken(db: Db, tx: Tx): Tx {
    var total := Price(tx);
    if total > INT4_MAX then tx.(phase := Aborting(OutOfRange))
    else if tx.input.user !in db.balances || db.balances[tx.input.user] < total
    then tx.(phase := Aborting(InsufficientBalance))
    else tx.(phase := HasUser, balance := Some(db.balances[tx.input.user] - total))
  }

  function ResultOf(tx: Tx): Result
    requires tx.row.Some? && tx.order.Some?
  {
    Result(tx.order.value, Price(tx), tx.row.value.stock)
  }

  /** The transaction's private rows become the committed ones. */
  function Installed(db: Db, tx: Tx): Db
    requires tx.row.Some? && tx.balance.Some? && tx.order.Some?
  {
    Db(db.products[tx.input.product := tx.row.value],
       db.balances[tx.input.user := tx.balance.value],
       db.orders[tx.order.value := Order(tx.input.user, Price(tx))],
       db.items[tx.order.value := Item(tx.input.product, Units(tx.input), tx.row.value.price)],
       db.tasks + {tx.order.value})
  }

  function Ended(tx: Tx, phase: Phase): Tx {
    Tx(tx.input, phase, None, None, None)
  }

  function With(s: State, c: nat, tx: Tx): State {
    s.(txs := s.txs[c := tx])
  }

  function Apply(s: State, a: Action): State
    requires Enabled(s, a)
  {
    match a
    case Begin(c) =>
      With(s, c, s.txs[c].(phase := if Orderable(s.txs[c].input) then Begun else Done(Err(InvalidQuantity))))
    case TakeProduct(c) => With(s, c, ProductTaken(s.db, s.txs[c]))
    case TakeUser(c) => With(s, c, UserTaken(s.db, s.txs[c]))
    case InsertOrder(c, id) => With(s, c, s.txs[c].(phase := OrderIn, order := Some(id))).(used := s.used + {id})
    case InsertItem(c) => With(s, c, s.txs[c].(phase := ItemIn))
    case InsertTask(c) => With(s, c, s.txs[c].(phase := TaskIn))
    case Commit(c) =>
      With(s, c, Ended(s.txs[c], Committed(ResultOf(s.txs[c])))).(db := Installed(s.db, s.txs[c]))
    case Rollback(c) => With(s, c, Ended(s.txs[c], Done(Err(s.txs[c].phase.error))))
    case Publish(c, confirmed) =>
      var tx := s.txs[c];
      With(s, c, tx.(phase := Done(if confirmed then Ok(tx.phase.result) else Err(Failure))))
      .(published := s.published + [CreateOrderPlacedEvent(tx.input, tx.phase.result)])
    case Fail(c) =>
      With(s, c, s.txs[c].(phase := if s.txs[c].phase.Committed? then Done(Err(Failure)) else Aborting(Failure)))
    case SetPrice(p, price) =>
      s.(db := s.db.(products := s.db.products[p := s.db.products[p].(price := price)]))
  }

  ghost predicate Valid(s: State, acts: seq<Action>)
    decreases |acts|
  {
    acts == [] || (Enabled(s, acts[0]) && Valid(Apply(s, acts[0]), acts[1..]))
  }

  ghost function Run(s: State, acts: seq<Action>): State
    requires Valid(s, acts)
    decreases |acts|
  {
    if acts == [] then s else Run(Apply(s, acts[0]), acts[1..])
  }

  // ---- Invariant ----

  /** What the tables' checks demand, and the orders of earlier days agree with their items. */
  ghost predicate GoodDb(db: Db) {
    && (forall p | p in db.products :: 0 < db.products[p].price && 0 <= db.products[p].stock)
    && (forall u | u in db.balances :: 0 <= db.balances[u])
    && db.orders.Keys == db.items.Keys && db.tasks == db.orders.Keys
    && (forall o | o in db.orders :: db.orders[o].total == db.items[o].unitPrice * db.items[o].quantity)
  }

  ghost predicate Init(s: State) {
    && GoodDb(s.db) && s.published == [] && s.db.orders.Keys <= s.used
    && forall c | c in s.txs :: s.txs[c] == Ended(s.txs[c], Fresh)
  }

  predicate Open(tx: Tx) {
    InTransaction(tx) || tx.phase.Aborting?
  }

  /** The rows held are the committed ones less this checkout's own purchase. */
  ghost predicate RowsHeld(db: Db, tx: Tx) {
    && (tx.row.Some? ==>
          && tx.input.product in db.products && 0 <= tx.row.value.stock && Units(tx.input) <= INT4_MAX
          && tx.row.value == Product(db.products[tx.input.product].price,
              db.products[tx.input.product].stock - Units(tx.input)))
    && (tx.balance.Some? ==>
          && tx.row.Some? && tx.input.user in db.balances && 0 <= tx.balance.value && Price(tx) <= INT4_MAX
          && tx.balance.value == db.balances[tx.input.user] - Price(tx))
  }

  predicate PhaseFits(tx: Tx) {
    match tx.phase
    case Begun => tx.row.None? && tx.balance.None? && tx.order.None?
    case HasProduct => tx.row.Some? && tx.balance.None? && tx.order.None?
    case HasUser => tx.row.Some? && tx.balance.Some? && tx.order.None?
    case OrderIn => tx.row.Some? && tx.balance.Some? && tx.order.Some?
    case ItemIn => tx.row.Some? && tx.balance.Some? && tx.order.Some?
    case TaskIn => tx.row.Some? && tx.balance.Some? && tx.order.Some?
    case Aborting(_) => true
    case _ => tx.row.None? && tx.balance.None? && tx.order.None?
  }

  ghost predicate Recorded(db: Db, input: Input, result: Result) {
    && result.orderId in db.orders && result.orderId in db.items
    && db.orders[result.orderId] == Order(input.user, result.total)
    && db.items[result.orderId].product == input.product && db.items[result.orderId].quantity == Units(input)
  }

  ghost predicate TxOk(s: State, c: nat)
    requires c in s.txs
  {
    var tx := s.txs[c];
    && PhaseFits(tx)
    && (Open(tx) || tx.phase.Committed? ==> Orderable(tx.input))
    && RowsHeld(s.db, tx)
    && (tx.order.Some? ==> tx.order.value in s.used && tx.order.value !in s.db.orders)
    && (tx.phase.Committed? ==> Recorded(s.db, tx.input, tx.phase.result))
    && (tx.phase.Done? && tx.phase.outcome.Ok? ==> Recorded(s.db, tx.input, tx.phase.outcome.result))
  }

  predicate Apart(a: Tx, b: Tx) {
    && (a.row.Some? && b.row.Some? ==> a.input.product != b.input.product)
    && (a.balance.Some? && b.balance.Some? ==> a.input.user != b.input.user)
    && (a.order.Some? && b.order.Some? ==> a.order != b.order)
  }

  ghost predicate PublishedOk(db: Db, e: PlacedEvent) {
    && e.order in db.orders && e.order in db.items && e.eventId == Messages.EventIdOf(e.order)
    && db.orders[e.order] == Order(e.user, e.total)
    && db.items[e.order].product == e.product && db.items[e.order].quantity == e.quantity
  }

  ghost predicate Inv(s: State) {
    && GoodDb(s.db) && s.db.orders.Keys <= s.used
    && (forall c {:trigger TxOk(s, c)} | c in s.txs :: TxOk(s, c))
    && (forall c, d {:trigger Apart(s.txs[c], s.txs[d])} | c in s.txs && d in s.txs &&
        c != d :: Apart(s.txs[c], s.txs[d]))
    && (forall e {:trigger PublishedOk(s.db, e)} | e in s.published :: PublishedOk(s.db, e))
  }

  lemma InitInv(s: State)
    requires Init(s)
    ensures Inv(s)
  {
    forall c | c in s.txs ensures TxOk(s, c) {
      assert s.txs[c] == Ended(s.txs[c], Fresh);
    }
  }

  /** A step that leaves the tables alone and gives c no lock or id that another holds. */
  lemma OwnStep(s: State, c: nat, tx: Tx, used: set<nat>)
    requires Inv(s) && c in s.txs && s.used <= used
    requires TxOk(With(s, c, tx).(used := used), c)
    requires forall d | d in s.txs && d != c :: Apart(s.txs[d], tx)
    ensures Inv(With(s, c, tx).(used := used))
  {
    var s' := With(s, c, tx).(used := used);
    forall d | d in s'.txs ensures TxOk(s', d) {
      assert TxOk(s, d);
    }
    forall d, e | d in s'.txs && e in s'.txs && d != e ensures Apart(s'.txs[d], s'.txs[e]) {
      assert Apart(s.txs[d], s.txs[e]);
    }
    forall e | e in s'.published ensures PublishedOk(s'.db, e) {
      assert PublishedOk(s.db, e);
    }
  }

  lemma TakeStep(s: State, a: Action)
    requires Inv(s) && Enabled(s, a) && (a.TakeProduct? || a.TakeUser?)
    ensures Inv(Apply(s, a))
  {
    var tx := Apply(s, a).txs[a.c];
    assert TxOk(s, a.c);
    forall d | d in s.txs && d != a.c ensures Apart(s.txs[d], tx) {
      assert Apart(s.txs[d], s.txs[a.c]);
      assert !Waits(s, a.c, d);
    }
    OwnStep(s, a.c, tx, s.used);
  }

  lemma InsertStep(s: State, a: Action)
    requires Inv(s) && Enabled(s, a) && (a.InsertOrder? || a.InsertItem? || a.InsertTask?)
    ensures Inv(Apply(s, a))
  {
    var s' := Apply(s, a);
    assert TxOk(s, a.c);
    forall d | d in s.txs && d != a.c ensures Apart(s.txs[d], s'.txs[a.c]) {
      assert Apart(s.txs[d], s.txs[a.c]) && TxOk(s, d);
    }
    OwnStep(s, a.c, s'.txs[a.c], s'.used);
  }

  lemma EndStep(s: State, a: Action)
    requires Inv(s) && Enabled(s, a) && (a.Begin? || a.Rollback? || a.Fail?)
    ensures Inv(Apply(s, a))
  {
    var s' := Apply(s, a);
    assert TxOk(s, a.c);
    forall d | d in s.txs && d != a.c ensures Apart(s.txs[d], s'.txs[a.c]) {
      assert Apart(s.txs[d], s.txs[a.c]);
    }
    OwnStep(s, a.c, s'.txs[a.c], s.used);
  }

  lemma PublishStep(s: State, a: Action)
    requires Inv(s) && Enabled(s, a) && a.Publish?
    ensures Inv(Apply(s, a))
  {
    var s' := Apply(s, a);
    assert TxOk(s, a.c);
    forall d | d in s.txs && d != a.c ensures Apart(s.txs[d], s'.txs[a.c]) {
      assert Apart(s.txs[d], s.txs[a.c]);
    }
    OwnStep(s, a.c, s'.txs[a.c], s.used);
    var t := With(s, a.c, s'.txs[a.c]).(used := s.used);
    forall d | d in s'.txs ensures TxOk(s', d) {
      assert TxOk(t, d);
    }
    forall e | e in s'.published ensures PublishedOk(s'.db, e) {
      assert e in s.published ==> PublishedOk(s.db, e);
    }
  }

  /** Committing is an atomic checkout of the same request on the tables as they are at that moment. */
  lemma CommitIsAtomicCheckout(s: State, c: nat)
    requires Inv(s) && Enabled(s, Commit(c))
    ensures AtomicCheckout(s.db, s.txs[c].input, s.txs[c].order.value) ==
            (Ok(Apply(s, Commit(c)).txs[c].phase.result), Apply(s, Commit(c)).db)
  {
    assert TxOk(s, c);
  }

  lemma CommitKeepsTx(s: State, c: nat, d: nat)
    requires Inv(s) && Enabled(s, Commit(c)) && d in s.txs
    ensures TxOk(Apply(s, Commit(c)), d)
  {
    assert TxOk(s, c) && TxOk(s, d);
    if d != c {
      assert Apart(s.txs[c], s.txs[d]);
    }
  }

  lemma AtomicKeepsGoodDb(db: Db, input: Input, id: nat)
    requires GoodDb(db)
    ensures GoodDb(AtomicCheckout(db, input, id).1)
  {
  }

  lemma CommitStep(s: State, c: nat)
    requires Inv(s) && Enabled(s, Commit(c))
    ensures Inv(Apply(s, Commit(c)))
  {
    var s' := Apply(s, Commit(c));
    assert TxOk(s, c);
    CommitIsAtomicCheckout(s, c);
    AtomicKeepsGoodDb(s.db, s.txs[c].input, s.txs[c].order.value);
    forall d | d in s'.txs ensures TxOk(s', d) {
      CommitKeepsTx(s, c, d);
    }
    forall d, e | d in s'.txs && e in s'.txs && d != e ensures Apart(s'.txs[d], s'.txs[e]) {
      assert Apart(s.txs[d], s.txs[e]);
    }
    forall e | e in s'.published ensures PublishedOk(s'.db, e) {
      assert PublishedOk(s.db, e);
    }
  }

  lemma RepriceStep(s: State, a: Action)
    requires Inv(s) && Enabled(s, a) && a.SetPrice?
    ensures Inv(Apply(s, a))
  {
    var s' := Apply(s, a);
    forall d | d in s'.txs ensures TxOk(s', d) {
      assert TxOk(s, d);
    }
    forall e | e in s'.published ensures PublishedOk(s'.db, e) {
      assert PublishedOk(s.db, e);
    }
    forall d, e | d in s'.txs && e in s'.txs && d != e ensures Apart(s'.txs[d], s'.txs[e]) {
      assert Apart(s.txs[d], s.txs[e]);
    }
  }

  lemma InvStep(s: State, a: Action)
    requires Inv(s) && Enabled(s, a)
    ensures Inv(Apply(s, a))
  {
    if a.TakeProduct? || a.TakeUser? {
      TakeStep(s, a);
    } else if a.InsertOrder? || a.InsertItem? || a.InsertTask? {
      InsertStep(s, a);
    } else if a.Publish? {
      PublishStep(s, a);
    } else if a.Commit? {
      CommitStep(s, a.c);
    } else if a.SetPrice? {
      RepriceStep(s, a);
    } else {
      EndStep(s, a);
    }
  }

  lemma {:induction false} InvRun(s: State, acts: seq<Action>)
    requires Inv(s) && Valid(s, acts)
    ensures Inv(Run(s, acts))
    decreases |acts|
  {
    if acts != [] {
      InvStep(s, acts[0]);
      InvRun(Apply(s, acts[0]), acts[1..]);
    }
  }
}
