/** What interleaved checkouts promise: serial equivalence, conservation, clean aborts, and freedom from deadlock. */
module CheckoutTheorems {
  import opened Options
  import opened Sums
  import opened Checkout
  import Messages

  // ---- Serial equivalence ----

  datatype SerialOp = Buy(input: Input, id: nat) | Reprice(p: nat, price: int)

  function SerialApply(db: Db, op: SerialOp): Db {
    match op
    case Buy(input, id) => AtomicCheckout(db, input, id).1
    case Reprice(p, price) =>
      if p in db.products then db.(products := db.products[p := db.products[p].(price := price)]) else db
  }

  function SerialRun(db: Db, ops: seq<SerialOp>): Db
    decreases |ops|
  {
    if ops == [] then db else SerialRun(SerialApply(db, ops[0]), ops[1..])
  }

  /** The commits of a run, in their order, with the price changes between them. */
  ghost function Linearized(s: State, acts: seq<Action>): seq<SerialOp>
    requires Inv(s) && Valid(s, acts)
    decreases |acts|
  {
    if acts == [] then []
    else
      assert Inv(Apply(s, acts[0])) by { InvStep(s, acts[0]); }
      var rest := Linearized(Apply(s, acts[0]), acts[1..]);
      match acts[0]
      case Commit(c) => [Buy(s.txs[c].input, s.txs[c].order.value)] + rest
      case SetPrice(p, price) => [Reprice(p, price)] + rest
      case _ => rest
  }

  /** Whatever the interleaving, the committed tables are those left by buying one after another in commit order. */
  lemma {:induction false} SerialEquivalence(s: State, acts: seq<Action>)
    requires Inv(s) && Valid(s, acts)
    ensures Run(s, acts).db == SerialRun(s.db, Linearized(s, acts))
    decreases |acts|
  {
    if acts != [] {
      InvStep(s, acts[0]);
      SerialEquivalence(Apply(s, acts[0]), acts[1..]);
      if acts[0].Commit? {
        CommitIsAtomicCheckout(s, acts[0].c);
      }
    }
  }

  ghost predicate Refuses(s: State, a: Action, e: Error)
    requires Enabled(s, a)
  {
    && (a.Begin? || a.TakeProduct? || a.TakeUser?)
    && (Apply(s, a).txs[a.c].phase == Aborting(e) || Apply(s, a).txs[a.c].phase == Done(Err(e)))
  }

  /** A refused checkout is refused for the reason, and at a moment, an atomic checkout would have been. */
  lemma RefusalIsAtomicToo(s: State, a: Action, e: Error, id: nat)
    requires Inv(s) && Enabled(s, a) && Refuses(s, a, e)
    ensures AtomicCheckout(s.db, s.txs[a.c].input, id) == (Err(e), s.db) && Apply(s, a).db == s.db
  {
    assert TxOk(s, a.c);
  }

  // ---- Conservation ----

  ghost function SoldOf(p: nat): Item -> int {
    (item: Item) => if item.product == p then item.quantity else 0
  }

  ghost function SpentBy(u: nat): Order -> int {
    (order: Order) => if order.user == u then order.total else 0
  }

  ghost function UnitsHeld(p: nat): Tx -> int {
    (tx: Tx) => if HoldsProduct(tx, p) then Units(tx.input) else 0
  }

  ghost function MoneyHeld(u: nat): Tx -> int {
    (tx: Tx) => if HoldsUser(tx, u) then Price(tx) else 0
  }

  ghost function Supply(db: Db, p: nat): int
    requires p in db.products
  {
    db.products[p].stock + Total(db.items, SoldOf(p))
  }

  ghost function Funds(db: Db, u: nat): int
    requires u in db.balances
  {
    db.balances[u] + Total(db.orders, SpentBy(u))
  }

  lemma CheckoutConservesStock(db: Db, input: Input, id: nat, p: nat)
    requires GoodDb(db) && id !in db.orders && p in db.products
    ensures var db' := AtomicCheckout(db, input, id).1; p in db'.products && Supply(db', p) == Supply(db, p)
  {
    var (outcome, db') := AtomicCheckout(db, input, id);
    if outcome.Ok? {
      TotalSet(db.items, SoldOf(p), id, db'.items[id]);
    }
  }

  lemma CheckoutConservesMoney(db: Db, input: Input, id: nat, u: nat)
    requires GoodDb(db) && id !in db.orders && u in db.balances
    ensures var db' := AtomicCheckout(db, input, id).1; u in db'.balances && Funds(db', u) == Funds(db, u)
  {
    var (outcome, db') := AtomicCheckout(db, input, id);
    if outcome.Ok? {
      TotalSet(db.orders, SpentBy(u), id, db'.orders[id]);
    }
  }

  lemma CommitConserves(s: State, c: nat, p: nat, u: nat)
    requires Inv(s) && Enabled(s, Commit(c)) && p in s.db.products && u in s.db.balances
    ensures var db := Apply(s, Commit(c)).db;
            p in db.products && u in db.balances && Supply(db, p) == Supply(s.db, p) && Funds(db, u) == Funds(s.db, u)
  {
    assert TxOk(s, c);
    CommitIsAtomicCheckout(s, c);
    CheckoutConservesStock(s.db, s.txs[c].input, s.txs[c].order.value, p);
    CheckoutConservesMoney(s.db, s.txs[c].input, s.txs[c].order.value, u);
  }

  lemma {:induction false} SupplyConserved(s: State, acts: seq<Action>, p: nat, u: nat)
    requires Inv(s) && Valid(s, acts) && p in s.db.products && u in s.db.balances
    ensures var db := Run(s, acts).db;
            p in db.products && u in db.balances && Supply(db, p) == Supply(s.db, p) && Funds(db, u) == Funds(s.db, u)
    decreases |acts|
  {
    if acts != [] {
      InvStep(s, acts[0]);
      if acts[0].Commit? {
        CommitConserves(s, acts[0].c, p, u);
      }
      SupplyConserved(Apply(s, acts[0]), acts[1..], p, u);
    }
  }

  lemma {:induction false} NothingHeld(txs: map<nat, Tx>, held: Tx -> int)
    requires forall c | c in txs :: held(txs[c]) == 0
    ensures Total(txs, held) == 0
    decreases |txs|
  {
    if |txs| != 0 {
      NothingHeld(txs - {PickKey(txs)}, held);
    }
  }

  /** The newest version of a row: the one an open transaction has written, if any. */
  ghost function LatestStock(s: State, p: nat): int
    requires p in s.db.products
  {
    if c :| c in s.txs && HoldsProduct(s.txs[c], p) then s.txs[c].row.value.stock else s.db.products[p].stock
  }

  ghost function LatestBalance(s: State, u: nat): int
    requires u in s.db.balances
  {
    if c :| c in s.txs && HoldsUser(s.txs[c], u) then s.txs[c].balance.value else s.db.balances[u]
  }

  lemma OnlyHolder(s: State, p: nat, c: nat)
    requires Inv(s) && c in s.txs && HoldsProduct(s.txs[c], p)
    ensures Total(s.txs, UnitsHeld(p)) == Units(s.txs[c].input)
  {
    TotalRemove(s.txs, UnitsHeld(p), c);
    forall d | d in s.txs && d != c ensures UnitsHeld(p)(s.txs[d]) == 0 {
      assert Apart(s.txs[c], s.txs[d]);
    }
    NothingHeld(s.txs - {c}, UnitsHeld(p));
  }

  lemma OnlyPayer(s: State, u: nat, c: nat)
    requires Inv(s) && c in s.txs && HoldsUser(s.txs[c], u)
    ensures Total(s.txs, MoneyHeld(u)) == Price(s.txs[c])
  {
    TotalRemove(s.txs, MoneyHeld(u), c);
    forall d | d in s.txs && d != c ensures MoneyHeld(u)(s.txs[d]) == 0 {
      assert Apart(s.txs[c], s.txs[d]);
    }
    NothingHeld(s.txs - {c}, MoneyHeld(u));
  }

  lemma LatestAndHeld(s: State, p: nat, u: nat)
    requires Inv(s) && p in s.db.products && u in s.db.balances
    ensures LatestStock(s, p) + Total(s.txs, UnitsHeld(p)) == s.db.products[p].stock
    ensures LatestBalance(s, u) + Total(s.txs, MoneyHeld(u)) == s.db.balances[u]
    ensures LatestStock(s, p) >= 0 && LatestBalance(s, u) >= 0
  {
    if exists c :: c in s.txs && HoldsProduct(s.txs[c], p) {
      var c :| c in s.txs && HoldsProduct(s.txs[c], p) && LatestStock(s, p) == s.txs[c].row.value.stock;
      assert TxOk(s, c);
      OnlyHolder(s, p, c);
    } else {
      NothingHeld(s.txs, UnitsHeld(p));
    }
    if exists c :: c in s.txs && HoldsUser(s.txs[c], u) {
      var c :| c in s.txs && HoldsUser(s.txs[c], u) && LatestBalance(s, u) == s.txs[c].balance.value;
      assert TxOk(s, c);
      OnlyPayer(s, u, c);
    } else {
      NothingHeld(s.txs, MoneyHeld(u));
    }
  }

  /** After every single statement of every interleaving: what there was to begin with is what the rows show now, plus
      what open checkouts hold, plus what committed orders took; and no row ever shows less than nothing. */
  lemma ConservationAtEveryStatement(init: State, acts: seq<Action>, p: nat, u: nat)
    requires Init(init) && Valid(init, acts) && p in init.db.products && u in init.db.balances
    ensures var end := Run(init, acts);
            && p in end.db.products && u in end.db.balances
            && Supply(init.db, p) == LatestStock(end, p) + Total(end.txs, UnitsHeld(p)) + Total(end.db.items, SoldOf(p))
            && Funds(init.db, u) == LatestBalance(end, u) + Total(end.txs, MoneyHeld(u)) + Total(end.db.orders,
                SpentBy(u))
            && LatestStock(end, p) >= 0 && LatestBalance(end, u) >= 0
  {
    InitInv(init);
    InvRun(init, acts);
    SupplyConserved(init, acts, p, u);
    LatestAndHeld(Run(init, acts), p, u);
  }

  // ---- An aborted checkout leaves no trace ----

  predicate By(a: Action, c: nat) {
    !a.SetPrice? && a.c == c
  }

  /** The run with c's statements struck out. */
  function Without(acts: seq<Action>, c: nat): seq<Action> {
    if acts == [] then []
    else (if By(acts[0], c) then [] else [acts[0]]) + Without(acts[1..], c)
  }

  /** t is s as everyone but c sees it, had c never begun; ids c has drawn are the one thing not given back. */
  ghost predicate SameButFor(s: State, t: State, c: nat) {
    && c in s.txs && s.txs.Keys == t.txs.Keys
    && !s.txs[c].phase.Committed?
    && t.txs[c].row.None? && t.txs[c].balance.None?
    && (forall d {:trigger s.txs[d]} {:trigger t.txs[d]} | d in s.txs && d != c :: s.txs[d] == t.txs[d])
    && s.db == t.db && s.published == t.published && t.used <= s.used
  }

  lemma OthersUnaffected(s: State, t: State, c: nat, a: Action)
    requires SameButFor(s, t, c) && Enabled(s, a) && !By(a, c)
    ensures Enabled(t, a) && SameButFor(Apply(s, a), Apply(t, a), c)
  {
    if a.TakeProduct? || a.TakeUser? {
      forall d | d in t.txs ensures !Waits(t, a.c, d) {
        assert !Waits(s, a.c, d);
      }
    }
  }

  lemma OwnStepsInvisible(s: State, t: State, c: nat, a: Action)
    requires SameButFor(s, t, c) && Enabled(s, a) && By(a, c) && !a.Commit?
    ensures SameButFor(Apply(s, a), t, c)
  {
  }

  lemma {:induction false} StruckOut(s: State, t: State, c: nat, acts: seq<Action>)
    requires SameButFor(s, t, c) && Valid(s, acts) && Commit(c) !in acts
    ensures Valid(t, Without(acts, c)) && SameButFor(Run(s, acts), Run(t, Without(acts, c)), c)
    decreases |acts|
  {
    if acts != [] {
      if By(acts[0], c) {
        OwnStepsInvisible(s, t, c, acts[0]);
        StruckOut(Apply(s, acts[0]), t, c, acts[1..]);
        assert Without(acts, c) == Without(acts[1..], c);
      } else {
        OthersUnaffected(s, t, c, acts[0]);
        StruckOut(Apply(s, acts[0]), Apply(t, acts[0]), c, acts[1..]);
        var rest := Without(acts, c);
        assert rest[0] == acts[0] && rest[1..] == Without(acts[1..], c);
      }
    }
  }

  /** A checkout that does not commit - out of stock, out of funds, failed anywhere - might as well not have been: with
      its statements struck out the run is still one, with the same tables, messages and outcomes for everyone else. */
  lemma AbortLeavesNoTrace(s: State, c: nat, acts: seq<Action>)
    requires c in s.txs && s.txs[c] == Ended(s.txs[c], Fresh) && Valid(s, acts) && Commit(c) !in acts
    ensures Valid(s, Without(acts, c))
    ensures var end, without := Run(s, acts), Run(s, Without(acts, c));
            end.db == without.db && end.published == without.published && end.txs.Keys == without.txs.Keys &&
            forall d | d in end.txs && d != c :: end.txs[d] == without.txs[d]
  {
    StruckOut(s, s, c, acts);
  }

  // ---- No deadlock ----

  /** Product lock first, then the user's. */
  function Rank(tx: Tx): nat {
    if tx.balance.Some? then 2 else if tx.row.Some? then 1 else 0
  }

  lemma WaitingClimbs(s: State, c: nat, d: nat)
    requires Inv(s) && Waits(s, c, d)
    ensures Rank(s.txs[c]) < Rank(s.txs[d])
  {
    assert TxOk(s, c) && TxOk(s, d);
  }

  ghost predicate WaitChain(s: State, path: seq<nat>) {
    forall i, j {:trigger Waits(s, path[i], path[j])} | 0 <= i < j < |path| && j == i + 1 :: Waits(s, path[i], path[j])
  }

  lemma {:induction false} ChainClimbs(s: State, path: seq<nat>)
    requires Inv(s) && |path| >= 2 && WaitChain(s, path)
    ensures path[0] in s.txs && path[|path| - 1] in s.txs
    ensures Rank(s.txs[path[|path| - 1]]) >= Rank(s.txs[path[0]]) + |path| - 1
    decreases |path|
  {
    assert Waits(s, path[0], path[1]);
    WaitingClimbs(s, path[0], path[1]);
    if |path| > 2 {
      var rest := path[1..];
      forall i, j | 0 <= i < j < |rest| && j == i + 1 ensures Waits(s, rest[i], rest[j]) {
        assert Waits(s, path[i + 1], path[j + 1]);
      }
      ChainClimbs(s, rest);
    }
  }

  /** The wait-for relation has no cycle; nobody waits more than twice removed. */
  lemma NoWaitCycle(s: State, path: seq<nat>)
    requires Inv(s) && |path| >= 2 && WaitChain(s, path)
    ensures path[0] != path[|path| - 1] && |path| <= 3
  {
    ChainClimbs(s, path);
  }

  predicate Finished(tx: Tx) {
    tx.phase.Done?
  }

  lemma UnblockedCanStep(s: State, c: nat) returns (a: Action)
    requires Inv(s) && c in s.txs && !Finished(s.txs[c]) && forall d | d in s.txs :: !Waits(s, c, d)
    ensures Enabled(s, a) && !a.SetPrice? && !a.Fail? && a.c == c
  {
    assert TxOk(s, c);
    match s.txs[c].phase
    case Fresh => a := Begin(c);
    case Begun => a := TakeProduct(c);
    case HasProduct => a := TakeUser(c);
    case HasUser =>
      var id := FreshKey(s.used);
      a := InsertOrder(c, id);
    case OrderIn => a := InsertItem(c);
    case ItemIn => a := InsertTask(c);
    case TaskIn => a := Commit(c);
    case Aborting(_) => a := Rollback(c);
    case Committed(_) => a := Publish(c, true);
  }

  /** While any checkout is unfinished, one of them can take its next statement without anything failing. */
  lemma SomeCheckoutCanStep(s: State, c: nat) returns (a: Action)
    requires Inv(s) && c in s.txs && !Finished(s.txs[c])
    ensures Enabled(s, a) && !a.SetPrice? && !a.Fail?
    decreases 2 - Rank(s.txs[c])
  {
    if d :| d in s.txs && Waits(s, c, d) {
      WaitingClimbs(s, c, d);
      assert TxOk(s, d);
      a := SomeCheckoutCanStep(s, d);
    } else {
      a := UnblockedCanStep(s, c);
    }
  }

  function StepsLeft(tx: Tx): int {
    match tx.phase
    case Fresh => 8
    case Begun => 7
    case HasProduct => 6
    case HasUser => 5
    case OrderIn => 4
    case ItemIn => 3
    case TaskIn => 2
    case Aborting(_) => 1
    case Committed(_) => 1
    case Done(_) => 0
  }

  function CheckoutSteps(acts: seq<Action>): nat {
    if acts == [] then 0 else (if acts[0].SetPrice? then 0 else 1) + CheckoutSteps(acts[1..])
  }

  lemma StepsUsedUp(s: State, a: Action)
    requires Enabled(s, a)
    ensures Total(Apply(s, a).txs, StepsLeft) + (if a.SetPrice? then 0 else 1) <= Total(s.txs, StepsLeft)
  {
    if !a.SetPrice? {
      TotalSet(s.txs, StepsLeft, a.c, Apply(s, a).txs[a.c]);
    }
  }

  lemma {:induction false} RunUsesUp(s: State, acts: seq<Action>)
    requires Valid(s, acts)
    ensures CheckoutSteps(acts) + Total(Run(s, acts).txs, StepsLeft) <= Total(s.txs, StepsLeft)
    decreases |acts|
  {
    if acts != [] {
      StepsUsedUp(s, acts[0]);
      RunUsesUp(Apply(s, acts[0]), acts[1..]);
    }
  }

  lemma {:induction false} AtMostEightEach(txs: map<nat, Tx>)
    ensures Total(txs, StepsLeft) <= 8 * |txs|
    decreases |txs|
  {
    if |txs| != 0 {
      AtMostEightEach(txs - {PickKey(txs)});
      assert |txs - {PickKey(txs)}| == |txs| - 1 by {
        assert (txs - {PickKey(txs)}).Keys == txs.Keys - {PickKey(txs)};
        assert |txs.Keys| == |txs| && |(txs - {PickKey(txs)}).Keys| == |txs - {PickKey(txs)}|;
      }
    }
  }

  /** Only failures and price changes could still happen. */
  ghost predicate Stuck(s: State) {
    forall a {:trigger Enabled(s, a)} :: Enabled(s, a) ==> a.SetPrice? || a.Fail?
  }

  /** Every run of n checkouts takes at most 8n statements, whatever fails and whoever waits. */
  lemma RunsAreBounded(init: State, acts: seq<Action>)
    requires Valid(init, acts)
    ensures CheckoutSteps(acts) <= 8 * |init.txs|
  {
    RunUsesUp(init, acts);
    AtMostEightEach(init.txs);
    TotalNonNegative(Run(init, acts).txs, StepsLeft);
  }

  /** A run that cannot be continued has finished every checkout. */
  lemma EveryCheckoutFinishes(init: State, acts: seq<Action>)
    requires Init(init) && Valid(init, acts) && Stuck(Run(init, acts))
    ensures forall c | c in Run(init, acts).txs :: Finished(Run(init, acts).txs[c])
  {
    InitInv(init);
    InvRun(init, acts);
    StuckIsFinished(Run(init, acts));
  }

  lemma StuckIsFinished(s: State)
    requires Inv(s) && Stuck(s)
    ensures forall c | c in s.txs :: Finished(s.txs[c])
  {
    forall c | c in s.txs ensures Finished(s.txs[c]) {
      if !Finished(s.txs[c]) {
        var a := SomeCheckoutCanStep(s, c);
      }
    }
  }

  // ---- The message after the commit ----

  /** A published event announces a committed order, item by item. */
  lemma PublishedImpliesCommitted(init: State, acts: seq<Action>, e: PlacedEvent)
    requires Init(init) && Valid(init, acts) && e in Run(init, acts).published
    ensures PublishedOk(Run(init, acts).db, e)
  {
    InitInv(init);
    InvRun(init, acts);
    assert PublishedOk(Run(init, acts).db, e);
  }

  function SoloStatements(c: nat, id: nat): seq<Action> {
    [Begin(c), TakeProduct(c), TakeUser(c), InsertOrder(c, id), InsertItem(c), InsertTask(c), Commit(c)]
  }

  ghost predicate Alone(s: State, c: nat) {
    && c in s.txs && s.txs[c] == Ended(s.txs[c], Fresh)
    && forall d | d in s.txs && d != c :: !HoldsProduct(s.txs[d], s.txs[c].input.product) &&
                                         !HoldsUser(s.txs[d], s.txs[c].input.user)
  }

  lemma {:induction false} Extend(s: State, acts: seq<Action>, a: Action)
    requires Valid(s, acts) && Enabled(Run(s, acts), a)
    ensures Valid(s, acts + [a]) && Run(s, acts + [a]) == Apply(Run(s, acts), a)
    decreases |acts|
  {
    if acts == [] {
      assert [a][1..] == [];
    } else {
      Extend(Apply(s, acts[0]), acts[1..], a);
      assert (acts + [a])[1..] == acts[1..] + [a];
    }
  }

  lemma SoloHoldsBoth(s: State, c: nat, id: nat) returns (t: State)
    requires Alone(s, c) && AtomicCheckout(s.db, s.txs[c].input, id).0.Ok?
    ensures Valid(s, [Begin(c), TakeProduct(c), TakeUser(c)])
    ensures t == Run(s, [Begin(c), TakeProduct(c), TakeUser(c)])
    ensures t == With(s, c, UserTaken(s.db, ProductTaken(s.db, s.txs[c].(phase := Begun)))) && t.txs[c].phase.HasUser?
  {
    Extend(s, [], Begin(c));
    var s1 := Apply(s, Begin(c));
    assert [] + [Begin(c)] == [Begin(c)];
    assert forall d | d in s1.txs :: !Waits(s1, c, d);
    Extend(s, [Begin(c)], TakeProduct(c));
    var s2 := Apply(s1, TakeProduct(c));
    assert [Begin(c)] + [TakeProduct(c)] == [Begin(c), TakeProduct(c)];
    assert forall d | d in s2.txs :: !Waits(s2, c, d);
    Extend(s, [Begin(c), TakeProduct(c)], TakeUser(c));
    assert [Begin(c), TakeProduct(c)] + [TakeUser(c)] == [Begin(c), TakeProduct(c), TakeUser(c)];
    t := Apply(s2, TakeUser(c));
    assert t.txs == s.txs[c := t.txs[c]];
  }

  /** A checkout that meets no one is a run of its statements, and its effect is that of the atomic checkout. */
  lemma SoloRun(s: State, c: nat, id: nat)
    requires Alone(s, c) && id !in s.used && AtomicCheckout(s.db, s.txs[c].input, id).0.Ok?
    ensures Valid(s, SoloStatements(c, id))
    ensures var end, (outcome, db) := Run(s, SoloStatements(c, id)), AtomicCheckout(s.db, s.txs[c].input, id);
            end.db == db && end.published == s.published && c in end.txs &&
                end.txs[c].phase == Committed(outcome.result)
  {
    var t := SoloHoldsBoth(s, c, id);
    var acts := [Begin(c), TakeProduct(c), TakeUser(c)];
    Extend(s, acts, InsertOrder(c, id));
    Extend(s, acts + [InsertOrder(c, id)], InsertItem(c));
    Extend(s, acts + [InsertOrder(c, id)] + [InsertItem(c)], InsertTask(c));
    Extend(s, acts + [InsertOrder(c, id)] + [InsertItem(c)] + [InsertTask(c)], Commit(c));
    assert acts + [InsertOrder(c, id)] + [InsertItem(c)] + [InsertTask(c)] + [Commit(c)] == SoloStatements(c, id);
  }

  /** The converse fails: a process that dies after its commit leaves an order no event will ever announce. */
  lemma CommitCanGoUnannounced(s: State, c: nat, id: nat)
    requires Alone(s, c) && id !in s.used && AtomicCheckout(s.db, s.txs[c].input, id).0.Ok?
    ensures Valid(s, SoloStatements(c, id) + [Fail(c)])
    ensures var end := Run(s, SoloStatements(c, id) + [Fail(c)]);
            id in end.db.orders && end.published == s.published && c in end.txs && Finished(end.txs[c])
  {
    SoloRun(s, c, id);
    Extend(s, SoloStatements(c, id), Fail(c));
  }
}
