/** What the pipeline promises in every reachable state. */
module PipelineTheorems {
  import opened Options
  import opened Messages
  import opened Pipeline
  import opened PipelineInvariant
  import Orders

  // ---- Exactly once ----

  /** However often an event is sent, delivered and redelivered, its effect is inserted at most once, and exactly
      when its processed_messages marker is committed. */
  lemma ExactlyOnceEffect(s: State, e: string)
    requires Reachable(s)
    ensures forall i, j | 0 <= i < |s.applied| && 0 <= j < |s.applied| && s.applied[i] == s.applied[j] == e :: i == j
    ensures e in s.effects <==> e in s.processed
    ensures e in s.effects <==> e in s.applied
  {
    ReachableInv(s);
  }

  /** The marker alone decides: a handler that holds it never finds an effect already there. */
  lemma MarkerHolderFindsNoEffect(s: State, h: nat)
    requires Reachable(s) && h in s.handlers && HoldsMarker(s.handlers[h])
    ensures IdOf(s.handlers[h].msg) !in s.effects && IdOf(s.handlers[h].msg) !in s.applied
  {
    ReachableInv(s);
    assert HandlerOk(s, h);
  }

  /** An acknowledged message is one whose effect is in place. */
  lemma AckedMeansApplied(s: State, c: nat)
    requires Reachable(s) && c in s.copies && s.copies[c].place.Acked?
    ensures IdOf(s.copies[c].msg) in s.effects
  {
    ReachableInv(s);
    assert CopyOk(s, c);
  }

  // ---- Nothing invented ----

  /** When only the relay publishes, every effect is that of a committed order, under that order's own event id. */
  lemma NothingInvented(s: State, e: string)
    requires Reachable(s) && !s.foreign && e in s.effects
    ensures s.effects[e] in s.shop.orders && e == EventIdOf(s.effects[e])
  {
    ReachableInv(s);
    assert EffectOk(s, e);
  }

  // ---- Publish accounting ----

  /** Concurrent relays hold disjoint, unpublished rows. */
  lemma RelaysHoldDisjointRows(s: State, r: nat, q: nat, x: nat)
    requires Reachable(s) && r in s.relays && q in s.relays && x in s.relays[r].rows && x in s.relays[q].rows
    ensures r == q
    ensures x in s.shop.outbox && !s.shop.outbox[x].published
  {
    ReachableInv(s);
    assert RelayOk(s, r);
    assert r != q ==> NoShare(s.relays[r], s.relays[q]);
  }

  /** Copies of an event = rolled-back batches that had sent it + the open one that has + 1 if it is published;
      and since increments roll back, the attempts column is 1 exactly for published rows. */
  lemma PublishAccounting(s: State, x: nat)
    requires Reachable(s) && x in s.shop.outbox
    ensures |CopiesOf(s, x)| == Undone(s, x) + (if SentInOpen(s, x) then 1 else 0)
                                             + (if s.shop.outbox[x].published then 1 else 0)
    ensures s.shop.outbox[x].attempts == (if s.shop.outbox[x].published then 1 else 0)
  {
    ReachableInv(s);
    assert RowOk(s, x);
  }

  /** publishOrderPlaced returns only after the broker's confirm: a row that is published, or that an open batch has got
      past, has a copy in the broker. */
  lemma MarkedMeansAccepted(s: State, x: nat)
    requires Reachable(s) && x in s.shop.outbox
    ensures s.shop.outbox[x].published || SentInOpen(s, x) ==> CopiesOf(s, x) != {}
    ensures forall c | c in CopiesOf(s, x) :: s.copies[c].msg == s.shop.outbox[x].payload
  {
    ReachableInv(s);
    assert RowOk(s, x);
    forall c | c in CopiesOf(s, x) ensures s.copies[c].msg == s.shop.outbox[x].payload {
      assert CopyOk(s, c);
    }
  }

  // ---- Nothing lost ----

  /** Where the event of an order can still be found: its row waits, a copy is queued, in flight or dead-lettered,
      or its effect is applied. */
  ghost predicate Safe(s: State, o: nat)
    requires o in s.shop.orders && s.shop.orders[o].outboxId in s.shop.outbox
  {
    var x := s.shop.orders[o].outboxId;
    || !s.shop.outbox[x].published
    || (exists c ::
          c in CopiesOf(s, x) && (s.copies[c].place.Queued? || s.copies[c].place.InFlight? || s.copies[c].place.Dead?))
    || EventIdOf(o) in s.effects
  }

  /** Some copy of the row was taken by a queue. */
  ghost predicate Routed(s: State, x: nat) {
    exists c :: c in CopiesOf(s, x) && !s.copies[c].place.Unrouted?
  }

  lemma PublishedRowHasACopy(s: State, x: nat)
    requires RelayInv(s) && x in s.shop.outbox && s.shop.outbox[x].published
    ensures CopiesOf(s, x) != {}
  {
    assert RowOk(s, x);
  }

  lemma RoutedIsSafe(s: State, o: nat)
    requires Inv(s) && o in s.shop.orders && s.shop.orders[o].outboxId in s.shop.outbox &&
             Routed(s, s.shop.orders[o].outboxId)
    ensures Safe(s, o)
  {
    var x := s.shop.orders[o].outboxId;
    var c :| c in CopiesOf(s, x) && !s.copies[c].place.Unrouted?;
    assert CopyOk(s, c) && Orders.OrderOk(s.shop, o);
  }

  /** In every reachable state, whatever the topology: an order is lost exactly when its row is published, no queue ever
      took a copy of it, and no one else's message has applied its effect. */
  lemma SafeIff(s: State, o: nat)
    requires Reachable(s) && o in s.shop.orders
    ensures s.shop.orders[o].outboxId in s.shop.outbox
    ensures var x := s.shop.orders[o].outboxId;
            Safe(s, o) <==> !s.shop.outbox[x].published || Routed(s, x) || EventIdOf(o) in s.effects
  {
    ReachableInv(s);
    assert Orders.OrderOk(s.shop, o);
    if Routed(s, s.shop.orders[o].outboxId) {
      RoutedIsSafe(s, o);
    }
  }

  // ---- Safe for good ----

  /** A queue has taken a copy, or the effect is there, or the row is still to be sent: not in the batch now open, which
      may have handed it to an exchange that dropped it. */
  ghost predicate Secure(s: State, o: nat)
    requires o in s.shop.orders && s.shop.orders[o].outboxId in s.shop.outbox
  {
    var x := s.shop.orders[o].outboxId;
    Routed(s, x) || EventIdOf(o) in s.effects || (!s.shop.outbox[x].published && !SentInOpen(s, x))
  }

  lemma OrdersOnlyGrow(shop: Orders.Shop, a: Orders.Action)
    requires Orders.OpenInv(shop) && Orders.Enabled(shop, a)
    ensures var orders := Orders.Apply(shop, a).orders;
            forall o | o in shop.orders :: o in orders && orders[o].outboxId == shop.orders[o].outboxId
  {
    if a.Replay? {
      Orders.ReplayFrame(shop, a.q, a.step);
    } else if a.Commit? {
      assert Orders.TxOk(shop, a.t);
    }
  }

  lemma NewOrderIsACommit(shop: Orders.Shop, a: Orders.Action, o: nat)
    requires Orders.OpenInv(shop) && Orders.Enabled(shop, a)
    requires o !in shop.orders && o in Orders.Apply(shop, a).orders
    ensures var shop' := Orders.Apply(shop, a); var x := shop'.orders[o].outboxId;
            x !in shop.outbox && x in shop'.outbox && !shop'.outbox[x].published
  {
    if a.Replay? {
      Orders.ReplayFrame(shop, a.q, a.step);
    } else {
      OnlyCommitAddsOrders(shop, a, o);
      assert Orders.TxOk(shop, a.t);
    }
  }

  lemma OnlyCommitAddsOrders(shop: Orders.Shop, a: Orders.Action, o: nat)
    requires Orders.Enabled(shop, a) && !a.Replay? && o !in shop.orders && o in Orders.Apply(shop, a).orders
    ensures a.Commit?
  {
  }

  lemma OrderKept(s: State, a: Action, o: nat)
    requires Inv(s) && Enabled(s, a) && o in s.shop.orders
    ensures var s' := Apply(s, a);
            && o in s'.shop.orders && s'.shop.orders[o].outboxId == s.shop.orders[o].outboxId
            && s.effects.Keys <= s'.effects.Keys
  {
    if a.ShopStep? {
      OrdersOnlyGrow(s.shop, a.a);
    }
  }

  lemma RowExists(s: State, o: nat)
    requires Inv(s) && o in s.shop.orders
    ensures s.shop.orders[o].outboxId in s.shop.outbox
  {
    assert Orders.OrderOk(s.shop, o);
  }

  /** The broker keeps a message it has routed, and where it came from. */
  ghost predicate KeepsRouted(s: State, s': State, c: nat)
    requires c in s.copies
  {
    c in s'.copies && s'.copies[c].source == s.copies[c].source && !s'.copies[c].place.Unrouted?
  }

  lemma OtherStepsMoveNoCopy(s: State, a: Action)
    requires Enabled(s, a) && !Moves(a)
    ensures Apply(s, a).copies == s.copies
  {
  }

  lemma MoveKeepsRouted(s: State, a: Action, c: nat)
    requires Enabled(s, a) && Moves(a) && c in s.copies && c < s.nextCopy && !s.copies[c].place.Unrouted?
    ensures KeepsRouted(s, Apply(s, a), c)
  {
  }

  lemma RoutedCopyStays(s: State, a: Action, c: nat)
    requires Enabled(s, a) && c in s.copies && c < s.nextCopy && !s.copies[c].place.Unrouted?
    ensures KeepsRouted(s, Apply(s, a), c)
  {
    if Moves(a) {
      MoveKeepsRouted(s, a, c);
    } else {
      OtherStepsMoveNoCopy(s, a);
    }
  }

  lemma RoutedStays(s: State, a: Action, x: nat)
    requires BrokerInv(s) && Enabled(s, a) && Routed(s, x)
    ensures Routed(Apply(s, a), x)
  {
    var c :| c in CopiesOf(s, x) && !s.copies[c].place.Unrouted?;
    assert CopyOk(s, c);
    RoutedCopyStays(s, a, c);
    assert c in CopiesOf(Apply(s, a), x);
  }

  lemma SendRoutes(s: State, r: nat)
    requires Inv(s) && s.bound && Enabled(s, RelaySend(r))
    ensures Routed(Send(s, r), s.relays[r].rows[s.relays[r].done])
  {
    assert s.nextCopy in CopiesOf(Send(s, r), s.relays[r].rows[s.relays[r].done]);
  }

  /** A row not yet sent is not published behind its back. */
  lemma RelayLeavesUnsent(s: State, a: Action, x: nat)
    requires Inv(s) && Enabled(s, a) && x in s.shop.outbox && !s.shop.outbox[x].published && !SentInOpen(s, x)
    requires a.RelayClaim? || a.RelayAttempt? || a.RelayMark? || a.RelayCommit? || a.RelayAbort?
    ensures x in Apply(s, a).shop.outbox && !Apply(s, a).shop.outbox[x].published && !SentInOpen(Apply(s, a), x)
  {
    var s' := Apply(s, a);
    if !a.RelayClaim? {
      assert RelayOk(s, a.r);
      assert s.relays[a.r].rows[..|s.relays[a.r].rows|] == s.relays[a.r].rows;
      assert !SentBy(s.relays[a.r], x);
    }
    forall q | q in s'.relays ensures !SentBy(s'.relays[q], x) {
      assert q in s.relays ==> !SentBy(s.relays[q], x);
    }
  }

  lemma SendLeavesOthersUnsent(s: State, r: nat, x: nat)
    requires Inv(s) && Enabled(s, RelaySend(r)) && x in s.shop.outbox && !s.shop.outbox[x].published &&
             !SentInOpen(s, x)
    requires x != s.relays[r].rows[s.relays[r].done]
    ensures !Send(s, r).shop.outbox[x].published && !SentInOpen(Send(s, r), x)
  {
    SendMovesOneRow(s, r, x);
  }

  lemma OthersLeaveUnsent(s: State, a: Action, x: nat)
    requires Inv(s) && Enabled(s, a) && x in s.shop.outbox && !s.shop.outbox[x].published && !SentInOpen(s, x)
    requires !a.RelayClaim? && !a.RelayAttempt? && !a.RelaySend? && !a.RelayMark? && !a.RelayCommit? && !a.RelayAbort?
    ensures x in Apply(s, a).shop.outbox && !Apply(s, a).shop.outbox[x].published && !SentInOpen(Apply(s, a), x)
  {
    if a.ShopStep? {
      OutboxOnlyGrows(s.shop, a.a);
    }
    assert Apply(s, a).relays == s.relays;
  }

  lemma UnsentStaysOrIsRouted(s: State, a: Action, x: nat)
    requires Inv(s) && s.bound && Enabled(s, a) && x in s.shop.outbox && !s.shop.outbox[x].published &&
             !SentInOpen(s, x)
    ensures var s' := Apply(s, a);
            Routed(s', x) || (x in s'.shop.outbox && !s'.shop.outbox[x].published && !SentInOpen(s', x))
  {
    if a.RelaySend? {
      if x == s.relays[a.r].rows[s.relays[a.r].done] {
        SendRoutes(s, a.r);
      } else {
        SendLeavesOthersUnsent(s, a.r, x);
      }
    } else if a.RelayClaim? || a.RelayAttempt? || a.RelayMark? || a.RelayCommit? || a.RelayAbort? {
      RelayLeavesUnsent(s, a, x);
    } else {
      OthersLeaveUnsent(s, a, x);
    }
  }

  lemma SecureStays(s: State, a: Action, o: nat)
    requires Inv(s) && s.bound && Enabled(s, a) && Inv(Apply(s, a)) && o in s.shop.orders
    requires s.shop.orders[o].outboxId in s.shop.outbox && Secure(s, o)
    ensures o in Apply(s, a).shop.orders && Apply(s, a).shop.orders[o].outboxId in Apply(s, a).shop.outbox
    ensures Secure(Apply(s, a), o)
  {
    OrderKept(s, a, o);
    RowExists(Apply(s, a), o);
    var x := s.shop.orders[o].outboxId;
    if Routed(s, x) {
      RoutedStays(s, a, x);
    } else if EventIdOf(o) !in s.effects {
      UnsentStaysOrIsRouted(s, a, x);
    }
  }

  lemma NewOrderIsSecure(s: State, a: Orders.Action, o: nat)
    requires Inv(s) && Orders.Enabled(s.shop, a) && o !in s.shop.orders && o in Orders.Apply(s.shop, a).orders
    ensures var s' := s.(shop := Orders.Apply(s.shop, a));
            s'.shop.orders[o].outboxId in s'.shop.outbox && Secure(s', o)
  {
    NewOrderIsACommit(s.shop, a, o);
    var s' := s.(shop := Orders.Apply(s.shop, a));
    NewRowHasNoCopies(s, s'.shop.orders[o].outboxId);
  }

  lemma OnlyCreateAddsOrders(s: State, a: Action, o: nat)
    requires Enabled(s, a) && o !in s.shop.orders && o in Apply(s, a).shop.orders
    ensures a.ShopStep?
  {
  }

  lemma BoundStays(s: State, a: Action)
    requires s.bound && Enabled(s, a)
    ensures Apply(s, a).bound
  {
  }

  lemma SecureStep(s: State, a: Action, o: nat)
    requires Inv(s) && s.bound && Enabled(s, a)
    requires o in s.shop.orders ==> s.shop.orders[o].outboxId in s.shop.outbox && Secure(s, o)
    ensures var s' := Apply(s, a);
            && Inv(s') && s'.bound
            && (o in s'.shop.orders ==> s'.shop.orders[o].outboxId in s'.shop.outbox && Secure(s', o))
  {
    InvStep(s, a);
    BoundStays(s, a);
    if o in s.shop.orders {
      SecureStays(s, a, o);
    } else if o in Apply(s, a).shop.orders {
      OnlyCreateAddsOrders(s, a, o);
      NewOrderIsSecure(s, a.a, o);
    }
  }

  lemma SafeWhenSecure(s: State, o: nat)
    requires Inv(s) && o in s.shop.orders && s.shop.orders[o].outboxId in s.shop.outbox && Secure(s, o)
    ensures Safe(s, o)
  {
    if Routed(s, s.shop.orders[o].outboxId) {
      RoutedIsSafe(s, o);
    }
  }

  lemma {:induction false} OrdersStaySecure(s: State, acts: seq<Action>, o: nat)
    requires Inv(s) && s.bound && Valid(s, acts) && o in Run(s, acts).shop.orders
    requires o in s.shop.orders ==> s.shop.orders[o].outboxId in s.shop.outbox && Secure(s, o)
    ensures var end := Run(s, acts);
            Inv(end) && end.shop.orders[o].outboxId in end.shop.outbox && Secure(end, o)
    decreases |acts|
  {
    if acts != [] {
      SecureStep(s, acts[0], o);
      OrdersStaySecure(Apply(s, acts[0]), acts[1..], o);
    }
  }

  /** From any reachable state in which the queue is bound: every order that is secure then, and every order committed
      later, is safe in every later state, whatever crashes. */
  lemma NothingLost(s: State, acts: seq<Action>, o: nat)
    requires Reachable(s) && s.bound && Valid(s, acts) && o in Run(s, acts).shop.orders
    requires o in s.shop.orders ==> s.shop.orders[o].outboxId in s.shop.outbox && Secure(s, o)
    ensures Run(s, acts).shop.orders[o].outboxId in Run(s, acts).shop.outbox
    ensures Safe(Run(s, acts), o)
  {
    ReachableInv(s);
    OrdersStaySecure(s, acts, o);
    SafeWhenSecure(Run(s, acts), o);
  }

  // ---- And no other order is ----

  /** Relay r has sent the row of order o, every copy of it was dropped, and nothing has applied its effect. */
  ghost predicate Doomed(s: State, r: nat, o: nat) {
    && Inv(s) && s.declared && o in s.shop.orders && s.shop.orders[o].outboxId in s.shop.outbox
    && r in s.relays && SentBy(s.relays[r], s.shop.orders[o].outboxId)
    && !Routed(s, s.shop.orders[o].outboxId) && EventIdOf(o) !in s.effects
  }

  lemma QuietMoveDooms(s: State, r: nat, o: nat, a: Action)
    requires Doomed(s, r, o) && Enabled(s, a) && (a == RelayAttempt(r) || a == RelayMark(r))
    ensures Doomed(Apply(s, a), r, o)
  {
    InvStep(s, a);
    var s', x := Apply(s, a), s.shop.orders[o].outboxId;
    assert CopiesOf(s', x) == CopiesOf(s, x);
  }

  lemma SendKeepsInv(s: State, r: nat)
    requires Inv(s) && Enabled(s, RelaySend(r))
    ensures Inv(Send(s, r))
  {
    InvStep(s, RelaySend(r));
  }

  lemma SendDooms(s: State, r: nat, o: nat)
    requires Doomed(s, r, o) && Enabled(s, RelaySend(r))
    ensures Doomed(Send(s, r), r, o)
  {
    SendKeepsInv(s, r);
    var s', x, tx := Send(s, r), s.shop.orders[o].outboxId, s.relays[r];
    assert SentInOpen(s, x);
    SendMovesOneRow(s, r, x);
    var sent := tx.rows[tx.done];
    assert sent != x;
    PublishAddsOneCopy(s, s.shop.outbox[sent].payload, Some(sent), x);
    assert CopiesOf(s', x) == CopiesOf(s, x);
    assert tx.rows[..tx.done + 1] == tx.rows[..tx.done] + [sent];
  }

  lemma CommitLoses(s: State, r: nat, o: nat)
    requires Doomed(s, r, o) && Enabled(s, RelayCommit(r))
    ensures var s' := CommitRelay(s, r); s'.shop.orders[o].outboxId in s'.shop.outbox && !Safe(s', o)
  {
    var s', x := CommitRelay(s, r), s.shop.orders[o].outboxId;
    assert CopiesOf(s', x) == CopiesOf(s, x);
  }

  function LeftToDo(tx: RelayTx): int {
    3 * (|tx.rows| - tx.done) - match tx.phase { case Idle => 0 case Attempted => 1 case Sent => 2 }
  }

  /** An order is lost if some continuation ends with it unsafe. */
  ghost predicate CanBeLost(s: State, o: nat) {
    exists acts :: Valid(s, acts) && LostAfter(s, acts, o)
  }

  ghost predicate LostAfter(s: State, acts: seq<Action>, o: nat)
    requires Valid(s, acts)
  {
    var end := Run(s, acts);
    o in end.shop.orders && end.shop.orders[o].outboxId in end.shop.outbox && !Safe(end, o)
  }

  lemma LostOneStepOn(s: State, a: Action, o: nat)
    requires Enabled(s, a) && CanBeLost(Apply(s, a), o)
    ensures CanBeLost(s, o)
  {
    var acts :| Valid(Apply(s, a), acts) && LostAfter(Apply(s, a), acts, o);
    assert ([a] + acts)[1..] == acts;
    assert Valid(s, [a] + acts) && LostAfter(s, [a] + acts, o);
  }

  lemma LostNow(s: State, o: nat)
    requires o in s.shop.orders && s.shop.orders[o].outboxId in s.shop.outbox && !Safe(s, o)
    ensures CanBeLost(s, o)
  {
    assert Valid(s, []) && LostAfter(s, [], o);
  }

  lemma QuietMoveLeavesLess(s: State, r: nat, a: Action)
    requires Enabled(s, a) && (a == RelayAttempt(r) || a == RelayMark(r))
    requires s.relays[r].done < |s.relays[r].rows|
    ensures r in Apply(s, a).relays && 0 <= LeftToDo(Apply(s, a).relays[r]) < LeftToDo(s.relays[r])
  {
  }

  lemma SendLeavesLess(s: State, r: nat)
    requires Enabled(s, RelaySend(r))
    ensures r in Send(s, r).relays && 0 <= LeftToDo(Send(s, r).relays[r]) < LeftToDo(s.relays[r])
  {
  }

  /** The relay's next statement gets the batch nearer to the commit that loses the order. */
  lemma DoomedStep(s: State, r: nat, o: nat) returns (a: Action)
    requires Doomed(s, r, o) && s.relays[r].done < |s.relays[r].rows|
    ensures Enabled(s, a) && Doomed(Apply(s, a), r, o) && 0 <= LeftToDo(Apply(s, a).relays[r]) < LeftToDo(s.relays[r])
  {
    assert RelayOk(s, r);
    if s.relays[r].phase.Attempted? {
      a := RelaySend(r);
      SendDooms(s, r, o);
      SendLeavesLess(s, r);
    } else {
      a := if s.relays[r].phase.Idle? then RelayAttempt(r) else RelayMark(r);
      QuietMoveDooms(s, r, o, a);
      QuietMoveLeavesLess(s, r, a);
    }
  }

  lemma {:induction false} FinishingTheBatchLoses(s: State, r: nat, o: nat)
    requires Doomed(s, r, o)
    ensures CanBeLost(s, o)
    decreases LeftToDo(s.relays[r])
  {
    assert RelayOk(s, r);
    if s.relays[r].done < |s.relays[r].rows| {
      var a := DoomedStep(s, r, o);
      FinishingTheBatchLoses(Apply(s, a), r, o);
      LostOneStepOn(s, a, o);
    } else {
      CommitLoses(s, r, o);
      LostNow(CommitRelay(s, r), o);
      LostOneStepOn(s, RelayCommit(r), o);
    }
  }

  /** Once the queue is bound: a committed order is safe in every continuation exactly when it is secure now. */
  lemma SafeForeverIffSecure(s: State, o: nat)
    requires Reachable(s) && s.bound && o in s.shop.orders
    ensures s.shop.orders[o].outboxId in s.shop.outbox
    ensures CanBeLost(s, o) <==> !Secure(s, o)
  {
    ReachableInv(s);
    assert Orders.OrderOk(s.shop, o);
    if Secure(s, o) {
      forall acts | Valid(s, acts) ensures !LostAfter(s, acts, o) {
        if o in Run(s, acts).shop.orders {
          NothingLost(s, acts, o);
        }
      }
    } else {
      var x := s.shop.orders[o].outboxId;
      if s.shop.outbox[x].published {
        SafeIff(s, o);
        LostNow(s, o);
      } else {
        var r :| r in s.relays && SentBy(s.relays[r], x);
        FinishingTheBatchLoses(s, r, o);
      }
    }
  }

  // ---- Before the queue is bound ----

  /** With the exchange there but no queue bound to it the broker confirms and drops: nothing is ever delivered. */
  ghost predicate AllDropped(s: State) {
    !s.bound ==> s.handlers == map[] && s.effects == map[] && forall c | c in s.copies :: s.copies[c].place.Unrouted?
  }

  lemma DroppedStep(s: State, a: Action)
    requires AllDropped(s) && Enabled(s, a)
    ensures AllDropped(Apply(s, a))
  {
  }

  lemma {:induction false} DroppedRun(s: State, acts: seq<Action>)
    requires AllDropped(s) && Valid(s, acts)
    ensures AllDropped(Run(s, acts))
    decreases |acts|
  {
    if acts != [] {
      DroppedStep(s, acts[0]);
      DroppedRun(Apply(s, acts[0]), acts[1..]);
    }
  }

  /** Between the declaration of the exchange and the last binding an order is safe exactly while its row is
      unpublished: the confirm the relay waits for does not say that a queue took the message. */
  lemma UnboundQueueLosesPublishedEvents(init: State, acts: seq<Action>, o: nat)
    requires Init(init) && Valid(init, acts) && !Run(init, acts).bound && o in Run(init, acts).shop.orders
    ensures Run(init, acts).shop.orders[o].outboxId in Run(init, acts).shop.outbox
    ensures Safe(Run(init, acts), o) <==>
            !Run(init, acts).shop.outbox[Run(init, acts).shop.orders[o].outboxId].published
  {
    var s := Run(init, acts);
    assert Reachable(s);
    ReachableInv(s);
    DroppedRun(init, acts);
    assert Orders.OrderOk(s.shop, o);
  }

  /** Before even the exchange is declared nothing is confirmed, so no row is published and nothing can be lost yet. */
  ghost predicate Untouched(s: State) {
    !s.declared ==> !s.bound && s.copies == map[] && s.handlers == map[]
  }

  lemma UntouchedStep(s: State, a: Action)
    requires Untouched(s) && Enabled(s, a)
    ensures Untouched(Apply(s, a))
  {
  }

  lemma {:induction false} UntouchedRun(s: State, acts: seq<Action>)
    requires Untouched(s) && Valid(s, acts)
    ensures Untouched(Run(s, acts))
    decreases |acts|
  {
    if acts != [] {
      UntouchedStep(s, acts[0]);
      UntouchedRun(Apply(s, acts[0]), acts[1..]);
    }
  }

  lemma NothingPublishedBeforeTheExchange(s: State, x: nat)
    requires Reachable(s) && !s.declared && x in s.shop.outbox
    ensures !s.shop.outbox[x].published && s.copies == map[]
  {
    ReachableInv(s);
    var init, acts :| Init(init) && Valid(init, acts) && s == Run(init, acts);
    UntouchedRun(init, acts);
    if s.shop.outbox[x].published {
      PublishedRowHasACopy(s, x);
    }
  }
}
