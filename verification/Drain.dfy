/**
 * The pipeline drains: from any reachable state, relay batches and deliveries that meet no failure can go on
 * only a bounded number of steps, some such step is possible while anything is outstanding, and when none is
 * left every order has its effect or a dead-lettered copy.
 */
module Drain {
  import opened Options
  import opened Messages
  import opened Sums
  import opened Pipeline
  import opened PipelineInvariant
  import opened PipelineTheorems
  import Orders

  /** The steps a failure-free relay and consumer take. A delivery whose handler is gone goes back to the queue. */
  ghost predicate Smooth(s: State, a: Action) {
    match a
    case RelayClaim(r, limit, rows) => rows != []
    case Return(c, exhausted) =>
      !exhausted && c in s.copies && s.copies[c].place.InFlight? && s.copies[c].place.h !in s.handlers
    case RelayAttempt(_) => true
    case RelaySend(_) => true
    case RelayMark(_) => true
    case RelayCommit(_) => true
    case Deliver(_) => true
    case Reject(_) => true
    case Parse(_) => true
    case InsertMarker(_) => true
    case Skip(_) => true
    case InsertEffect(_) => true
    case CommitEffect(_) => true
    case Ack(_) => true
    case _ => false
  }

  // ---- The measure ----

  ghost function AvailableRows(s: State): set<nat> {
    set x | x in s.shop.outbox && Available(s, x)
  }

  predicate Orphaned(s: State, c: nat) {
    c in s.copies && s.copies[c].place.InFlight? && s.copies[c].place.h !in s.handlers
  }

  /** Deliveries whose handler is gone. */
  ghost function Orphans(s: State): set<nat> {
    set c | c in s.copies && Orphaned(s, c)
  }

  function RelayWeight(tx: RelayTx): int {
    1 + 9 * (|tx.rows| - tx.done) - match tx.phase { case Idle => 0 case Attempted => 1 case Sent => 8 }
  }

  function HandlerWeight(handler: Handler): int {
    match handler.phase
    case Received => 5
    case Parsed => 4
    case Marked => 3
    case Effected => 2
    case Finished(_) => 1
  }

  function CopyWeight(copy: Copy): int {
    if copy.place.Queued? then 6 else 0
  }

  /** Unclaimed unpublished rows, what open batches still have to do, and what every message still has to go through. */
  ghost function Potential(s: State): int {
    11 * |AvailableRows(s)| + 7 * |Orphans(s)|
    + Total(s.relays, RelayWeight) + Total(s.copies, CopyWeight) + Total(s.handlers, HandlerWeight)
  }

  lemma PotentialNonNegative(s: State)
    requires RelayInv(s)
    ensures Potential(s) >= 0
  {
    forall r | r in s.relays ensures RelayWeight(s.relays[r]) >= 0 {
      assert RelayOk(s, r);
    }
    TotalNonNegative(s.relays, RelayWeight);
    TotalNonNegative(s.copies, CopyWeight);
    TotalNonNegative(s.handlers, HandlerWeight);
  }

  // ---- Each smooth step lowers the measure ----

  lemma SameRowsSameAvailable(s: State, s': State)
    requires s'.shop.outbox == s.shop.outbox && s'.relays.Keys == s.relays.Keys
    requires forall r | r in s.relays :: s'.relays[r].rows == s.relays[r].rows
    ensures AvailableRows(s') == AvailableRows(s)
  {
    forall x | x in s.shop.outbox ensures Locked(s', x) == Locked(s, x) {
    }
  }

  lemma ClaimTakesRows(s: State, r: nat, limit: nat, rows: seq<nat>)
    requires r !in s.relays && IsBatch(s, limit, rows)
    ensures |AvailableRows(WithRelay(s, r, RelayTx(rows, 0, Idle)))| == |AvailableRows(s)| - |rows|
  {
    var s' := WithRelay(s, r, RelayTx(rows, 0, Idle));
    var taken := Members(rows);
    forall x | x in s.shop.outbox ensures Locked(s', x) == (Locked(s, x) || x in rows) {
      assert forall q | q in s.relays :: s'.relays[q] == s.relays[q];
      assert s'.relays[r].rows == rows;
    }
    assert AvailableRows(s') == AvailableRows(s) - taken;
    forall x | x in taken ensures x in AvailableRows(s) {
      var i :| 0 <= i < |rows| && rows[i] == x;
      assert Available(s, rows[i]);
    }
    DistinctCard(rows);
    assert |AvailableRows(s) - taken| == |AvailableRows(s)| - |taken|;
  }

  lemma ClaimLowers(s: State, r: nat, limit: nat, rows: seq<nat>)
    requires r !in s.relays && IsBatch(s, limit, rows)
    ensures Potential(WithRelay(s, r, RelayTx(rows, 0, Idle))) == Potential(s) - 2 * |rows| + 1
  {
    var s' := WithRelay(s, r, RelayTx(rows, 0, Idle));
    ClaimTakesRows(s, r, limit, rows);
    TotalSet(s.relays, RelayWeight, r, RelayTx(rows, 0, Idle));
    assert Orphans(s') == Orphans(s);
  }

  /** Attempting and marking a row take one step off the batch. */
  lemma QuietRelayStepLowers(s: State, r: nat, tx: RelayTx)
    requires r in s.relays && tx.rows == s.relays[r].rows && RelayWeight(tx) < RelayWeight(s.relays[r])
    ensures Potential(WithRelay(s, r, tx)) < Potential(s)
  {
    var s' := WithRelay(s, r, tx);
    TotalSet(s.relays, RelayWeight, r, tx);
    SameRowsSameAvailable(s, s');
    assert Orphans(s') == Orphans(s);
  }

  /** A fresh message is not in flight. */
  lemma PublishKeepsOrphans(s: State, s': State)
    requires BrokerInv(s) && s'.handlers == s.handlers
    requires exists copy :: s'.copies == s.copies[s.nextCopy := copy] && !copy.place.InFlight?
    ensures Orphans(s') == Orphans(s)
  {
    assert s.nextCopy in s.copies ==> CopyOk(s, s.nextCopy);
  }

  lemma SendTotals(s: State, r: nat)
    requires BrokerInv(s) && r in s.relays && s.relays[r].phase.Attempted? && s.relays[r].done < |s.relays[r].rows|
    requires s.relays[r].rows[s.relays[r].done] in s.shop.outbox
    ensures Total(Send(s, r).relays, RelayWeight) == Total(s.relays, RelayWeight) - 7
    ensures Total(Send(s, r).copies, CopyWeight) <= Total(s.copies, CopyWeight) + 6
  {
    assert s.nextCopy in s.copies ==> CopyOk(s, s.nextCopy);
    TotalSet(s.relays, RelayWeight, r, s.relays[r].(phase := Sent));
    TotalSet(s.copies, CopyWeight, s.nextCopy, Send(s, r).copies[s.nextCopy]);
  }

  /** Sending a row costs the batch seven and gives the broker a message worth at most six. */
  lemma SendLowers(s: State, r: nat)
    requires BrokerInv(s) && r in s.relays && s.relays[r].phase.Attempted? && s.relays[r].done < |s.relays[r].rows|
    requires s.relays[r].rows[s.relays[r].done] in s.shop.outbox
    ensures Potential(Send(s, r)) < Potential(s)
  {
    var s' := Send(s, r);
    assert s'.copies == s.copies[s.nextCopy := s'.copies[s.nextCopy]];
    PublishKeepsOrphans(s, s');
    SameRowsSameAvailable(s, s');
    SendTotals(s, r);
  }

  lemma CommitLowers(s: State, r: nat)
    requires RelayInv(s) && Enabled(s, RelayCommit(r))
    ensures Potential(CommitRelay(s, r)) < Potential(s)
  {
    var s', tx := CommitRelay(s, r), s.relays[r];
    TotalRemove(s.relays, RelayWeight, r);
    forall x | x in s.shop.outbox ensures Available(s', x) == Available(s, x) {
      CommitFreesNothing(s, r, x);
    }
    assert AvailableRows(s') == AvailableRows(s);
    assert Orphans(s') == Orphans(s);
  }

  /** Rows of the committed batch are published when their locks go. */
  lemma CommitFreesNothing(s: State, r: nat, x: nat)
    requires Enabled(s, RelayCommit(r)) && x in s.shop.outbox
    ensures Available(CommitRelay(s, r), x) == Available(s, x)
  {
    var s', tx := CommitRelay(s, r), s.relays[r];
    if x in tx.rows {
      assert Locked(s, x) && s'.shop.outbox[x].published;
    } else if Locked(s, x) {
      var q :| q in s.relays && x in s.relays[q].rows;
      assert q in s'.relays && x in s'.relays[q].rows;
    }
  }

  /** A handler moves on: only its own weight changes, since the set of live handlers stays the same. */
  lemma HandlerMoveLowers(s: State, s': State, h: nat, handler: Handler)
    requires h in s.handlers && s'.handlers == s.handlers[h := handler]
    requires HandlerWeight(handler) < HandlerWeight(s.handlers[h])
    requires s'.copies == s.copies && s'.relays == s.relays && s'.shop == s.shop
    ensures Potential(s') < Potential(s)
  {
    TotalSet(s.handlers, HandlerWeight, h, handler);
    SameRowsSameAvailable(s, s');
    assert Orphans(s') == Orphans(s);
  }

  lemma DeliverKeepsOrphans(s: State, c: nat)
    requires BrokerInv(s) && Enabled(s, Deliver(c))
    ensures Orphans(DoDeliver(s, c)) == Orphans(s)
  {
    forall d | d in s.copies ensures d in Orphans(DoDeliver(s, c)) <==> d in Orphans(s) {
      assert CopyOk(s, d);
    }
  }

  lemma DeliverLowers(s: State, c: nat)
    requires BrokerInv(s) && ConsumerInv(s) && Enabled(s, Deliver(c))
    ensures Potential(DoDeliver(s, c)) < Potential(s)
  {
    var s', h := DoDeliver(s, c), s.nextHandler;
    assert h in s.handlers ==> HandlerOk(s, h);
    DeliverKeepsOrphans(s, c);
    SameRowsSameAvailable(s, s');
    TotalSet(s.handlers, HandlerWeight, h, s'.handlers[h]);
    TotalSet(s.copies, CopyWeight, c, s'.copies[c]);
  }

  lemma CloseKeepsOrphan(s: State, h: nat, place: Place, c: nat)
    requires BrokerInv(s) && h in s.handlers && s.handlers[h].copy in s.copies && (place.Acked? || place.Dead?)
    requires c in s.copies
    ensures Orphaned(Close(s, h, place), c) <==> Orphaned(s, c)
  {
    assert CopyOk(s, c);
  }

  lemma CloseKeepsOrphans(s: State, h: nat, place: Place)
    requires BrokerInv(s) && ConsumerInv(s) && h in s.handlers && (place.Acked? || place.Dead?)
    ensures Orphans(Close(s, h, place)) == Orphans(s)
  {
    assert HandlerOk(s, h);
    forall c | c in s.copies ensures Orphaned(Close(s, h, place), c) <==> Orphaned(s, c) {
      CloseKeepsOrphan(s, h, place, c);
    }
  }

  lemma CloseTotals(s: State, h: nat, place: Place)
    requires h in s.handlers && (place.Acked? || place.Dead?)
    ensures Total(Close(s, h, place).copies, CopyWeight) == Total(s.copies, CopyWeight)
    ensures Total(Close(s, h, place).handlers, HandlerWeight) < Total(s.handlers, HandlerWeight)
  {
    var s', c := Close(s, h, place), s.handlers[h].copy;
    TotalRemove(s.handlers, HandlerWeight, h);
    if Owns(s, h) {
      TotalSet(s.copies, CopyWeight, c, s'.copies[c]);
    }
  }

  lemma CloseLowers(s: State, h: nat, place: Place)
    requires BrokerInv(s) && ConsumerInv(s) && h in s.handlers && (place.Acked? || place.Dead?)
    ensures Potential(Close(s, h, place)) < Potential(s)
  {
    CloseKeepsOrphans(s, h, place);
    SameRowsSameAvailable(s, Close(s, h, place));
    CloseTotals(s, h, place);
  }

  lemma ReturnFreesOrphan(s: State, s': State, c: nat)
    requires c in Orphans(s) && s'.handlers == s.handlers
    requires s'.copies == s.copies[c := s.copies[c].(place := Queued)]
    ensures |Orphans(s')| == |Orphans(s)| - 1
    ensures Total(s'.copies, CopyWeight) == Total(s.copies, CopyWeight) + 6
  {
    assert Orphans(s') == Orphans(s) - {c};
    TotalSet(s.copies, CopyWeight, c, s'.copies[c]);
  }

  /** Taking back an orphaned delivery is worth seven, and the message in the queue costs six. */
  lemma ReturnLowers(s: State, c: nat)
    requires c in Orphans(s)
    ensures Potential(s.(copies := s.copies[c := s.copies[c].(place := Queued)])) < Potential(s)
  {
    var s' := s.(copies := s.copies[c := s.copies[c].(place := Queued)]);
    ReturnFreesOrphan(s, s', c);
    SameRowsSameAvailable(s, s');
  }

  lemma HandlerStepLowers(s: State, a: Action)
    requires Enabled(s, a)
    requires a.Parse? || a.InsertMarker? || a.Skip? || a.InsertEffect? || a.CommitEffect?
    ensures Potential(Apply(s, a)) < Potential(s)
  {
    var s' := Apply(s, a);
    HandlerMoveLowers(s, s', a.h, s'.handlers[a.h]);
  }

  lemma RelayStepLowers(s: State, a: Action)
    requires Enabled(s, a) && (a.RelayAttempt? || a.RelayMark?)
    ensures Potential(Apply(s, a)) < Potential(s)
  {
    QuietRelayStepLowers(s, a.r, Apply(s, a).relays[a.r]);
  }

  lemma RelaySideLowers(s: State, a: Action)
    requires RelayInv(s) && BrokerInv(s) && Enabled(s, a)
    requires a.RelayClaim? || a.RelayAttempt? || a.RelaySend? || a.RelayMark? || a.RelayCommit?
    requires a.RelayClaim? ==> a.rows != []
    ensures Potential(Apply(s, a)) < Potential(s)
  {
    match a
    case RelayClaim(r, limit, rows) => ClaimLowers(s, r, limit, rows);
    case RelayAttempt(r) => RelayStepLowers(s, a);
    case RelaySend(r) => SendLowers(s, r);
    case RelayMark(r) => RelayStepLowers(s, a);
    case RelayCommit(r) => CommitLowers(s, r);
  }

  lemma DeliverySideLowers(s: State, a: Action)
    requires BrokerInv(s) && ConsumerInv(s) && Enabled(s, a)
    requires a.Deliver? || a.Return? || a.Reject? || a.Ack?
    requires a.Return? ==> !a.exhausted && a.c in Orphans(s)
    ensures Potential(Apply(s, a)) < Potential(s)
  {
    match a
    case Deliver(c) => DeliverLowers(s, c);
    case Return(c, exhausted) => ReturnLowers(s, c);
    case Reject(h) => CloseLowers(s, h, Dead);
    case Ack(h) => CloseLowers(s, h, Acked);
  }

  lemma SmoothStepLowers(s: State, a: Action)
    requires RelayInv(s) && BrokerInv(s) && ConsumerInv(s) && Enabled(s, a) && Smooth(s, a)
    ensures Potential(Apply(s, a)) < Potential(s)
  {
    if a.RelayClaim? || a.RelayAttempt? || a.RelaySend? || a.RelayMark? || a.RelayCommit? {
      RelaySideLowers(s, a);
    } else if a.Deliver? || a.Return? || a.Reject? || a.Ack? {
      DeliverySideLowers(s, a);
    } else {
      HandlerStepLowers(s, a);
    }
  }

  // ---- Something smooth is possible while anything is outstanding ----

  ghost predicate Outstanding(s: State) {
    || (exists x :: x in s.shop.outbox && !s.shop.outbox[x].published)
    || s.relays != map[] || s.handlers != map[]
    || (exists c :: c in s.copies && (s.copies[c].place.Queued? || s.copies[c].place.InFlight?))
  }

  /** Any non-empty set of rows has a first one in (created_at, id) order. */
  lemma {:induction false} FirstRow(outbox: map<nat, Orders.OutboxRow>, rows: set<nat>) returns (first: nat)
    requires rows != {} && rows <= outbox.Keys
    ensures first in rows && forall y | y in rows && y != first :: Before(outbox, first, y)
    decreases |rows|
  {
    var x :| x in rows;
    if rows == {x} {
      first := x;
    } else {
      var rest := FirstRow(outbox, rows - {x});
      first := if Before(outbox, x, rest) then x else rest;
      forall y | y in rows && y != first ensures Before(outbox, first, y) {
        assert y != x ==> y in rows - {x};
      }
    }
  }

  lemma SomeRelayStep(s: State, r: nat) returns (a: Action)
    requires RelayInv(s) && s.declared && r in s.relays
    ensures Smooth(s, a) && Enabled(s, a)
  {
    var tx := s.relays[r];
    assert RelayOk(s, r);
    match tx.phase {
      case Idle => a := if tx.done == |tx.rows| then RelayCommit(r) else RelayAttempt(r);
      case Attempted => a := RelaySend(r);
      case Sent => a := RelayMark(r);
    }
  }

  /** A handler waiting for a marker waits for one whose own next step never waits. */
  lemma SomeHandlerStep(s: State, h: nat) returns (a: Action)
    requires ConsumerInv(s) && h in s.handlers
    ensures Smooth(s, a) && Enabled(s, a)
  {
    var handler := s.handlers[h];
    assert HandlerOk(s, h);
    match handler.phase {
      case Received => a := if Accepted(handler.msg) then Parse(h) else Reject(h);
      case Parsed =>
        if IdOf(handler.msg) in s.processed {
          a := Skip(h);
        } else if g :| g in s.handlers && HoldsMarker(s.handlers[g]) && IdOf(s.handlers[g].msg) == IdOf(handler.msg) {
          a := MarkerHolderStep(s, g);
        } else {
          a := InsertMarker(h);
        }
      case Finished(_) => a := Ack(h);
      case _ => a := MarkerHolderStep(s, h);
    }
  }

  lemma MarkerHolderStep(s: State, g: nat) returns (a: Action)
    requires ConsumerInv(s) && g in s.handlers && HoldsMarker(s.handlers[g])
    ensures Smooth(s, a) && Enabled(s, a)
  {
    assert HandlerOk(s, g);
    a := if s.handlers[g].phase.Marked? then InsertEffect(g) else CommitEffect(g);
  }

  /** With no batch open, the first unpublished row can be claimed. */
  lemma SomeClaim(s: State, x: nat) returns (a: Action)
    requires s.relays == map[] && x in s.shop.outbox && !s.shop.outbox[x].published
    ensures Smooth(s, a) && Enabled(s, a)
  {
    assert x in AvailableRows(s);
    var first := FirstRow(s.shop.outbox, AvailableRows(s));
    a := RelayClaim(0, 1, [first]);
    forall y | y in s.shop.outbox && Available(s, y) && y !in [first] ensures Before(s.shop.outbox, first, y) {
      assert y in AvailableRows(s);
    }
  }

  lemma SmoothStepExists(s: State) returns (a: Action)
    requires RelayInv(s) && ConsumerInv(s) && s.declared && Outstanding(s)
    ensures Smooth(s, a) && Enabled(s, a)
  {
    if r :| r in s.relays {
      a := SomeRelayStep(s, r);
    } else if h :| h in s.handlers {
      a := SomeHandlerStep(s, h);
    } else if x :| x in s.shop.outbox && !s.shop.outbox[x].published {
      a := SomeClaim(s, x);
    } else {
      var c :| c in s.copies && (s.copies[c].place.Queued? || s.copies[c].place.InFlight?);
      a := if s.copies[c].place.Queued? then Deliver(c) else Return(c, false);
    }
  }

  // ---- Drain ----

  ghost predicate SmoothRun(s: State, acts: seq<Action>)
    requires Valid(s, acts)
    decreases |acts|
  {
    acts == [] || (Smooth(s, acts[0]) && SmoothRun(Apply(s, acts[0]), acts[1..]))
  }

  lemma DeclaredStays(s: State, a: Action)
    requires Enabled(s, a)
    ensures s.declared ==> Apply(s, a).declared
  {
  }

  /** No failure-free continuation is longer than the measure of where it starts. */
  lemma {:induction false} SmoothRunsAreBounded(s: State, acts: seq<Action>)
    requires Inv(s) && Valid(s, acts) && SmoothRun(s, acts)
    ensures |acts| <= Potential(s) - Potential(Run(s, acts)) && Inv(Run(s, acts))
    ensures s.declared ==> Run(s, acts).declared
    decreases |acts|
  {
    if acts != [] {
      InvStep(s, acts[0]);
      SmoothStepLowers(s, acts[0]);
      DeclaredStays(s, acts[0]);
      SmoothRunsAreBounded(Apply(s, acts[0]), acts[1..]);
    }
  }

  ghost predicate Settled(s: State, o: nat)
    requires o in s.shop.orders
  {
    EventIdOf(o) in s.effects || exists c :: c in CopiesOf(s, s.shop.orders[o].outboxId) && s.copies[c].place.Dead?
  }

  /** Where a failure-free continuation stops: every row is published, and every order has its effect or a dead-lettered
      copy, unless all copies of its row were dropped before the queue was bound. */
  ghost predicate Drained(s: State) {
    && (forall x | x in s.shop.outbox :: s.shop.outbox[x].published)
    && (forall o {:trigger Settled(s, o)} | o in s.shop.orders ::
          Settled(s, o) || !Routed(s, s.shop.orders[o].outboxId))
  }

  lemma RoutedAndQuiescentIsSettled(s: State, o: nat)
    requires Inv(s) && !Outstanding(s) && o in s.shop.orders && Routed(s, s.shop.orders[o].outboxId)
    ensures Settled(s, o)
  {
    var c :| c in CopiesOf(s, s.shop.orders[o].outboxId) && !s.copies[c].place.Unrouted?;
    assert Orders.OrderOk(s.shop, o) && CopyOk(s, c);
  }

  lemma QuiescentIsDrained(s: State)
    requires Inv(s) && !Outstanding(s)
    ensures Drained(s)
  {
    forall o | o in s.shop.orders ensures Settled(s, o) || !Routed(s, s.shop.orders[o].outboxId) {
      if Routed(s, s.shop.orders[o].outboxId) {
        RoutedAndQuiescentIsSettled(s, o);
      }
    }
  }

  /** Only steps that are not smooth could still happen. */
  ghost predicate Stopped(s: State) {
    forall a {:trigger Enabled(s, a)} :: Smooth(s, a) ==> !Enabled(s, a)
  }

  lemma StoppedIsQuiescent(s: State)
    requires Inv(s) && s.declared && Stopped(s)
    ensures !Outstanding(s)
  {
    if Outstanding(s) {
      var a := SmoothStepExists(s);
    }
  }

  /** From any reachable state whose exchange is declared: failure-free continuations are bounded, and one that cannot
      be continued has drained the pipeline. */
  lemma EveryFailureFreeRunDrains(s: State, acts: seq<Action>)
    requires Reachable(s) && s.declared && Valid(s, acts) && SmoothRun(s, acts)
    ensures |acts| <= Potential(s)
    ensures Stopped(Run(s, acts)) ==> Drained(Run(s, acts))
  {
    ReachableInv(s);
    SmoothRunsAreBounded(s, acts);
    PotentialNonNegative(Run(s, acts));
    if Stopped(Run(s, acts)) {
      StoppedIsQuiescent(Run(s, acts));
      QuiescentIsDrained(Run(s, acts));
    }
  }

  /** And every order that was secure to begin with has then its effect or a dead-lettered copy. */
  lemma SecureOrdersSettle(s: State, acts: seq<Action>, o: nat)
    requires Reachable(s) && s.bound && Valid(s, acts) && SmoothRun(s, acts) && Stopped(Run(s, acts))
    requires o in Run(s, acts).shop.orders
    requires o in s.shop.orders ==> s.shop.orders[o].outboxId in s.shop.outbox && Secure(s, o)
    ensures Settled(Run(s, acts), o)
  {
    ReachableInv(s);
    SmoothRunsAreBounded(s, acts);
    StoppedIsQuiescent(Run(s, acts));
    OrdersStaySecure(s, acts, o);
    if Routed(Run(s, acts), Run(s, acts).shop.orders[o].outboxId) {
      RoutedAndQuiescentIsSettled(Run(s, acts), o);
    }
  }
}
