/** The inductive invariant of the pipeline, spanning create, relay, broker and consumer. */
module PipelineInvariant {
  import opened Options
  import opened Messages
  import opened Pipeline
  import Orders

  // ---- Relay side ----

  ghost predicate RelayOk(s: State, r: nat)
    requires r in s.relays
  {
    var tx := s.relays[r];
    && Distinct(tx.rows) && tx.done <= |tx.rows| && (!tx.phase.Idle? ==> tx.done < |tx.rows|)
    && forall i | 0 <= i < |tx.rows| :: tx.rows[i] in s.shop.outbox && !s.shop.outbox[tx.rows[i]].published
  }

  ghost predicate NoShare(a: RelayTx, b: RelayTx) {
    forall x | x in a.rows :: x !in b.rows
  }

  ghost function CopiesOf(s: State, x: nat): set<nat> {
    set c | c in s.copies && s.copies[c].source == Some(x)
  }

  ghost predicate SentInOpen(s: State, x: nat) {
    exists r :: r in s.relays && SentBy(s.relays[r], x)
  }

  /** Every copy of a row is accounted for: by a batch that rolled back after sending it, by the open batch
      that has sent it, or by the batch that published it. */
  ghost predicate RowOk(s: State, x: nat)
    requires x in s.shop.outbox
  {
    && s.shop.outbox[x].attempts == (if s.shop.outbox[x].published then 1 else 0)
    && |CopiesOf(s, x)| == Undone(s, x) + (if SentInOpen(s, x) then 1 else 0)
                                        + (if s.shop.outbox[x].published then 1 else 0)
  }

  ghost predicate RelayInv(s: State) {
    && (forall r {:trigger RelayOk(s, r)} | r in s.relays :: RelayOk(s, r))
    && (forall r, q {:trigger NoShare(s.relays[r], s.relays[q])} | r in s.relays && q in s.relays && r != q ::
          NoShare(s.relays[r], s.relays[q]))
    && (forall x {:trigger RowOk(s, x)} | x in s.shop.outbox :: RowOk(s, x))
    && s.undone.Keys <= s.shop.outbox.Keys
  }

  // ---- Broker ----

  ghost predicate CopyOk(s: State, c: nat)
    requires c in s.copies
  {
    var copy := s.copies[c];
    && c < s.nextCopy
    && (copy.place.InFlight? ==> copy.place.h < s.nextHandler)
    && (copy.place.InFlight? && copy.place.h in s.handlers ==> s.handlers[copy.place.h].copy == c)
    && (copy.place.Acked? ==> Accepted(copy.msg) && IdOf(copy.msg) in s.processed)
    && (copy.source.Some? ==>
          copy.source.value in s.shop.outbox && copy.msg == s.shop.outbox[copy.source.value].payload)
    && (copy.source.None? ==> s.foreign)
  }

  ghost predicate BrokerInv(s: State) {
    forall c {:trigger CopyOk(s, c)} | c in s.copies :: CopyOk(s, c)
  }

  // ---- Consumer side ----

  ghost predicate HandlerOk(s: State, h: nat)
    requires h in s.handlers
  {
    var handler := s.handlers[h];
    && h < s.nextHandler
    && handler.copy in s.copies && handler.msg == s.copies[handler.copy].msg
    && (!handler.phase.Received? ==> Accepted(handler.msg))
    && (HoldsMarker(handler) ==> IdOf(handler.msg) !in s.processed)
    && (handler.phase.Finished? ==> IdOf(handler.msg) in s.processed)
  }

  /** The marker's primary key: at most one open transaction holds it for an event. */
  ghost predicate Exclusive(a: Handler, b: Handler) {
    HoldsMarker(a) && HoldsMarker(b) ==> IdOf(a.msg) != IdOf(b.msg)
  }

  ghost predicate EffectOk(s: State, e: string)
    requires e in s.effects
  {
    !s.foreign ==> s.effects[e] in s.shop.orders && e == EventIdOf(s.effects[e])
  }

  ghost predicate ConsumerInv(s: State) {
    && (forall h {:trigger HandlerOk(s, h)} | h in s.handlers :: HandlerOk(s, h))
    && (forall h, g {:trigger Exclusive(s.handlers[h], s.handlers[g])} | h in s.handlers && g in s.handlers && h != g ::
          Exclusive(s.handlers[h], s.handlers[g]))
    && s.processed == s.effects.Keys
    && (forall e {:trigger e in s.processed} :: e in s.processed <==> e in s.applied)
    && Distinct(s.applied)
    && (forall e {:trigger EffectOk(s, e)} | e in s.effects :: EffectOk(s, e))
  }

  ghost predicate Inv(s: State) {
    Orders.Inv(s.shop) && RelayInv(s) && BrokerInv(s) && ConsumerInv(s) && (s.bound ==> s.declared)
  }

  // ---- Relay steps ----

  /** Nothing the relay side depends on has changed. */
  lemma RelayInvFrame(s: State, s': State)
    requires RelayInv(s)
    requires s'.relays == s.relays && s'.undone == s.undone && s'.shop.outbox == s.shop.outbox
    requires forall x | x in s.shop.outbox :: CopiesOf(s', x) == CopiesOf(s, x)
    ensures RelayInv(s')
  {
    forall r | r in s'.relays ensures RelayOk(s', r) {
      assert RelayOk(s, r);
    }
    forall r, q | r in s'.relays && q in s'.relays && r != q ensures NoShare(s'.relays[r], s'.relays[q]) {
      assert NoShare(s.relays[r], s.relays[q]);
    }
    forall x | x in s'.shop.outbox ensures RowOk(s', x) {
      assert RowOk(s, x);
      assert SentInOpen(s', x) == SentInOpen(s, x);
    }
  }

  lemma ShopStepKeepsRelay(s: State, a: Orders.Action)
    requires Orders.Inv(s.shop) && RelayInv(s) && BrokerInv(s) && Orders.Enabled(s.shop, a)
    ensures RelayInv(s.(shop := Orders.Apply(s.shop, a)))
  {
    var s' := s.(shop := Orders.Apply(s.shop, a));
    OutboxOnlyGrows(s.shop, a);
    forall r | r in s'.relays ensures RelayOk(s', r) {
      assert RelayOk(s, r);
    }
    forall r, q | r in s'.relays && q in s'.relays && r != q ensures NoShare(s'.relays[r], s'.relays[q]) {
      assert NoShare(s.relays[r], s.relays[q]);
    }
    forall x | x in s'.shop.outbox ensures RowOk(s', x) {
      if x in s.shop.outbox {
        assert RowOk(s, x);
        assert SentInOpen(s', x) == SentInOpen(s, x);
        assert CopiesOf(s', x) == CopiesOf(s, x);
      } else {
        NewRowHasNoCopies(s, x);
        assert CopiesOf(s', x) == CopiesOf(s, x);
        assert SentInOpen(s', x) == SentInOpen(s, x);
      }
    }
  }

  lemma OutboxOnlyGrows(shop: Orders.Shop, a: Orders.Action)
    requires Orders.OpenInv(shop) && Orders.Enabled(shop, a)
    ensures var shop' := Orders.Apply(shop, a);
            && (forall x | x in shop.outbox :: x in shop'.outbox && shop'.outbox[x] == shop.outbox[x])
            && (forall x | x in shop'.outbox && x !in shop.outbox ::
                  !shop'.outbox[x].published && shop'.outbox[x].attempts == 0)
            && shop.orders.Keys <= shop'.orders.Keys
  {
    if a.Replay? {
      Orders.ReplayFrame(shop, a.q, a.step);
    } else if a.Commit? {
      assert Orders.TxOk(shop, a.t);
    }
  }

  lemma NewRowHasNoCopies(s: State, x: nat)
    requires RelayInv(s) && BrokerInv(s) && x !in s.shop.outbox
    ensures CopiesOf(s, x) == {} && !SentInOpen(s, x) && Undone(s, x) == 0
  {
    forall c | c in s.copies ensures s.copies[c].source != Some(x) {
      assert CopyOk(s, c);
    }
    forall r | r in s.relays ensures !SentBy(s.relays[r], x) {
      assert RelayOk(s, r);
    }
  }

  lemma ClaimKeepsRelay(s: State, r: nat, limit: nat, rows: seq<nat>)
    requires RelayInv(s) && r !in s.relays && IsBatch(s, limit, rows)
    ensures RelayInv(WithRelay(s, r, RelayTx(rows, 0, Idle)))
  {
    var s' := WithRelay(s, r, RelayTx(rows, 0, Idle));
    forall q | q in s'.relays ensures RelayOk(s', q) {
      assert q != r ==> RelayOk(s, q);
      assert q == r ==> forall i | 0 <= i < |rows| :: Available(s, rows[i]);
    }
    forall p, q | p in s'.relays && q in s'.relays && p != q ensures NoShare(s'.relays[p], s'.relays[q]) {
      if p != r && q != r {
        assert NoShare(s.relays[p], s.relays[q]);
      } else {
        UnlockedRowsAreApart(s, rows, if p == r then q else p);
      }
    }
    forall x | x in s'.shop.outbox ensures RowOk(s', x) {
      assert RowOk(s, x);
      assert CopiesOf(s', x) == CopiesOf(s, x);
      assert !SentBy(s'.relays[r], x);
      assert SentInOpen(s', x) == SentInOpen(s, x) by {
        assert forall q | q in s.relays :: s'.relays[q] == s.relays[q];
      }
    }
  }

  lemma UnlockedRowsAreApart(s: State, rows: seq<nat>, q: nat)
    requires q in s.relays && forall i | 0 <= i < |rows| :: Available(s, rows[i])
    ensures forall x | x in rows :: x !in s.relays[q].rows
  {
    forall x | x in rows ensures x !in s.relays[q].rows {
      var i :| 0 <= i < |rows| && rows[i] == x;
      assert Available(s, rows[i]);
    }
  }

  /** A relay statement that hands nothing to the broker. */
  lemma QuietMoveKeepsRelay(s: State, r: nat, tx: RelayTx)
    requires RelayInv(s) && r in s.relays && tx.rows == s.relays[r].rows
    requires SentCount(tx) == SentCount(s.relays[r]) && tx.done <= |tx.rows| &&
             (!tx.phase.Idle? ==> tx.done < |tx.rows|)
    ensures RelayInv(WithRelay(s, r, tx))
  {
    var s' := WithRelay(s, r, tx);
    forall q | q in s'.relays ensures RelayOk(s', q) {
      assert RelayOk(s, q);
    }
    forall p, q | p in s'.relays && q in s'.relays && p != q ensures NoShare(s'.relays[p], s'.relays[q]) {
      assert NoShare(s.relays[p], s.relays[q]);
    }
    forall x | x in s'.shop.outbox ensures RowOk(s', x) {
      assert RowOk(s, x);
      assert CopiesOf(s', x) == CopiesOf(s, x);
      assert forall q | q in s.relays :: SentBy(s'.relays[q], x) == SentBy(s.relays[q], x);
    }
  }

  /** A new message with a source adds exactly one copy of that row and none of any other. */
  lemma PublishAddsOneCopy(s: State, msg: Message, source: Option<nat>, x: nat)
    requires BrokerInv(s)
    ensures CopiesOf(Publish(s, msg, source), x) == if source == Some(x) then CopiesOf(s,
            x) + {s.nextCopy} else CopiesOf(s, x)
    ensures s.nextCopy !in CopiesOf(s, x)
  {
    assert s.nextCopy in s.copies ==> CopyOk(s, s.nextCopy);
  }

  lemma UnclaimedIsUnsent(tx: RelayTx, x: nat)
    requires x !in tx.rows
    ensures !SentBy(tx, x)
  {
  }

  lemma SendKeepsRelay(s: State, r: nat)
    requires RelayInv(s) && BrokerInv(s) && Enabled(s, RelaySend(r))
    ensures RelayInv(Send(s, r))
  {
    var s' := Send(s, r);
    forall q | q in s'.relays ensures RelayOk(s', q) {
      assert RelayOk(s, q);
    }
    forall p, q | p in s'.relays && q in s'.relays && p != q ensures NoShare(s'.relays[p], s'.relays[q]) {
      assert NoShare(s.relays[p], s.relays[q]);
    }
    forall x | x in s'.shop.outbox ensures RowOk(s', x) {
      SendKeepsRow(s, r, x);
    }
  }

  lemma SendKeepsRow(s: State, r: nat, x: nat)
    requires RelayInv(s) && BrokerInv(s) && Enabled(s, RelaySend(r)) && x in s.shop.outbox
    ensures RowOk(Send(s, r), x)
  {
    var sent := s.relays[r].rows[s.relays[r].done];
    assert RowOk(s, x);
    PublishAddsOneCopy(s, s.shop.outbox[sent].payload, Some(sent), x);
    SendMovesOneRow(s, r, x);
  }

  /** Only the row just sent becomes "sent in an open batch"; it was not before. */
  lemma SendMovesOneRow(s: State, r: nat, x: nat)
    requires RelayInv(s) && Enabled(s, RelaySend(r))
    ensures var sent := s.relays[r].rows[s.relays[r].done];
            && SentInOpen(Send(s, r), x) == (SentInOpen(s, x) || x == sent)
            && !SentInOpen(s, sent)
            && CopiesOf(Send(s, r), x) == CopiesOf(Publish(s, s.shop.outbox[sent].payload, Some(sent)), x)
  {
    var s', tx := Send(s, r), s.relays[r];
    var sent := tx.rows[tx.done];
    assert RelayOk(s, r);
    assert tx.rows[..tx.done + 1] == tx.rows[..tx.done] + [sent];
    assert SentBy(s'.relays[r], x) == (SentBy(tx, x) || x == sent);
    assert forall q | q in s.relays && q != r :: s'.relays[q] == s.relays[q];
    forall q | q in s.relays ensures !SentBy(s.relays[q], sent) {
      if q == r {
        assert forall i | 0 <= i < tx.done :: tx.rows[..tx.done][i] == tx.rows[i] != tx.rows[tx.done];
      } else {
        assert NoShare(s.relays[r], s.relays[q]) && sent in tx.rows;
        UnclaimedIsUnsent(s.relays[q], sent);
      }
    }
  }

  lemma CommitKeepsRelay(s: State, r: nat)
    requires RelayInv(s) && Enabled(s, RelayCommit(r))
    ensures RelayInv(CommitRelay(s, r))
  {
    var s', rows := CommitRelay(s, r), s.relays[r].rows;
    assert RelayOk(s, r) && rows[..|rows|] == rows;
    forall q | q in s'.relays ensures RelayOk(s', q) {
      assert RelayOk(s, q) && NoShare(s.relays[q], s.relays[r]);
    }
    forall p, q | p in s'.relays && q in s'.relays && p != q ensures NoShare(s'.relays[p], s'.relays[q]) {
      assert NoShare(s.relays[p], s.relays[q]);
    }
    forall x | x in s'.shop.outbox ensures RowOk(s', x) {
      assert RowOk(s, x);
      EndMovesItsRows(s, r, s', x);
    }
  }

  /** When batch r ends, exactly the rows it had sent stop being "sent in an open batch". */
  lemma EndMovesItsRows(s: State, r: nat, s': State, x: nat)
    requires RelayInv(s) && r in s.relays
    requires s'.relays == s.relays - {r} && s'.copies == s.copies
    ensures SentInOpen(s', x) == (SentInOpen(s, x) && !SentBy(s.relays[r], x))
    ensures CopiesOf(s', x) == CopiesOf(s, x)
  {
    if SentBy(s.relays[r], x) {
      forall q | q in s'.relays ensures !SentBy(s'.relays[q], x) {
        assert NoShare(s.relays[r], s.relays[q]);
        assert x in s.relays[r].rows;
        UnclaimedIsUnsent(s.relays[q], x);
      }
    } else if SentInOpen(s, x) {
      var q :| q in s.relays && SentBy(s.relays[q], x);
      assert q in s'.relays && SentBy(s'.relays[q], x);
    }
  }

  lemma AbortKeepsRelay(s: State, r: nat)
    requires RelayInv(s) && r in s.relays
    ensures RelayInv(AbortRelay(s, r))
  {
    var s' := AbortRelay(s, r);
    assert RelayOk(s, r);
    forall q | q in s'.relays ensures RelayOk(s', q) {
      assert RelayOk(s, q);
    }
    forall p, q | p in s'.relays && q in s'.relays && p != q ensures NoShare(s'.relays[p], s'.relays[q]) {
      assert NoShare(s.relays[p], s.relays[q]);
    }
    forall x | x in s'.shop.outbox ensures RowOk(s', x) {
      assert RowOk(s, x);
      EndMovesItsRows(s, r, s', x);
      assert SentBy(s.relays[r], x) ==> SentInOpen(s, x);
    }
  }

  lemma AttemptKeepsRelay(s: State, r: nat)
    requires RelayInv(s) && Enabled(s, RelayAttempt(r))
    ensures RelayInv(WithRelay(s, r, s.relays[r].(phase := Attempted)))
  {
    assert RelayOk(s, r);
    QuietMoveKeepsRelay(s, r, s.relays[r].(phase := Attempted));
  }

  lemma MarkKeepsRelay(s: State, r: nat)
    requires RelayInv(s) && Enabled(s, RelayMark(r))
    ensures RelayInv(WithRelay(s, r, s.relays[r].(phase := Idle, done := s.relays[r].done + 1)))
  {
    assert RelayOk(s, r);
    QuietMoveKeepsRelay(s, r, s.relays[r].(phase := Idle, done := s.relays[r].done + 1));
  }

  lemma OtherPublishKeepsRelay(s: State, msg: Message)
    requires RelayInv(s) && BrokerInv(s)
    ensures RelayInv(Publish(s, msg, None).(foreign := true))
  {
    var s' := Publish(s, msg, None).(foreign := true);
    forall x | x in s.shop.outbox ensures CopiesOf(s', x) == CopiesOf(s, x) {
      PublishAddsOneCopy(s, msg, None, x);
    }
    RelayInvFrame(s, s');
  }

  /** Statements of the relay and of create, and messages from elsewhere. */
  predicate RelaySide(a: Action) {
    a.ShopStep? || a.PublishOther? || a.RelayClaim? || a.RelayAttempt? || a.RelaySend? || a.RelayMark? ||
    a.RelayCommit? || a.RelayAbort?
  }

  lemma RelaySideKeepsRelay(s: State, a: Action)
    requires Orders.Inv(s.shop) && RelayInv(s) && BrokerInv(s) && Enabled(s, a) && RelaySide(a)
    ensures RelayInv(Apply(s, a))
  {
    match a
    case ShopStep(sa) => ShopStepKeepsRelay(s, sa);
    case RelayClaim(r, limit, rows) => ClaimKeepsRelay(s, r, limit, rows);
    case RelayAttempt(r) => AttemptKeepsRelay(s, r);
    case RelaySend(r) => SendKeepsRelay(s, r);
    case RelayMark(r) => MarkKeepsRelay(s, r);
    case RelayCommit(r) => CommitKeepsRelay(s, r);
    case RelayAbort(r) => AbortKeepsRelay(s, r);
    case PublishOther(msg) => OtherPublishKeepsRelay(s, msg);
  }

  lemma RelayInvStep(s: State, a: Action)
    requires Orders.Inv(s.shop) && RelayInv(s) && BrokerInv(s) && Enabled(s, a)
    ensures RelayInv(Apply(s, a))
  {
    if RelaySide(a) {
      RelaySideKeepsRelay(s, a);
    } else {
      ConsumerStepKeepsRelay(s, a);
    }
  }

  /** Deliveries and handlers move copies around; they never add, drop or relabel one. */
  lemma ConsumerStepKeepsRelay(s: State, a: Action)
    requires RelayInv(s) && Enabled(s, a) && !RelaySide(a)
    ensures RelayInv(Apply(s, a))
  {
    var s' := Apply(s, a);
    forall x | x in s.shop.outbox ensures CopiesOf(s', x) == CopiesOf(s, x) {
    }
    RelayInvFrame(s, s');
  }

  // ---- Broker steps ----

  /** Rows keep their payload for ever, and event ids once processed stay processed. */
  ghost predicate Grows(s: State, s': State) {
    && (forall x | x in s.shop.outbox :: x in s'.shop.outbox && s'.shop.outbox[x].payload == s.shop.outbox[x].payload)
    && s.shop.orders.Keys <= s'.shop.orders.Keys
    && s.processed <= s'.processed && (s.foreign ==> s'.foreign)
    && s.nextCopy <= s'.nextCopy && s.nextHandler <= s'.nextHandler
  }

  /** Steps of create and of the relay's own tables. */
  predicate ShopSide(a: Action) {
    a.ShopStep? || a.RelayClaim? || a.RelayAttempt? || a.RelayMark? || a.RelayCommit? ||
    a.RelayAbort? || a.DeclareExchange? || a.BindQueue?
  }

  lemma ShopSideFrame(s: State, a: Action)
    requires Orders.OpenInv(s.shop) && Enabled(s, a) && ShopSide(a)
    ensures var s' := Apply(s, a);
            && s'.handlers == s.handlers && s'.copies == s.copies && s'.processed == s.processed
            && s'.effects == s.effects && s'.applied == s.applied && s'.foreign == s.foreign
            && s'.nextCopy == s.nextCopy && s'.nextHandler == s.nextHandler
            && Grows(s, s')
  {
    if a.ShopStep? {
      OutboxOnlyGrows(s.shop, a.a);
    }
  }

  /** A copy that has not moved stays in order when no handler takes over its delivery. */
  lemma CopyKept(s: State, s': State, c: nat)
    requires BrokerInv(s) && Grows(s, s') && c in s.copies && c in s'.copies && s'.copies[c] == s.copies[c]
    requires s.copies[c].place.InFlight? && s.copies[c].place.h in s'.handlers ==>
               s.copies[c].place.h in s.handlers &&
                   s'.handlers[s.copies[c].place.h].copy == s.handlers[s.copies[c].place.h].copy
    ensures CopyOk(s', c)
  {
    assert CopyOk(s, c);
  }

  lemma PublishKeepsBroker(s: State, s': State)
    requires BrokerInv(s) && Grows(s, s') && s'.handlers == s.handlers
    requires s'.copies.Keys == s.copies.Keys + {s.nextCopy} && s'.nextCopy == s.nextCopy + 1
    requires forall c | c in s.copies && c != s.nextCopy :: s'.copies[c] == s.copies[c]
    requires var copy := s'.copies[s.nextCopy];
             && (copy.place.Queued? || copy.place.Unrouted?)
             && (copy.source.Some? ==>
                   copy.source.value in s'.shop.outbox && copy.msg == s'.shop.outbox[copy.source.value].payload)
             && (copy.source.None? ==> s'.foreign)
    ensures BrokerInv(s')
  {
    forall c | c in s'.copies ensures CopyOk(s', c) {
      if c != s.nextCopy {
        CopyKept(s, s', c);
      }
    }
  }

  lemma DeliverKeepsBroker(s: State, c: nat)
    requires BrokerInv(s) && Enabled(s, Deliver(c))
    ensures BrokerInv(DoDeliver(s, c))
  {
    var s' := DoDeliver(s, c);
    forall d | d in s'.copies ensures CopyOk(s', d) {
      assert CopyOk(s, d);
    }
  }

  lemma CloseKeepsBroker(s: State, h: nat, place: Place)
    requires BrokerInv(s) && ConsumerInv(s) && h in s.handlers
    requires place == Dead || (place == Acked && s.handlers[h].phase.Finished?)
    ensures BrokerInv(Close(s, h, place))
  {
    var s' := Close(s, h, place);
    assert HandlerOk(s, h);
    forall c | c in s'.copies ensures CopyOk(s', c) {
      assert CopyOk(s, c);
    }
  }

  lemma RestKeepsBroker(s: State, s': State)
    requires BrokerInv(s) && Grows(s, s') && s'.copies == s.copies
    requires forall h | h in s'.handlers :: h in s.handlers && s'.handlers[h].copy == s.handlers[h].copy
    ensures BrokerInv(s')
  {
    forall c | c in s'.copies ensures CopyOk(s', c) {
      CopyKept(s, s', c);
    }
  }

  lemma ReturnKeepsBroker(s: State, c: nat, exhausted: bool)
    requires BrokerInv(s) && Enabled(s, Return(c, exhausted))
    ensures BrokerInv(Apply(s, Return(c, exhausted)))
  {
    var s' := Apply(s, Return(c, exhausted));
    forall d | d in s'.copies ensures CopyOk(s', d) {
      assert CopyOk(s, d);
    }
  }

  /** A handler moves on with the same delivery; markers and effects may have been committed. */
  lemma PhaseKeepsBroker(s: State, s': State, h: nat, handler: Handler)
    requires BrokerInv(s) && Grows(s, s') && s'.copies == s.copies
    requires h in s.handlers && handler.copy == s.handlers[h].copy && s'.handlers == s.handlers[h := handler]
    ensures BrokerInv(s')
  {
    RestKeepsBroker(s, s');
  }

  lemma CrashKeepsBroker(s: State, h: nat)
    requires BrokerInv(s) && h in s.handlers
    ensures BrokerInv(s.(handlers := s.handlers - {h}))
  {
    RestKeepsBroker(s, s.(handlers := s.handlers - {h}));
  }

  lemma HandlerStepKeepsBroker(s: State, a: Action)
    requires BrokerInv(s) && Enabled(s, a)
    requires a.Parse? || a.InsertMarker? || a.Skip? || a.InsertEffect? || a.CommitEffect? || a.CrashHandler?
    ensures BrokerInv(Apply(s, a))
  {
    match a
    case CrashHandler(h) => CrashKeepsBroker(s, h);
    case CommitEffect(h) => PhaseKeepsBroker(s, DoCommitEffect(s, h), h, s.handlers[h].(phase := Finished(true)));
    case Parse(h) => PhaseKeepsBroker(s, Apply(s, a), h, s.handlers[h].(phase := Parsed));
    case InsertMarker(h) => PhaseKeepsBroker(s, Apply(s, a), h, s.handlers[h].(phase := Marked));
    case Skip(h) => PhaseKeepsBroker(s, Apply(s, a), h, s.handlers[h].(phase := Finished(false)));
    case InsertEffect(h) => PhaseKeepsBroker(s, Apply(s, a), h, s.handlers[h].(phase := Effected));
  }

  lemma SendKeepsBroker(s: State, r: nat)
    requires BrokerInv(s) && Enabled(s, RelaySend(r))
    ensures BrokerInv(Send(s, r))
  {
    PublishKeepsBroker(s, Send(s, r));
  }

  lemma ShopSideKeepsBroker(s: State, a: Action)
    requires Orders.OpenInv(s.shop) && BrokerInv(s) && Enabled(s, a) && ShopSide(a)
    ensures BrokerInv(Apply(s, a))
  {
    ShopSideFrame(s, a);
    RestKeepsBroker(s, Apply(s, a));
  }

  lemma OtherPublishKeepsBroker(s: State, msg: Message)
    requires BrokerInv(s)
    ensures BrokerInv(Publish(s, msg, None).(foreign := true))
  {
    PublishKeepsBroker(s, Publish(s, msg, None).(foreign := true));
  }

  /** Steps that move a message between queue, handlers, acknowledged and dead. */
  predicate Moves(a: Action) {
    a.RelaySend? || a.PublishOther? || a.Deliver? || a.Return? || a.Reject? || a.FailHandler? || a.Ack?
  }

  lemma MoveKeepsBroker(s: State, a: Action)
    requires BrokerInv(s) && ConsumerInv(s) && Enabled(s, a) && Moves(a)
    ensures BrokerInv(Apply(s, a))
  {
    match a
    case RelaySend(r) => SendKeepsBroker(s, r);
    case PublishOther(msg) => OtherPublishKeepsBroker(s, msg);
    case Deliver(c) => DeliverKeepsBroker(s, c);
    case Return(c, exhausted) => ReturnKeepsBroker(s, c, exhausted);
    case Reject(h) => CloseKeepsBroker(s, h, Dead);
    case FailHandler(h) => CloseKeepsBroker(s, h, Dead);
    case Ack(h) => CloseKeepsBroker(s, h, Acked);
  }

  lemma BrokerInvStep(s: State, a: Action)
    requires Orders.OpenInv(s.shop) && BrokerInv(s) && ConsumerInv(s) && Enabled(s, a)
    ensures BrokerInv(Apply(s, a))
  {
    if ShopSide(a) {
      ShopSideKeepsBroker(s, a);
    } else if Moves(a) {
      MoveKeepsBroker(s, a);
    } else {
      HandlerStepKeepsBroker(s, a);
    }
  }

  // ---- Consumer steps ----

  /** Nothing on the consumer side moved, or handlers only disappeared. */
  lemma ConsumerInvFrame(s: State, s': State)
    requires ConsumerInv(s) && Grows(s, s')
    requires forall h | h in s'.handlers :: h in s.handlers && s'.handlers[h] == s.handlers[h]
    requires forall c | c in s.copies :: c in s'.copies && s'.copies[c].msg == s.copies[c].msg
    requires s'.processed == s.processed && s'.effects == s.effects && s'.applied == s.applied
    ensures ConsumerInv(s')
  {
    forall h | h in s'.handlers ensures HandlerOk(s', h) {
      assert HandlerOk(s, h);
    }
    forall h, g | h in s'.handlers && g in s'.handlers && h != g ensures Exclusive(s'.handlers[h], s'.handlers[g]) {
      assert Exclusive(s.handlers[h], s.handlers[g]);
    }
    forall e | e in s'.effects ensures EffectOk(s', e) {
      assert EffectOk(s, e);
    }
  }

  /** One handler moves on without committing anything. */
  lemma HandlerMoveKeepsConsumer(s: State, s': State, h: nat, handler: Handler)
    requires ConsumerInv(s) && Grows(s, s') && s'.handlers == s.handlers[h := handler]
    requires forall c | c in s.copies :: c in s'.copies && s'.copies[c].msg == s.copies[c].msg
    requires s'.processed == s.processed && s'.effects == s.effects && s'.applied == s.applied
    requires HandlerOk(s', h)
    requires forall g | g in s.handlers && g != h :: Exclusive(handler, s.handlers[g])
    ensures ConsumerInv(s')
  {
    forall g | g in s'.handlers ensures HandlerOk(s', g) {
      assert g != h ==> HandlerOk(s, g);
    }
    forall f, g | f in s'.handlers && g in s'.handlers && f != g ensures Exclusive(s'.handlers[f], s'.handlers[g]) {
      if f != h && g != h {
        assert Exclusive(s.handlers[f], s.handlers[g]);
      } else {
        assert f == h ==> Exclusive(handler, s.handlers[g]);
        assert g == h ==> Exclusive(handler, s.handlers[f]);
      }
    }
    forall e | e in s'.effects ensures EffectOk(s', e) {
      assert EffectOk(s, e);
    }
  }

  /** The handler of h may enter this phase without committing anything. */
  ghost predicate MayEnter(s: State, h: nat, phase: HandlerPhase)
    requires h in s.handlers
  {
    var handler := s.handlers[h];
    match phase
    case Received => false
    case Parsed => handler.phase.Received? && Accepted(handler.msg)
    case Marked =>
      handler.phase.Parsed? && IdOf(handler.msg) !in s.processed &&
      forall g | g in s.handlers && HoldsMarker(s.handlers[g]) :: IdOf(s.handlers[g].msg) != IdOf(handler.msg)
    case Effected => handler.phase.Marked?
    case Finished(applied) => !applied && handler.phase.Parsed? && IdOf(handler.msg) in s.processed
  }

  lemma PhaseMoveKeepsConsumer(s: State, h: nat, phase: HandlerPhase)
    requires ConsumerInv(s) && h in s.handlers && MayEnter(s, h, phase)
    ensures ConsumerInv(WithHandler(s, h, s.handlers[h].(phase := phase)))
  {
    var s', handler := WithHandler(s, h, s.handlers[h].(phase := phase)), s.handlers[h].(phase := phase);
    assert HandlerOk(s, h);
    forall g | g in s.handlers && g != h ensures Exclusive(handler, s.handlers[g]) {
      assert Exclusive(s.handlers[h], s.handlers[g]);
    }
    HandlerMoveKeepsConsumer(s, s', h, handler);
  }

  lemma PhaseKeepsConsumer(s: State, a: Action)
    requires ConsumerInv(s) && Enabled(s, a)
    requires a.Parse? || a.InsertMarker? || a.Skip? || a.InsertEffect?
    ensures ConsumerInv(Apply(s, a))
  {
    match a
    case Parse(h) => PhaseMoveKeepsConsumer(s, h, Parsed);
    case InsertMarker(h) => PhaseMoveKeepsConsumer(s, h, Marked);
    case Skip(h) => PhaseMoveKeepsConsumer(s, h, Finished(false));
    case InsertEffect(h) => PhaseMoveKeepsConsumer(s, h, Effected);
  }

  lemma DeliverKeepsConsumer(s: State, c: nat)
    requires ConsumerInv(s) && Enabled(s, Deliver(c))
    ensures ConsumerInv(DoDeliver(s, c))
  {
    var s' := DoDeliver(s, c);
    HandlerMoveKeepsConsumer(s, s', s.nextHandler, s'.handlers[s.nextHandler]);
  }

  /** The event behind an effect: from the relay it can only be that of a committed order. */
  lemma EffectComesFromAnOrder(s: State, h: nat)
    requires Orders.TablesInv(s.shop) && BrokerInv(s) && ConsumerInv(s) && h in s.handlers && !s.foreign
    requires Accepted(s.handlers[h].msg)
    ensures s.handlers[h].msg.orderId in s.shop.orders
    ensures IdOf(s.handlers[h].msg) == EventIdOf(s.handlers[h].msg.orderId)
  {
    assert HandlerOk(s, h) && CopyOk(s, s.handlers[h].copy);
    Orders.RowAnnouncesItsOrder(s.shop, s.copies[s.handlers[h].copy].source.value);
  }

  lemma CommitEffectKeepsHandlers(s: State, h: nat)
    requires ConsumerInv(s) && Enabled(s, CommitEffect(h))
    ensures var s' := DoCommitEffect(s, h);
            && (forall g | g in s'.handlers :: HandlerOk(s', g))
            && (forall f, g | f in s'.handlers && g in s'.handlers &&
                f != g :: Exclusive(s'.handlers[f], s'.handlers[g]))
  {
    var s' := DoCommitEffect(s, h);
    assert HandlerOk(s, h);
    forall g | g in s'.handlers ensures HandlerOk(s', g) {
      assert HandlerOk(s, g);
      assert g != h ==> Exclusive(s.handlers[h], s.handlers[g]);
    }
    forall f, g | f in s'.handlers && g in s'.handlers && f != g ensures Exclusive(s'.handlers[f], s'.handlers[g]) {
      assert Exclusive(s.handlers[f], s.handlers[g]);
    }
  }

  lemma CommitEffectKeepsConsumer(s: State, h: nat)
    requires Orders.TablesInv(s.shop) && BrokerInv(s) && ConsumerInv(s) && Enabled(s, CommitEffect(h))
    ensures ConsumerInv(DoCommitEffect(s, h))
  {
    var s', m := DoCommitEffect(s, h), s.handlers[h].msg;
    assert HandlerOk(s, h);
    CommitEffectKeepsHandlers(s, h);
    forall e | e in s'.effects ensures EffectOk(s', e) {
      if e in s.effects {
        assert EffectOk(s, e);
      } else if !s.foreign {
        EffectComesFromAnOrder(s, h);
      }
    }
    assert m.eventId !in s.applied;
  }

  lemma ReturnKeepsConsumer(s: State, c: nat, exhausted: bool)
    requires ConsumerInv(s) && Enabled(s, Return(c, exhausted))
    ensures ConsumerInv(Apply(s, Return(c, exhausted)))
  {
    ConsumerInvFrame(s, Apply(s, Return(c, exhausted)));
  }

  lemma CloseKeepsConsumer(s: State, h: nat, place: Place)
    requires ConsumerInv(s) && h in s.handlers
    ensures ConsumerInv(Close(s, h, place))
  {
    ConsumerInvFrame(s, Close(s, h, place));
  }

  lemma CrashKeepsConsumer(s: State, h: nat)
    requires ConsumerInv(s) && h in s.handlers
    ensures ConsumerInv(s.(handlers := s.handlers - {h}))
  {
    ConsumerInvFrame(s, s.(handlers := s.handlers - {h}));
  }

  /** Steps that end a handler, or take its delivery away. */
  predicate Ends(a: Action) {
    a.Return? || a.Reject? || a.FailHandler? || a.CrashHandler? || a.Ack?
  }

  lemma EndKeepsConsumer(s: State, a: Action)
    requires ConsumerInv(s) && Enabled(s, a) && Ends(a)
    ensures ConsumerInv(Apply(s, a))
  {
    match a
    case Return(c, exhausted) => ReturnKeepsConsumer(s, c, exhausted);
    case Reject(h) => CloseKeepsConsumer(s, h, Dead);
    case FailHandler(h) => CloseKeepsConsumer(s, h, Dead);
    case CrashHandler(h) => CrashKeepsConsumer(s, h);
    case Ack(h) => CloseKeepsConsumer(s, h, Acked);
  }

  lemma ShopSideKeepsConsumer(s: State, a: Action)
    requires Orders.OpenInv(s.shop) && ConsumerInv(s) && Enabled(s, a) && ShopSide(a)
    ensures ConsumerInv(Apply(s, a))
  {
    ShopSideFrame(s, a);
    ConsumerInvFrame(s, Apply(s, a));
  }

  lemma OtherPublishKeepsConsumer(s: State, msg: Message)
    requires BrokerInv(s) && ConsumerInv(s)
    ensures ConsumerInv(Publish(s, msg, None).(foreign := true))
  {
    PublishKeepsConsumer(s, Publish(s, msg, None).(foreign := true));
  }

  lemma BusyKeepsConsumer(s: State, a: Action)
    requires Orders.TablesInv(s.shop) && BrokerInv(s) && ConsumerInv(s) && Enabled(s, a) && !ShopSide(a) && !Ends(a)
    ensures ConsumerInv(Apply(s, a))
  {
    match a
    case RelaySend(r) => SendKeepsConsumer(s, r);
    case PublishOther(msg) => OtherPublishKeepsConsumer(s, msg);
    case Deliver(c) => DeliverKeepsConsumer(s, c);
    case Parse(h) => PhaseKeepsConsumer(s, a);
    case InsertMarker(h) => PhaseKeepsConsumer(s, a);
    case Skip(h) => PhaseKeepsConsumer(s, a);
    case InsertEffect(h) => PhaseKeepsConsumer(s, a);
    case CommitEffect(h) => CommitEffectKeepsConsumer(s, h);
  }

  lemma ConsumerInvStep(s: State, a: Action)
    requires Orders.OpenInv(s.shop) && Orders.TablesInv(s.shop) && BrokerInv(s) && ConsumerInv(s) && Enabled(s, a)
    ensures ConsumerInv(Apply(s, a))
  {
    if ShopSide(a) {
      ShopSideKeepsConsumer(s, a);
    } else if Ends(a) {
      EndKeepsConsumer(s, a);
    } else {
      BusyKeepsConsumer(s, a);
    }
  }

  lemma SendKeepsConsumer(s: State, r: nat)
    requires BrokerInv(s) && ConsumerInv(s) && Enabled(s, RelaySend(r))
    ensures ConsumerInv(Send(s, r))
  {
    PublishKeepsConsumer(s, Send(s, r));
  }

  lemma PublishKeepsConsumer(s: State, s': State)
    requires BrokerInv(s) && ConsumerInv(s) && Grows(s, s') && s'.handlers == s.handlers
    requires forall c | c in s.copies && c != s.nextCopy :: c in s'.copies && s'.copies[c] == s.copies[c]
    requires s'.processed == s.processed && s'.effects == s.effects && s'.applied == s.applied
    ensures ConsumerInv(s')
  {
    assert s.nextCopy in s.copies ==> CopyOk(s, s.nextCopy);
    ConsumerInvFrame(s, s');
  }

  // ---- The invariant holds in every reachable state ----

  lemma MarkKeepsTables(shop: Orders.Shop, rows: seq<nat>)
    requires Orders.TablesInv(shop)
    ensures Orders.TablesInv(shop.(outbox := MarkRows(shop.outbox, rows)))
  {
    var shop' := shop.(outbox := MarkRows(shop.outbox, rows));
    forall o | o in shop'.orders ensures Orders.OrderOk(shop', o) {
      assert Orders.OrderOk(shop, o);
    }
    forall key | key in shop'.keys ensures Orders.KeyOk(shop', key) {
      assert Orders.KeyOk(shop, key);
    }
    forall x | x in shop'.outbox ensures Orders.OutboxOk(shop', x) {
      assert Orders.OutboxOk(shop, x);
    }
    forall r | r in shop'.replies ensures Orders.Answers(shop', r) {
      assert Orders.Answers(shop, r);
    }
  }

  lemma MarkKeepsReplays(shop: Orders.Shop, rows: seq<nat>)
    requires Orders.ReplaysInv(shop)
    ensures Orders.ReplaysInv(shop.(outbox := MarkRows(shop.outbox, rows)))
  {
    var shop' := shop.(outbox := MarkRows(shop.outbox, rows));
    forall q | q in shop'.replays ensures Orders.ReplayOk(shop', q) {
      assert Orders.ReplayOk(shop, q);
    }
  }

  lemma MarkKeepsShop(shop: Orders.Shop, rows: seq<nat>)
    requires Orders.Inv(shop)
    ensures Orders.Inv(shop.(outbox := MarkRows(shop.outbox, rows)))
  {
    Orders.TablesOnlyKeepOpen(shop, shop.(outbox := MarkRows(shop.outbox, rows)));
    MarkKeepsTables(shop, rows);
    MarkKeepsReplays(shop, rows);
  }

  lemma ShopInvStep(s: State, a: Action)
    requires Orders.Inv(s.shop) && Enabled(s, a)
    ensures Orders.Inv(Apply(s, a).shop)
  {
    match a
    case ShopStep(sa) => Orders.InvStep(s.shop, sa);
    case RelayCommit(r) => MarkKeepsShop(s.shop, s.relays[r].rows);
    case _ =>
  }

  lemma InvStep(s: State, a: Action)
    requires Inv(s) && Enabled(s, a)
    ensures Inv(Apply(s, a))
  {
    ShopInvStep(s, a);
    RelayInvStep(s, a);
    BrokerInvStep(s, a);
    ConsumerInvStep(s, a);
  }

  lemma {:induction false} InvRun(s: State, acts: seq<Action>)
    requires Inv(s) && Valid(s, acts)
    ensures Inv(Run(s, acts))
    decreases |acts|
  {
    if acts != [] {
      InvStep(s, acts[0]);
      InvRun(Apply(s, acts[0]), acts[1..]);
    }
  }

  lemma ReachableInv(s: State)
    requires Reachable(s)
    ensures Inv(s)
  {
    var init, acts :| Init(init) && Valid(init, acts) && s == Run(init, acts);
    Orders.InitInv(init.shop);
    InvRun(init, acts);
  }
}
