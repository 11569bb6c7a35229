/**
 * What the messages say, field by field: a copy the relay sends tells its order as stored, and only well-formed
 * messages are ever acknowledged or have an effect.
 */
module MessageContents {
  import opened Options
  import opened Messages
  import opened Pipeline
  import opened PipelineInvariant
  import opened PipelineTheorems
  import Decimals
  import Orders

  /** Every copy of an outbox row that the broker holds says what the row's order says: its id, its buyer, its total and
      its items. */
  lemma CopiesTellTheOrder(s: State, c: nat)
    requires Reachable(s) && c in s.copies && s.copies[c].source.Some?
    ensures var m := s.copies[c].msg;
            && m.Message? && m.orderId in s.shop.orders
            && var order := s.shop.orders[m.orderId];
            && order.outboxId == s.copies[c].source.value
            && m.eventId == "order.placed:" + Decimals.Decimal(m.orderId) && m.kind == "order.placed"
            && m.occurredAt != "" && m.userId == order.userId && m.total == order.total
            && |m.items| == |order.rows|
            && forall i | 0 <= i < |order.rows| ::
                 m.items[i].productId == order.rows[i].productId && m.items[i].quantity == order.rows[i].quantity
  {
    ReachableInv(s);
    assert CopyOk(s, c);
    Orders.RowAnnouncesItsOrder(s.shop, s.copies[c].source.value);
    assert Orders.OutboxOk(s.shop, s.copies[c].source.value);
  }

  /** The consumer turns a delivery away exactly when it is no JSON or lacks its event id, its type, its time or its
      order id. */
  lemma RejectedIffFaulty(s: State, h: nat)
    requires h in s.handlers && s.handlers[h].phase.Received?
    ensures var m := s.handlers[h].msg;
            && (Enabled(s, Reject(h)) <==>
                  m.Garbage? || m.eventId == "" || m.kind != "order.placed" || m.occurredAt == "" || m.orderId == 0)
            && (Enabled(s, Parse(h)) <==> !Enabled(s, Reject(h)))
  {
  }

  /** An acknowledged message has all of these. */
  lemma AckedIsWellFormed(s: State, c: nat)
    requires Reachable(s) && c in s.copies && s.copies[c].place.Acked?
    ensures var m := s.copies[c].msg;
            m.Message? && m.eventId != "" && m.kind == "order.placed" && m.occurredAt != "" && m.orderId != 0
  {
    ReachableInv(s);
    assert CopyOk(s, c);
  }

  /** A consumer that dies leaves no trace in the tables, and the broker can queue its delivery again. */
  lemma CrashedDeliveryComesBack(s: State, h: nat)
    requires Enabled(s, CrashHandler(h)) && Owns(s, h)
    ensures var c, s1 := s.handlers[h].copy, Apply(s, CrashHandler(h));
            && h !in s1.handlers && s1.processed == s.processed && s1.effects == s.effects && s1.copies == s.copies
            && Enabled(s1, Return(c, false))
            && Apply(s1, Return(c, false)).copies[c] == s.copies[c].(place := Queued)
  {
  }

  // ---- Effects ----

  /** The effect filed under e was written for a copy that is still on record. */
  ghost predicate Stems(s: State, e: string)
    requires e in s.effects
  {
    exists c :: c in s.copies && Accepted(s.copies[c].msg) && s.copies[c].msg.eventId == e &&
                s.copies[c].msg.orderId == s.effects[e]
  }

  ghost predicate AllStem(s: State) {
    forall e {:trigger Stems(s, e)} | e in s.effects :: Stems(s, e)
  }

  lemma SendsKeepMessages(s: State, a: Action, c: nat)
    requires Enabled(s, a) && (a.RelaySend? || a.PublishOther?) && c in s.copies && c < s.nextCopy
    ensures c in Apply(s, a).copies && Apply(s, a).copies[c].msg == s.copies[c].msg
  {
  }

  lemma DeliveriesKeepMessages(s: State, a: Action, c: nat)
    requires Enabled(s, a) && Moves(a) && !a.RelaySend? && !a.PublishOther? && c in s.copies
    ensures c in Apply(s, a).copies && Apply(s, a).copies[c].msg == s.copies[c].msg
  {
  }

  lemma CopiesPersist(s: State, a: Action, c: nat)
    requires BrokerInv(s) && Enabled(s, a) && c in s.copies
    ensures c in Apply(s, a).copies && Apply(s, a).copies[c].msg == s.copies[c].msg
  {
    assert CopyOk(s, c);
    if a.RelaySend? || a.PublishOther? {
      SendsKeepMessages(s, a, c);
    } else if Moves(a) {
      DeliveriesKeepMessages(s, a, c);
    } else {
      OtherStepsMoveNoCopy(s, a);
    }
  }

  lemma ShopLeavesEffects(s: State, a: Action)
    requires Enabled(s, a) && a.ShopStep?
    ensures Apply(s, a).effects == s.effects
  {
  }

  lemma BrokerLeavesEffects(s: State, a: Action)
    requires Enabled(s, a) && Moves(a)
    ensures Apply(s, a).effects == s.effects
  {
  }

  lemma OthersLeaveEffects(s: State, a: Action)
    requires Enabled(s, a) && !a.ShopStep? && !Moves(a) && !a.CommitEffect?
    ensures Apply(s, a).effects == s.effects
  {
  }

  lemma OnlyCommitsAddEffects(s: State, a: Action)
    requires Enabled(s, a) && !a.CommitEffect?
    ensures Apply(s, a).effects == s.effects
  {
    if a.ShopStep? {
      ShopLeavesEffects(s, a);
    } else if Moves(a) {
      BrokerLeavesEffects(s, a);
    } else {
      OthersLeaveEffects(s, a);
    }
  }

  lemma NewEffectStems(s: State, h: nat, e: string)
    requires Inv(s) && Enabled(s, CommitEffect(h)) && e in Apply(s, CommitEffect(h)).effects && e !in s.effects
    ensures Stems(Apply(s, CommitEffect(h)), e)
  {
    assert HandlerOk(s, h);
    var c := s.handlers[h].copy;
    assert Apply(s, CommitEffect(h)).copies[c].msg == s.handlers[h].msg;
  }

  lemma StemsStep(s: State, a: Action, e: string)
    requires Inv(s) && AllStem(s) && Enabled(s, a) && e in Apply(s, a).effects
    ensures Stems(Apply(s, a), e)
  {
    if !a.CommitEffect? {
      OnlyCommitsAddEffects(s, a);
    }
    if e in s.effects {
      assert Stems(s, e);
      var c :| c in s.copies && Accepted(s.copies[c].msg) && s.copies[c].msg.eventId == e &&
               s.copies[c].msg.orderId == s.effects[e];
      CopiesPersist(s, a, c);
    } else {
      NewEffectStems(s, a.h, e);
    }
  }

  lemma {:induction false} StemsRun(s: State, acts: seq<Action>)
    requires Inv(s) && AllStem(s) && Valid(s, acts)
    ensures AllStem(Run(s, acts))
    decreases |acts|
  {
    if acts != [] {
      InvStep(s, acts[0]);
      forall e | e in Apply(s, acts[0]).effects ensures Stems(Apply(s, acts[0]), e) {
        StemsStep(s, acts[0], e);
      }
      StemsRun(Apply(s, acts[0]), acts[1..]);
    }
  }

  /** Whoever publishes what: an effect was written for a well-formed message with that event id and that order id. */
  lemma EffectsAreWellFounded(s: State, e: string)
    requires Reachable(s) && e in s.effects
    ensures exists c :: c in s.copies && s.copies[c].msg.Message? && s.copies[c].msg.eventId == e && e != "" &&
                        s.copies[c].msg.kind == "order.placed" && s.copies[c].msg.occurredAt != "" &&
                        s.copies[c].msg.orderId == s.effects[e] != 0
  {
    var init, acts :| Init(init) && Valid(init, acts) && s == Run(init, acts);
    Orders.InitInv(init.shop);
    StemsRun(init, acts);
    assert Stems(s, e);
  }
}
