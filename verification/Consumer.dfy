/** The consumer callback as the method it is, and what any sequence of deliveries and redeliveries leaves behind. */
module Consumer {
  import opened Messages

  datatype Outcome = Applied | Skipped
  datatype Verdict = Acked | DeadLettered
  datatype Stats = Stats(delivered: nat, effect: nat, skipped: nat, acked: nat)

  /** processed_messages and order_event_effects, with the callback's counters. */
  datatype Inbox = Inbox(processed: set<string>, effects: map<string, nat>, stats: Stats)

  /** The marker and the effect commit together. */
  predicate Consistent(inbox: Inbox) {
    inbox.processed == inbox.effects.Keys
  }

  /** One delivery; `hookFails` says that the optional onMessage hook throws, after the commit. */
  function Handle(inbox: Inbox, m: Message, hookFails: bool): (after: Inbox)
    ensures after.stats.delivered == inbox.stats.delivered + 1
  {
    var stats := inbox.stats.(delivered := inbox.stats.delivered + 1);
    if !Accepted(m) then inbox.(stats := stats)
    else
      var first := m.eventId !in inbox.processed;
      var counted := if first then stats.(effect := stats.effect + 1) else stats.(skipped := stats.skipped + 1);
      Inbox(inbox.processed + {m.eventId},
            if first && m.eventId !in inbox.effects then inbox.effects[m.eventId := m.orderId] else inbox.effects,
            if hookFails then counted else counted.(acked := counted.acked + 1))
  }

  function HandleAll(inbox: Inbox, deliveries: seq<(Message, bool)>): Inbox {
    if deliveries == [] then inbox
    else
      var last := |deliveries| - 1;
      Handle(HandleAll(inbox, deliveries[..last]), deliveries[last].0, deliveries[last].1)
  }

  /** The ids of the well-formed deliveries. */
  ghost function AcceptedIds(deliveries: seq<(Message, bool)>): set<string> {
    set i | 0 <= i < |deliveries| && deliveries[i].0.Message? && deliveries[i].0.eventId != "" &&
            deliveries[i].0.kind == "order.placed" && deliveries[i].0.occurredAt != "" &&
            deliveries[i].0.orderId != 0 :: deliveries[i].0.eventId
  }

  lemma OneMoreId(deliveries: seq<(Message, bool)>)
    requires deliveries != []
    ensures var last := |deliveries| - 1; var m := deliveries[last].0;
            AcceptedIds(deliveries) == AcceptedIds(deliveries[..last]) + if Accepted(m) then {m.eventId} else {}
  {
    var last := |deliveries| - 1;
    forall e | e in AcceptedIds(deliveries[..last]) ensures e in AcceptedIds(deliveries) {
      var i :| 0 <= i < last && Accepted(deliveries[..last][i].0) && deliveries[..last][i].0.eventId == e;
      assert Accepted(deliveries[i].0) && deliveries[i].0.eventId == e;
    }
    forall e | e in AcceptedIds(deliveries)
      ensures e in AcceptedIds(deliveries[..last]) || (Accepted(deliveries[last].0) && e == deliveries[last].0.eventId)
    {
      var i :| 0 <= i < |deliveries| && Accepted(deliveries[i].0) && deliveries[i].0.eventId == e;
      if i < last {
        assert deliveries[..last][i] == deliveries[i];
      }
    }
  }

  lemma HandleOnce(inbox: Inbox, m: Message, hookFails: bool)
    requires Consistent(inbox)
    ensures var end := Handle(inbox, m, hookFails);
            && Consistent(end)
            && end.effects.Keys == inbox.effects.Keys + (if Accepted(m) then {m.eventId} else {})
            && end.stats.effect - inbox.stats.effect == |end.effects.Keys| - |inbox.effects.Keys|
  {
  }

  lemma {:induction false} CountsMatchEffects(inbox: Inbox, deliveries: seq<(Message, bool)>)
    requires Consistent(inbox)
    ensures var end := HandleAll(inbox, deliveries);
            && Consistent(end)
            && end.stats.effect - inbox.stats.effect == |end.effects.Keys| - |inbox.effects.Keys|
            && end.stats.delivered == inbox.stats.delivered + |deliveries|
  {
    if deliveries != [] {
      var last := |deliveries| - 1;
      CountsMatchEffects(inbox, deliveries[..last]);
      HandleOnce(HandleAll(inbox, deliveries[..last]), deliveries[last].0, deliveries[last].1);
    }
  }

  lemma {:induction false} KeysAreTheAcceptedIds(inbox: Inbox, deliveries: seq<(Message, bool)>)
    requires Consistent(inbox)
    ensures HandleAll(inbox, deliveries).effects.Keys == inbox.effects.Keys + AcceptedIds(deliveries)
  {
    if deliveries == [] {
      assert AcceptedIds(deliveries) == {};
    } else {
      var last := |deliveries| - 1;
      var before := HandleAll(inbox, deliveries[..last]);
      KeysAreTheAcceptedIds(inbox, deliveries[..last]);
      CountsMatchEffects(inbox, deliveries[..last]);
      OneMoreId(deliveries);
      HandleOnce(before, deliveries[last].0, deliveries[last].1);
    }
  }

  /** Redelivery in any number and order: one effect per accepted event id, counted once, and only accepted ids. */
  lemma EffectsAreTheAcceptedIds(inbox: Inbox, deliveries: seq<(Message, bool)>)
    requires Consistent(inbox)
    ensures var end := HandleAll(inbox, deliveries);
            && end.effects.Keys == end.processed == inbox.effects.Keys + AcceptedIds(deliveries)
            && end.stats.effect - inbox.stats.effect ==
                |inbox.effects.Keys + AcceptedIds(deliveries)| - |inbox.effects.Keys|
  {
    CountsMatchEffects(inbox, deliveries);
    KeysAreTheAcceptedIds(inbox, deliveries);
  }

  class OrderConsumer {
    var processed: set<string>
    var effects: map<string, nat>
    var stats: Stats

    function Snapshot(): Inbox
      reads this
    {
      Inbox(processed, effects, stats)
    }

    /** One transaction: the marker first; a marker that is already there skips the effect. */
    method ProcessOrderPlacedEvent(event: Message) returns (outcome: Outcome)
      requires Accepted(event)
      modifies `processed, `effects
      ensures outcome == if event.eventId in old(processed) then Skipped else Applied
      ensures processed == old(processed) + {event.eventId}
      ensures effects == if event.eventId in old(processed) || event.eventId in old(effects) then old(effects)
                         else old(effects)[event.eventId := event.orderId]
    {
      if event.eventId in processed {
        assert processed == processed + {event.eventId};
        return Skipped;
      }
      processed := processed + {event.eventId};
      if event.eventId !in effects {
        effects := effects[event.eventId := event.orderId];
      }
      return Applied;
    }

    /** The callback: acknowledge what was processed, dead-letter what throws, requeue nothing. */
    method OnDelivery(m: Message, hookFails: bool) returns (verdict: Verdict)
      modifies this
      ensures Snapshot() == Handle(old(Snapshot()), m, hookFails)
      ensures m.Garbage? || m.eventId == "" || m.kind != "order.placed" || m.occurredAt == "" || m.orderId == 0 ==>
                && verdict.DeadLettered? && processed == old(processed) && effects == old(effects)
                && stats == old(stats).(delivered := old(stats.delivered) + 1)
      ensures m.Message? && m.eventId != "" && m.kind == "order.placed" && m.occurredAt != "" && m.orderId != 0 ==>
                && (verdict.Acked? <==> !hookFails)
                && processed == old(processed) + {m.eventId}
                && effects == (if m.eventId in old(processed) || m.eventId in old(effects) then old(effects)
                               else old(effects)[m.eventId := m.orderId])
                && stats.delivered == old(stats.delivered) + 1
                && stats.effect == old(stats.effect) + (if m.eventId in old(processed) then 0 else 1)
                && stats.skipped == old(stats.skipped) + (if m.eventId in old(processed) then 1 else 0)
                && stats.acked == old(stats.acked) + (if hookFails then 0 else 1)
      ensures verdict.Acked? ==> m.eventId in processed
      ensures Consistent(old(Snapshot())) ==> Consistent(Snapshot())
    {
      stats := stats.(delivered := stats.delivered + 1);
      if !Accepted(m) {
        return DeadLettered;
      }
      var outcome := ProcessOrderPlacedEvent(m);
      if outcome.Applied? {
        stats := stats.(effect := stats.effect + 1);
      } else {
        stats := stats.(skipped := stats.skipped + 1);
      }
      if hookFails {
        return DeadLettered;
      }
      stats := stats.(acked := stats.acked + 1);
      return Acked;
    }
  }
}
