/** An uninterrupted consumer callback is a run of the pipeline, with the effect `Consumer.Handle` describes. */
module ConsumerRun {
  import opened Messages
  import opened Pipeline
  import Consumer
  import Relay

  ghost predicate CanDeliver(s: State, c: nat) {
    && c in s.copies && s.copies[c].place.Queued? && s.nextHandler !in s.handlers
    && forall g | g in s.handlers && HoldsMarker(s.handlers[g]) :: IdOf(s.handlers[g].msg) != IdOf(s.copies[c].msg)
  }

  /** The callback's own statements between the delivery and the reply to the broker. */
  ghost function Work(s: State, c: nat): seq<Action>
    requires CanDeliver(s, c) && Accepted(s.copies[c].msg)
  {
    var h := s.nextHandler;
    if s.copies[c].msg.eventId in s.processed then [Parse(h), Skip(h)]
    else [Parse(h), InsertMarker(h), InsertEffect(h), CommitEffect(h)]
  }

  ghost function Callback(s: State, c: nat, hookFails: bool): seq<Action>
    requires CanDeliver(s, c)
  {
    var h := s.nextHandler;
    if Accepted(s.copies[c].msg)
    then [Deliver(c)] + Work(s, c) + [if hookFails then FailHandler(h) else Ack(h)]
    else [Deliver(c), Reject(h)]
  }

  /** The tables and the handler are done, the broker not yet told. */
  ghost predicate Worked(s: State, c: nat, t: State, applied: bool) {
    && CanDeliver(s, c) && Accepted(s.copies[c].msg)
    && var h, m := s.nextHandler, s.copies[c].msg;
    && t.handlers == s.handlers[h := Handler(c, m, Finished(applied))]
    && t.copies == s.copies[c := s.copies[c].(place := InFlight(h))]
    && t.processed == s.processed + {m.eventId}
    && t.effects == if applied && m.eventId !in s.effects then s.effects[m.eventId := m.orderId] else s.effects
  }

  /** h is at work on copy c, in the given phase, and has changed nothing else. */
  ghost predicate At(s: State, c: nat, t: State, phase: HandlerPhase)
    requires CanDeliver(s, c)
  {
    var h := s.nextHandler;
    && t.handlers == s.handlers[h := Handler(c, s.copies[c].msg, phase)]
    && t.copies == s.copies[c := s.copies[c].(place := InFlight(h))]
    && t.processed == s.processed && t.effects == s.effects
  }

  lemma Delivering(s: State, c: nat)
    requires CanDeliver(s, c)
    ensures Valid(s, [Deliver(c)]) && At(s, c, Run(s, [Deliver(c)]), Received)
  {
    Relay.Extend(s, [], Deliver(c));
    assert [] + [Deliver(c)] == [Deliver(c)];
  }

  lemma Parsing(s: State, c: nat)
    requires CanDeliver(s, c) && Accepted(s.copies[c].msg)
    ensures var acts := [Deliver(c)] + [Parse(s.nextHandler)]; Valid(s, acts) && At(s, c, Run(s, acts), Parsed)
  {
    Delivering(s, c);
    Relay.Extend(s, [Deliver(c)], Parse(s.nextHandler));
  }

  lemma Marking(s: State, c: nat)
    requires CanDeliver(s, c) && Accepted(s.copies[c].msg) && s.copies[c].msg.eventId !in s.processed
    ensures var h := s.nextHandler; var acts := [Deliver(c)] + [Parse(h)] + [InsertMarker(h)] + [InsertEffect(h)];
            Valid(s, acts) && At(s, c, Run(s, acts), Effected)
  {
    var h := s.nextHandler;
    Parsing(s, c);
    Relay.Extend(s, [Deliver(c)] + [Parse(h)], InsertMarker(h));
    Relay.Extend(s, [Deliver(c)] + [Parse(h)] + [InsertMarker(h)], InsertEffect(h));
  }

  lemma SkippingIsARun(s: State, c: nat)
    requires CanDeliver(s, c) && Accepted(s.copies[c].msg) && s.copies[c].msg.eventId in s.processed
    ensures Valid(s, [Deliver(c)] + Work(s, c)) && Worked(s, c, Run(s, [Deliver(c)] + Work(s, c)), false)
  {
    var h := s.nextHandler;
    Parsing(s, c);
    Relay.Extend(s, [Deliver(c)] + [Parse(h)], Skip(h));
    assert [Deliver(c)] + [Parse(h)] + [Skip(h)] == [Deliver(c)] + Work(s, c);
    assert s.processed + {s.copies[c].msg.eventId} == s.processed;
  }

  lemma ApplyingIsARun(s: State, c: nat)
    requires CanDeliver(s, c) && Accepted(s.copies[c].msg) && s.copies[c].msg.eventId !in s.processed
    ensures Valid(s, [Deliver(c)] + Work(s, c)) && Worked(s, c, Run(s, [Deliver(c)] + Work(s, c)), true)
  {
    var h := s.nextHandler;
    Marking(s, c);
    var acts := [Deliver(c)] + [Parse(h)] + [InsertMarker(h)] + [InsertEffect(h)];
    Relay.Extend(s, acts, CommitEffect(h));
    assert acts + [CommitEffect(h)] == [Deliver(c)] + Work(s, c);
  }

  lemma RejectionIsARun(s: State, c: nat)
    requires CanDeliver(s, c) && !Accepted(s.copies[c].msg)
    ensures Valid(s, [Deliver(c), Reject(s.nextHandler)])
    ensures var t := Run(s, [Deliver(c), Reject(s.nextHandler)]);
            && t.processed == s.processed && t.effects == s.effects && t.handlers == s.handlers
            && t.copies == s.copies[c := s.copies[c].(place := Dead)]
  {
    var h := s.nextHandler;
    Delivering(s, c);
    Relay.Extend(s, [Deliver(c)], Reject(h));
    assert [Deliver(c)] + [Reject(h)] == [Deliver(c), Reject(h)];
  }

  lemma ReplyIsARun(s: State, c: nat, hookFails: bool, applied: bool)
    requires CanDeliver(s, c) && Accepted(s.copies[c].msg) && Valid(s, [Deliver(c)] + Work(s, c))
    requires Worked(s, c, Run(s, [Deliver(c)] + Work(s, c)), applied)
    ensures Valid(s, Callback(s, c, hookFails))
    ensures var end, m := Run(s, Callback(s, c, hookFails)), s.copies[c].msg;
            && end.processed == s.processed + {m.eventId} && end.handlers == s.handlers
            && end.effects == (if applied &&
                m.eventId !in s.effects then s.effects[m.eventId := m.orderId] else s.effects)
            && end.copies == s.copies[c := s.copies[c].(place := if hookFails then Dead else Acked)]
  {
    Relay.Extend(s, [Deliver(c)] + Work(s, c), if hookFails then FailHandler(s.nextHandler) else Ack(s.nextHandler));
  }

  /** One callback left to itself does to the tables what Handle does, and its message ends acknowledged or
      dead-lettered as OnDelivery says. */
  lemma CallbackIsARun(s: State, c: nat, hookFails: bool, stats: Consumer.Stats)
    requires CanDeliver(s, c)
    ensures Valid(s, Callback(s, c, hookFails))
    ensures var end, m := Run(s, Callback(s, c, hookFails)), s.copies[c].msg;
            var after := Consumer.Handle(Consumer.Inbox(s.processed, s.effects, stats), m, hookFails);
            && end.processed == after.processed && end.effects == after.effects && end.handlers == s.handlers
            && end.copies == s.copies[c := s.copies[c].(place := if Accepted(m) && !hookFails then Acked else Dead)]
  {
    if Accepted(s.copies[c].msg) {
      if s.copies[c].msg.eventId in s.processed {
        SkippingIsARun(s, c);
      } else {
        ApplyingIsARun(s, c);
      }
      ReplyIsARun(s, c, hookFails, s.copies[c].msg.eventId !in s.processed);
    } else {
      RejectionIsARun(s, c);
    }
  }
}
