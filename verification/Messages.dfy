/** The order.placed message as it travels from the outbox table through the broker to the consumer. */
module Messages {
  import opened Options
  import opened Decimals

  datatype Item = Item(productId: int, quantity: int)

  /** A message body. An absent text field is "", an absent order id is 0: both are falsy in the source.
      `Garbage` stands for a body that is not JSON at all. */
  datatype Message =
    | Message(eventId: string, kind: string, occurredAt: string,
              orderId: nat, userId: nat, items: seq<Item>, total: int)
    | Garbage

  const ORDER_PLACED := "order.placed"

  function EventIdOf(orderId: nat): string {
    ORDER_PLACED + ":" + Decimal(orderId)
  }

  lemma EventIdSpelled(orderId: nat)
    ensures EventIdOf(orderId) == "order.placed:" + Decimal(orderId)
  {
    assert ORDER_PLACED + ":" == "order.placed:";
  }

  function IdOf(m: Message): string {
    if m.Message? then m.eventId else ""
  }

  lemma EventIdInjective(m: nat, n: nat)
    requires EventIdOf(m) == EventIdOf(n)
    ensures m == n
  {
    var prefix := ORDER_PLACED + ":";
    assert EventIdOf(m)[|prefix|..] == Decimal(m);
    assert EventIdOf(n)[|prefix|..] == Decimal(n);
    DecimalInjective(m, n);
  }

  function EventFor(orderId: nat, userId: nat, items: seq<Item>, total: int, occurredAt: string): Message {
    Message(EventIdOf(orderId), ORDER_PLACED, occurredAt, orderId, userId, items, total)
  }

  /** The consumer's validation: exactly the bodies it does not throw on. */
  predicate Accepted(m: Message) {
    m.Message? && m.eventId != "" && m.kind == ORDER_PLACED && m.occurredAt != "" && m.orderId != 0
  }

  /** What create writes, the consumer accepts; the order id comes from a sequence that starts at 1. */
  lemma OutboxPayloadIsAccepted(orderId: nat, userId: nat, items: seq<Item>, total: int, occurredAt: string)
    ensures Accepted(EventFor(orderId, userId, items, total, occurredAt)) <==> orderId > 0 && occurredAt != ""
  {
    assert EventIdOf(orderId)[0] == 'o';
  }
}
