/** One checkout with the database to itself: the updates in place, the rollback, and the publish after the commit. */
module CheckoutServices {
  import opened Options
  import opened Checkout
  import opened CheckoutLaws
  import Decimals
  import Messages

  class CheckoutService {
    var products: map<nat, Product>
    var balances: map<nat, int>
    var orders: map<nat, Order>
    var items: map<nat, Item>
    var tasks: set<nat>
    var lastOrderId: nat
    var published: seq<PlacedEvent>

    function Tables(): Db
      reads this
    {
      Db(products, balances, orders, items, tasks)
    }

    /** The statements between BEGIN and COMMIT. An error may leave the product's row already decremented. */
    method ExecuteCheckout(input: Input) returns (r: Outcome)
      requires Orderable(input)
      modifies this`products, this`balances, this`orders, this`items, this`tasks, this`lastOrderId
      ensures r == AtomicCheckout(old(Tables()), input, old(lastOrderId) + 1).0
      ensures r.Ok? ==> Tables() == AtomicCheckout(old(Tables()), input, old(lastOrderId) + 1).1
      ensures r.Ok? ==> lastOrderId == old(lastOrderId) + 1
      ensures r == Err(InsufficientBalance) ==> products != old(products)
    {
      var units := Units(input);
      if units > INT4_MAX {
        return Err(OutOfRange);
      }
      if input.product !in products || products[input.product].stock < units {
        return Err(InsufficientStock);
      }
      var product := Product(products[input.product].price, products[input.product].stock - units);
      products := products[input.product := product];
      assert products[input.product] != old(products)[input.product];
      var totalAmount := product.price * units;
      if totalAmount > INT4_MAX {
        return Err(OutOfRange);
      }
      if input.user !in balances || balances[input.user] < totalAmount {
        return Err(InsufficientBalance);
      }
      balances := balances[input.user := balances[input.user] - totalAmount];
      lastOrderId := lastOrderId + 1;
      orders := orders[lastOrderId := Order(input.user, totalAmount)];
      items := items[lastOrderId := Item(input.product, units, product.price)];
      tasks := tasks + {lastOrderId};
      return Ok(Result(lastOrderId, totalAmount, product.stock));
    }

    /** All or nothing, and an event exactly when all; a publish that is not confirmed leaves the order in place. */
    method Checkout(input: Input, confirmed: bool) returns (r: Outcome)
      modifies this
      ensures var (outcome, db) := AtomicCheckout(old(Tables()), input, old(lastOrderId) + 1);
              && Tables() == db
              && r == (if outcome.Ok? && !confirmed then Err(Failure) else outcome)
              && published == old(published) +
                              if outcome.Ok? then [CreateOrderPlacedEvent(input, outcome.result)] else []
      ensures r.Ok? ==>
                && Bought(old(Tables()), Tables(), input, old(lastOrderId) + 1)
                && var n, price, id := input.quantity.n, old(products)[input.product].price, old(lastOrderId) + 1;
                && r.result == Result(id, price * n, old(products)[input.product].stock - n)
                && published == old(published) + [PlacedEvent("order.placed:" + Decimals.Decimal(id), id, input.user,
                                                              input.product, n, price * n)]
    {
      if !Orderable(input) {
        return Err(InvalidQuantity);
      }
      var before := Tables();
      r := ExecuteCheckout(input);
      if r.Err? {
        products, balances, orders, items, tasks := before.products, before.balances, before.orders, before.items,
            before.tasks;
        return r;
      }
      published := published + [CreateOrderPlacedEvent(input, r.result)];
      Messages.EventIdSpelled(r.result.orderId);
      if !confirmed {
        return Err(Failure);
      }
    }
  }
}
