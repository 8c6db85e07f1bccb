/**
 * The order record of the pizza bot and what its tool callbacks do to it,
 * stated as functions on order values. The class `Session.ActiveOrder`
 * performs these updates in place and is proved against them.
 */
module Orders {
  import opened Wrappers
  import opened Text

  /** One pizza. The property `type` of the source is called `kind` here. */
  datatype Pizza = Pizza(kind: string, size: string, crust: Option<string>, toppings: Option<seq<string>>)

  /** An order: the pizzas in the order they were added, and the checkout details. */
  datatype Order = Order(
    pizzas: seq<Pizza>,
    name: Option<string>,
    address: Option<string>,
    payment: Option<string>,
    status: Option<string>)

  /** `{ pizzas: [] }`: the order a conversation starts with. */
  const EmptyOrder := Order([], None, None, None, None)

  const Preparing := "preparing"
  const Baking := "baking"
  const NoOrder := "no order"

  /** The pizza `addPizza` stores: absent toppings become the empty list. */
  function NewPizza(kind: string, size: string, crust: Option<string>, toppings: Option<seq<string>>): (p: Pizza)
    ensures p.kind == kind && p.size == size && p.crust == crust
    ensures p.toppings.Some?
    ensures toppings.Some? ==> p.toppings == toppings
    ensures toppings.None? ==> p.toppings == Some([])
  {
    Pizza(kind, size, crust, Some(toppings.GetOr([])))
  }

  /** The order after `addPizza`: the new pizza appended, nothing else changed. */
  function WithPizza(o: Order, p: Pizza): (r: Order)
    ensures |r.pizzas| == |o.pizzas| + 1
    ensures r.pizzas[..|o.pizzas|] == o.pizzas && r.pizzas[|o.pizzas|] == p
    ensures r.(pizzas := o.pizzas) == o
  {
    o.(pizzas := o.pizzas + [p])
  }

  /**
   * The order after `checkout`: every checkout field overwritten by its
   * argument (an absent argument clears the field) and the status set to
   * "preparing", whatever it was; the pizzas are kept.
   */
  function CheckedOut(o: Order, name: string, address: Option<string>, payment: Option<string>): (r: Order)
    ensures r.pizzas == o.pizzas
    ensures r.name == Some(name) && r.address == address && r.payment == payment
    ensures r.status == Some(Preparing)
  {
    Order(o.pizzas, Some(name), address, payment, Some(Preparing))
  }

  /** What `trackOrder` answers: the status when it is truthy, else "no order". */
  function TrackStatus(o: Order): (r: string)
    ensures r != ""
    ensures Truthy(o.status) ==> r == o.status.value
    ensures !Truthy(o.status) ==> r == NoOrder
  {
    if Truthy(o.status) then o.status.value else NoOrder
  }

  /** The order after one `addPizza` call per element of `ps`, in sequence. */
  function AddAll(o: Order, ps: seq<Pizza>): Order
    decreases |ps|
  {
    if ps == [] then o else AddAll(WithPizza(o, ps[0]), ps[1..])
  }

  /** Adding pizzas never reorders or alters the pizzas already in the order. */
  lemma {:induction false} AddingKeepsEarlierPizzas(o: Order, ps: seq<Pizza>)
    ensures var r := AddAll(o, ps);
      |r.pizzas| == |o.pizzas| + |ps| && r.pizzas == o.pizzas + ps && r.(pizzas := o.pizzas) == o
    decreases |ps|
  {
    if ps != [] {
      AddingKeepsEarlierPizzas(WithPizza(o, ps[0]), ps[1..]);
      assert o.pizzas + [ps[0]] + ps[1..] == o.pizzas + ps;
    }
  }

  /** `trackOrder` says "no order" before checkout, and "preparing" right after it. */
  lemma TrackBeforeAndAfterCheckout(ps: seq<Pizza>, name: string, address: Option<string>, payment: Option<string>)
    ensures TrackStatus(AddAll(EmptyOrder, ps)) == NoOrder
    ensures TrackStatus(CheckedOut(AddAll(EmptyOrder, ps), name, address, payment)) == Preparing
  {
    AddingKeepsEarlierPizzas(EmptyOrder, ps);
  }

  /** Checking out twice is the same as checking out once with the latest details. */
  lemma CheckoutOverwrites(o: Order, n1: string, a1: Option<string>, p1: Option<string>,
                           n2: string, a2: Option<string>, p2: Option<string>)
    ensures CheckedOut(CheckedOut(o, n1, a1, p1), n2, a2, p2) == CheckedOut(o, n2, a2, p2)
  {
  }
}
