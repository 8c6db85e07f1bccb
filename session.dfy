/**
 * Per-conversation state of the pizza bot: the order object that one message
 * turn loads and the tool callbacks update in place, the store of orders by
 * conversation key, and the handler of card button presses.
 */
module Session {
  import opened Wrappers
  import opened Text
  import opened Orders
  import opened Cards

  // ---------------------------------------------------------------------------
  // Conversation keys

  /** `${conversation.id}/${from.id}`: the key of one user in one conversation. */
  function Key(conversationId: string, fromId: string): (k: string)
    ensures |k| == |conversationId| + 1 + |fromId|
    ensures k[..|conversationId|] == conversationId && k[|conversationId|] == '/'
    ensures k[|conversationId| + 1..] == fromId
  {
    conversationId + "/" + fromId
  }

  /** The position of the first `c` in `s`, if any. */
  function FirstIndex(s: string, c: char): (r: Option<nat>)
    ensures r.None? <==> c !in s
    ensures r.Some? ==> r.value < |s| && s[r.value] == c && c !in s[..r.value]
  {
    if s == [] then None
    else if s[0] == c then Some(0)
    else match FirstIndex(s[1..], c)
      case None => None
      case Some(i) => assert s[..i + 1] == [s[0]] + s[1..][..i]; Some(i + 1)
  }

  /** Reads the conversation id and the user id back out of a key, splitting at the first "/". */
  function SplitKey(k: string): (r: Option<(string, string)>)
    ensures r.None? <==> '/' !in k
    ensures r.Some? ==> '/' !in r.value.0 && Key(r.value.0, r.value.1) == k
  {
    match FirstIndex(k, '/')
    case None => None
    case Some(i) =>
      assert k == k[..i] + "/" + k[i + 1..];
      Some((k[..i], k[i + 1..]))
  }

  /** A key names its conversation and user again as long as the conversation id has no "/". */
  lemma KeyRoundTrip(conversationId: string, fromId: string)
    requires '/' !in conversationId
    ensures SplitKey(Key(conversationId, fromId)) == Some((conversationId, fromId))
  {
  }

  /** So two users get different keys, unless a conversation id contains "/". */
  lemma KeyInjective(c1: string, f1: string, c2: string, f2: string)
    requires '/' !in c1 && '/' !in c2
    requires Key(c1, f1) == Key(c2, f2)
    ensures c1 == c2 && f1 == f2
  {
    KeyRoundTrip(c1, f1);
    KeyRoundTrip(c2, f2);
  }

  /** The key format does not separate the ids when the conversation id holds a "/". */
  lemma KeyCollision()
    ensures Key("a/b", "c") == Key("a", "b/c")
  {
  }

  // ---------------------------------------------------------------------------
  // The order of one message turn

  /**
   * The order object a message turn works on. The tool callbacks the
   * language model invokes (`addPizza`, `viewOrder`, `checkout`,
   * `trackOrder`) update its fields in place.
   */
  class ActiveOrder {
    var pizzas: seq<Pizza>
    var name: Option<string>
    var address: Option<string>
    var payment: Option<string>
    var status: Option<string>

    /** The order's current value. */
    function Snapshot(): Order
      reads this
    {
      Order(pizzas, name, address, payment, status)
    }

    constructor (o: Order)
      ensures Snapshot() == o
    {
      pizzas, name, address, payment, status := o.pizzas, o.name, o.address, o.payment, o.status;
    }

    /** `addPizza`: appends the pizza, toppings defaulting to none; answers `{ ok: true }`. */
    method AddPizza(kind: string, size: string, crust: Option<string>, toppings: Option<seq<string>>)
      returns (ok: bool)
      modifies this
      ensures Snapshot() == WithPizza(old(Snapshot()), NewPizza(kind, size, crust, toppings))
      ensures ok
    {
      pizzas := pizzas + [NewPizza(kind, size, crust, toppings)];
      ok := true;
    }

    /** `viewOrder`: the order as it stands. */
    method ViewOrder() returns (o: Order)
      ensures o == Snapshot()
    {
      o := Order(pizzas, name, address, payment, status);
    }

    /**
     * `checkout`: overwrites the checkout fields, sets the status to
     * "preparing" and emits the order's card; answers `{ ok: true }`.
     */
    method Checkout(name: string, address: Option<string>, payment: Option<string>)
      returns (ok: bool, card: Card)
      modifies this
      ensures Snapshot() == CheckedOut(old(Snapshot()), name, address, payment)
      ensures card == BuildCard(Snapshot())
      ensures ok
    {
      this.name := Some(name);
      this.address := address;
      this.payment := payment;
      this.status := Some(Preparing);
      card := BuildCard(Order(pizzas, this.name, this.address, this.payment, this.status));
      ok := true;
    }

    /** `trackOrder`: `order.status || 'no order'`. */
    method TrackOrder() returns (s: string)
      ensures s == TrackStatus(Snapshot())
    {
      if status.Some? && status.value != "" {
        s := status.value;
      } else {
        s := NoOrder;
      }
    }
  }

  // ---------------------------------------------------------------------------
  // The order store and the card-action handler

  /** What the card-action handler streams to the user and what it returns as the invoke value. */
  datatype ActionReply = ActionReply(emitted: string, value: string)

  const NoActiveOrderReply := ActionReply("No active order.", "No active order.")
  const ConfirmedReply := ActionReply("Your order has been placed!", "Order confirmed")
  const CancelledReply := ActionReply("Your order was cancelled.", "Order cancelled")
  const EditReply := ActionReply("You can continue editing your order.", "Edit order")

  datatype ActionResult = ActionResult(store: map<string, Order>, reply: ActionReply)

  /** `orders.get(key) || { pizzas: [] }`: the stored order, or a new empty one. */
  function LoadOrder(store: map<string, Order>, key: string): (o: Order)
    ensures key in store ==> o == store[key]
    ensures key !in store ==> o == EmptyOrder
  {
    if key in store then store[key] else EmptyOrder
  }

  /**
   * The card-action handler on the store: with no stored order nothing
   * changes; "confirm" sets the status to "baking" whatever it was;
   * "cancel" deletes the order; any other value (including none) writes
   * the order back unchanged. No other key is touched.
   */
  function ApplyCardAction(store: map<string, Order>, key: string, action: Option<string>): (r: ActionResult)
    ensures forall k :: k != key && k in store ==> k in r.store && r.store[k] == store[k]
    ensures forall k :: k != key && k in r.store ==> k in store
    ensures key !in store ==> r.store == store && r.reply == NoActiveOrderReply
    ensures key in store && action == Some(ConfirmAction) ==>
      && key in r.store && r.store[key].status == Some(Baking)
      && r.store[key].(status := store[key].status) == store[key]
      && r.reply == ConfirmedReply
    ensures key in store && action == Some(CancelAction) ==> key !in r.store && r.reply == CancelledReply
    ensures key in store && action != Some(ConfirmAction) && action != Some(CancelAction) ==>
      r.store == store && r.reply == EditReply
  {
    if key !in store then ActionResult(store, NoActiveOrderReply)
    else if action == Some(ConfirmAction) then
      ActionResult(store[key := store[key].(status := Some(Baking))], ConfirmedReply)
    else if action == Some(CancelAction) then
      ActionResult(store - {key}, CancelledReply)
    else
      ActionResult(store[key := store[key]], EditReply)
  }

  /** The orders of all conversations, by conversation key. */
  class OrderStore {
    var orders: map<string, Order>

    constructor ()
      ensures orders == map[]
    {
      orders := map[];
    }

    /** The start of a message turn: the key and the order the tool callbacks will work on. */
    method BeginTurn(conversationId: string, fromId: string) returns (key: string, order: ActiveOrder)
      ensures key == Key(conversationId, fromId)
      ensures fresh(order) && order.Snapshot() == LoadOrder(orders, key)
    {
      key := conversationId + "/" + fromId;
      if key in orders {
        order := new ActiveOrder(orders[key]);
      } else {
        order := new ActiveOrder(EmptyOrder);
      }
    }

    /** The end of a message turn: `orders.set(key, order)`. */
    method EndTurn(key: string, order: ActiveOrder)
      modifies this
      ensures orders == old(orders)[key := order.Snapshot()]
    {
      orders := orders[key := order.Snapshot()];
    }

    /** A press of a card button, carrying `value.action` (absent when it is not a string). */
    method HandleCardAction(conversationId: string, fromId: string, action: Option<string>)
      returns (reply: ActionReply)
      modifies this
      ensures ActionResult(orders, reply) == ApplyCardAction(old(orders), Key(conversationId, fromId), action)
    {
      var key := conversationId + "/" + fromId;
      if key !in orders {
        reply := NoActiveOrderReply;
        return;
      }
      var order := orders[key];
      if action == Some(ConfirmAction) {
        order := order.(status := Some(Baking));
        reply := ConfirmedReply;
        orders := orders[key := order];
      } else if action == Some(CancelAction) {
        orders := orders - {key};
        reply := CancelledReply;
      } else {
        reply := EditReply;
        orders := orders[key := order];
      }
    }
  }

  // ---------------------------------------------------------------------------
  // Properties across operations

  /** Pressing the buttons of an order's own card: Confirm bakes it, Edit keeps it, Cancel deletes it. */
  lemma CardButtonsDispatch(store: map<string, Order>, key: string)
    requires key in store
    ensures var actions := BuildCard(store[key]).actions;
      && ApplyCardAction(store, key, Some(actions[0].action)).store == store[key := store[key].(status := Some(Baking))]
      && ApplyCardAction(store, key, Some(actions[1].action)).store == store
      && ApplyCardAction(store, key, Some(actions[2].action)).store == store - {key}
  {
    var r := ApplyCardAction(store, key, Some(ConfirmAction)).store;
    assert r == store[key := store[key].(status := Some(Baking))] by {
      assert r.Keys == store.Keys;
    }
    var c := ApplyCardAction(store, key, Some(CancelAction)).store;
    assert c == store - {key} by {
      assert c.Keys == store.Keys - {key};
    }
  }

  /**
   * The life of an order: "no order" before checkout, "preparing" after it,
   * "baking" after confirm, and after cancel the next turn starts afresh.
   */
  lemma OrderLifecycle(store: map<string, Order>, key: string, ps: seq<Pizza>,
                       name: string, address: Option<string>, payment: Option<string>)
    requires key !in store
    ensures TrackStatus(LoadOrder(store, key)) == NoOrder
    ensures var checkedOut := store[key := CheckedOut(AddAll(LoadOrder(store, key), ps), name, address, payment)];
      var confirmed := ApplyCardAction(checkedOut, key, Some(ConfirmAction)).store;
      var cancelled := ApplyCardAction(confirmed, key, Some(CancelAction)).store;
      && TrackStatus(LoadOrder(checkedOut, key)) == Preparing
      && TrackStatus(LoadOrder(confirmed, key)) == Baking
      && LoadOrder(confirmed, key).pizzas == ps
      && LoadOrder(cancelled, key) == EmptyOrder
      && TrackStatus(LoadOrder(cancelled, key)) == NoOrder
  {
    AddingKeepsEarlierPizzas(EmptyOrder, ps);
  }

  /** The card handler treats every key other than the pressed one as untouched, in any sequence of presses. */
  lemma {:induction false} OtherKeysUntouched(store: map<string, Order>, key: string, actions: seq<Option<string>>, other: string)
    requires other != key
    ensures other in ApplyAll(store, key, actions) <==> other in store
    ensures other in store ==> ApplyAll(store, key, actions)[other] == store[other]
  {
    if actions != [] {
      OtherKeysUntouched(ApplyCardAction(store, key, actions[0]).store, key, actions[1..], other);
    }
  }

  /** The store after a sequence of presses on the cards of one key. */
  function ApplyAll(store: map<string, Order>, key: string, actions: seq<Option<string>>): map<string, Order>
    decreases |actions|
  {
    if actions == [] then store else ApplyAll(ApplyCardAction(store, key, actions[0]).store, key, actions[1..])
  }
}
