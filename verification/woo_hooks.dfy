/**
 * The WooCommerce event hooks: the order-status table, the event data each
 * handler sends, and the gating of the whole set on registration.
 * Source: packages/woocommerce-plugin/includes/class-serenai-hooks.php.
 */
module WooHooks {
  import opened JsValues
  import Backend
  import WooApi

  /** `map_order_status_to_financial`: a fixed table; any other status is pending. */
  function MapOrderStatusToFinancial(status: string): (f: Backend.FinancialStatus)
    ensures f == Backend.Paid <==> status == "completed"
    ensures f == Backend.Failed <==> status == "failed" || status == "cancelled" || status == "refunded"
    ensures f == Backend.Pending <==>
      status != "completed" && status != "failed" && status != "cancelled" && status != "refunded"
  {
    if status == "completed" then Backend.Paid
    else if status == "processing" || status == "on-hold" || status == "pending" then Backend.Pending
    else if status == "failed" || status == "cancelled" || status == "refunded" then Backend.Failed
    else Backend.Pending
  }

  /**
   * The order fields the handlers read. `cents` is `(int)($order->get_total() * 100)`,
   * evaluated in floating point outside the model.
   */
  datatype Order = Order(status: string, cents: int, paymentMethod: string, currency: string)

  /** The cart fields `on_checkout_started` reads: `get_total('edit')` and the item count. */
  datatype Cart = Cart(total: Value, itemCount: int)

  function Int(n: int): Value {
    Num(Finite(n as real))
  }

  /** A WordPress action the hooks listen to, with the arguments WooCommerce passes. */
  datatype WooAction =
    | CheckoutProcess(cart: Option<Cart>)                                        // `woocommerce_checkout_process`, with `WC()->cart`
    | CheckoutOrderProcessed(orderId: int, order: Order)                         // `woocommerce_checkout_order_processed`
    | OrderStatusChanged(orderId: int, oldStatus: string, newStatus: string, changed: Order) // `woocommerce_order_status_changed`
    | OrderStatusFailed(orderId: int, given: Option<Order>, lookup: Option<Order>) // `woocommerce_order_status_failed`; `lookup` is `wc_get_order`

  /** One `send_event` call made by a handler. */
  datatype SentEvent = SentEvent(eventType: string, data: map<string, Value>)

  /** The data of `checkout_started`: a missing cart counts as zero total and zero items. */
  function CheckoutData(cart: Option<Cart>): (d: map<string, Value>)
    ensures d.Keys == {"cart_total", "cart_items"}
    ensures cart.None? ==> d["cart_total"] == Int(0) && d["cart_items"] == Int(0)
    ensures cart.Some? ==> d["cart_total"] == cart.value.total && d["cart_items"] == Int(cart.value.itemCount)
  {
    map["cart_total" := (if cart.Some? then cart.value.total else Int(0)),
        "cart_items" := Int(if cart.Some? then cart.value.itemCount else 0)]
  }

  /** The data of `order_created` at checkout: the financial status comes from the order's current status. */
  function OrderCreatedData(orderId: int, order: Order): (d: map<string, Value>)
    ensures d.Keys == {"order_id", "order_total", "financial_status", "payment_method", "currency"}
    ensures d["financial_status"] == Str(Backend.FinancialStatusName(MapOrderStatusToFinancial(order.status)))
    ensures d["order_total"] == Int(order.cents) && d["order_id"] == Int(orderId)
  {
    map["order_id" := Int(orderId),
        "order_total" := Int(order.cents),
        "financial_status" := Str(Backend.FinancialStatusName(MapOrderStatusToFinancial(order.status))),
        "payment_method" := Str(order.paymentMethod),
        "currency" := Str(order.currency)]
  }

  /** The events a handler sends for one action: never more than one. */
  function EventsFor(action: WooAction): (es: seq<SentEvent>)
    ensures |es| <= 1
    ensures action.CheckoutProcess? ==> es == [SentEvent("checkout_started", CheckoutData(action.cart))]
    ensures action.CheckoutOrderProcessed? ==> es == [SentEvent("order_created", OrderCreatedData(action.orderId, action.order))]
    ensures action.OrderStatusChanged? ==>
      (|es| == 1 <==> action.newStatus == "completed" || action.newStatus == "processing")
    ensures action.OrderStatusChanged? && |es| == 1 ==> (
      es[0].eventType == "order_created"
      && es[0].data.Keys == {"order_id", "order_total", "financial_status", "status_transition"}
      && es[0].data["financial_status"] == Str("paid")
      && es[0].data["order_total"] == Int(action.changed.cents)
      && es[0].data["status_transition"] == Str(action.oldStatus + " -> " + action.newStatus))
    ensures action.OrderStatusFailed? ==> (es == [] <==> action.given.None? && action.lookup.None?)
    ensures action.OrderStatusFailed? && |es| == 1 ==> (
      es[0].eventType == "order_failed"
      && es[0].data.Keys == {"order_id", "order_total", "financial_status", "payment_method"}
      && es[0].data["financial_status"] == Str("failed")
      && es[0].data["order_id"] == Int(action.orderId)
      && es[0].data["order_total"] == Int(if action.given.Some? then action.given.value.cents else action.lookup.value.cents))
  {
    match action
    case CheckoutProcess(cart) => [SentEvent("checkout_started", CheckoutData(cart))]
    case CheckoutOrderProcessed(orderId, order) => [SentEvent("order_created", OrderCreatedData(orderId, order))]
    case OrderStatusChanged(orderId, oldStatus, newStatus, order) =>
      if newStatus == "completed" || newStatus == "processing" then
        [SentEvent("order_created", map[
          "order_id" := Int(orderId),
          "order_total" := Int(order.cents),
          "financial_status" := Str("paid"),
          "status_transition" := Str(oldStatus + " -> " + newStatus)])]
      else []
    case OrderStatusFailed(orderId, given, lookup) =>
      var resolved := if given.Some? then given else lookup;
      if resolved.None? then []
      else
        [SentEvent("order_failed", map[
          "order_id" := Int(orderId),
          "order_total" := Int(resolved.value.cents),
          "financial_status" := Str("failed"),
          "payment_method" := Str(resolved.value.paymentMethod)])]
  }

  /**
   * The two rules disagree on `processing`: the table maps it to pending,
   * while a change into `processing` is reported as paid.
   */
  lemma ProcessingReportedTwoWays(orderId: int, oldStatus: string, order: Order)
    ensures MapOrderStatusToFinancial("processing") == Backend.Pending
    ensures EventsFor(OrderStatusChanged(orderId, oldStatus, "processing", order))[0].data["financial_status"] == Str("paid")
  {
  }

  /** A failed order reported with its object uses that object, even if a lookup would find another. */
  lemma FailedOrderPrefersGivenObject(orderId: int, given: Order, lookup: Option<Order>)
    ensures EventsFor(OrderStatusFailed(orderId, Some(given), lookup))[0].data["order_total"] == Int(given.cents)
  {
  }

  /** The hooks of one WordPress request, observed through the events they hand to the client. */
  class SerenAIHooks {
    const api: WooApi.SerenAIApi
    /** Whether `register_hooks` ran: decided once, when the hooks are built. */
    const attached: bool
    var sent: seq<SentEvent>

    /** `__construct`: the handlers are attached only when the client is registered. */
    constructor(api: WooApi.SerenAIApi)
      ensures this.api == api && attached == api.IsRegistered() && sent == []
    {
      this.api := api;
      attached := api.IsRegistered();
      sent := [];
    }

    /** `send_event` through the client, recorded. */
    method Send(event: SentEvent, now: string, transport: WooApi.Transport)
      modifies this, api
      ensures sent == old(sent) + [event]
      ensures api.apiKey == old(api.apiKey)
      ensures api.requests == old(api.requests) + api.EventRequests(event.eventType, event.data, now)
    {
      sent := sent + [event];
      var _ := api.SendEvent(event.eventType, event.data, now, transport);
    }

    /** `on_checkout_started` */
    method OnCheckoutStarted(cart: Option<Cart>, now: string, transport: WooApi.Transport)
      modifies this, api
      ensures sent == old(sent) + EventsFor(CheckoutProcess(cart))
      ensures api.apiKey == old(api.apiKey)
      ensures api.requests == old(api.requests) + api.EventRequests("checkout_started", CheckoutData(cart), now)
    {
      Send(SentEvent("checkout_started", CheckoutData(cart)), now, transport);
    }

    /** `on_order_created` */
    method OnOrderCreated(orderId: int, order: Order, now: string, transport: WooApi.Transport)
      modifies this, api
      ensures sent == old(sent) + EventsFor(CheckoutOrderProcessed(orderId, order))
      ensures api.apiKey == old(api.apiKey)
      ensures api.requests == old(api.requests) + api.EventRequests("order_created", OrderCreatedData(orderId, order), now)
    {
      Send(SentEvent("order_created", OrderCreatedData(orderId, order)), now, transport);
    }

    /** `on_order_status_changed`: only a change into `completed` or `processing` is reported. */
    method OnOrderStatusChanged(orderId: int, oldStatus: string, newStatus: string, order: Order, now: string, transport: WooApi.Transport)
      modifies this, api
      ensures sent == old(sent) + EventsFor(OrderStatusChanged(orderId, oldStatus, newStatus, order))
      ensures api.apiKey == old(api.apiKey)
      ensures newStatus != "completed" && newStatus != "processing" ==> api.requests == old(api.requests)
      ensures newStatus == "completed" || newStatus == "processing" ==>
        api.requests == old(api.requests) + api.EventRequests("order_created", sent[|sent| - 1].data, now)
    {
      if newStatus == "completed" || newStatus == "processing" {
        var data := map[
          "order_id" := Int(orderId),
          "order_total" := Int(order.cents),
          "financial_status" := Str("paid"),
          "status_transition" := Str(oldStatus + " -> " + newStatus)];
        Send(SentEvent("order_created", data), now, transport);
      }
    }

    /** `on_order_failed`: the given order, else a lookup by id; nothing is sent when neither yields one. */
    method OnOrderFailed(orderId: int, given: Option<Order>, lookup: Option<Order>, now: string, transport: WooApi.Transport)
      modifies this, api
      ensures sent == old(sent) + EventsFor(OrderStatusFailed(orderId, given, lookup))
      ensures api.apiKey == old(api.apiKey)
      ensures given.None? && lookup.None? ==> api.requests == old(api.requests)
      ensures given.Some? || lookup.Some? ==>
        api.requests == old(api.requests) + api.EventRequests("order_failed", sent[|sent| - 1].data, now)
    {
      var order := given;
      if order.None? {
        order := lookup;
      }
      if order.None? {
        return;
      }
      var data := map[
        "order_id" := Int(orderId),
        "order_total" := Int(order.value.cents),
        "financial_status" := Str("failed"),
        "payment_method" := Str(order.value.paymentMethod)];
      Send(SentEvent("order_failed", data), now, transport);
    }

    /**
     * WordPress firing one action: the matching handler runs only if the
     * hooks were attached; otherwise nothing is sent.
     */
    method Dispatch(action: WooAction, now: string, transport: WooApi.Transport)
      modifies this, api
      ensures api.apiKey == old(api.apiKey)
      ensures !attached ==> sent == old(sent) && api.requests == old(api.requests)
      ensures attached ==> sent == old(sent) + EventsFor(action)
      ensures attached && |EventsFor(action)| == 1 ==>
        api.requests == old(api.requests) + api.EventRequests(EventsFor(action)[0].eventType, EventsFor(action)[0].data, now)
      ensures attached && EventsFor(action) == [] ==> api.requests == old(api.requests)
    {
      if !attached {
        return;
      }
      match action
      case CheckoutProcess(cart) => OnCheckoutStarted(cart, now, transport);
      case CheckoutOrderProcessed(orderId, order) => OnOrderCreated(orderId, order, now, transport);
      case OrderStatusChanged(orderId, oldStatus, newStatus, order) =>
        OnOrderStatusChanged(orderId, oldStatus, newStatus, order, now, transport);
      case OrderStatusFailed(orderId, given, lookup) => OnOrderFailed(orderId, given, lookup, now, transport);
    }
  }
}
