/**
 * The order handlers: checkout turns the user's open cart into a pending
 * order and reserves its stock; pre-checkout records the shipping details
 * and checks the stock once more before the payment; a successful payment
 * writes the stock off, marks the order paid and closes the cart.
 *
 * An order's status goes from "pending" to "canceled" (a new checkout by
 * the same user) or to "paid".
 */
module Orders {
  import opened Wrappers
  import opened Text
  import opened Models
  import opened CartKb
  import opened Reservation
  import Catalog
  import CartHandlers
  import Address

  const OrderWord := "order"
  const ShortageHead := "❌ Не удалось зарезервировать товар:\n• "
  const AvailableLabel := "\nДоступно: "
  const RequestedLabel := ", Заказано: "
  const CheckoutFailedText := "❌ Не удалось оформить заказ. Скорее всего, слишком большая стоимость. Попробуйте снова."
  const PaymentErrorText := "❌ Ошибка при оплате заказа"
  const StockHead := "❌ Товара '"
  const StockTail := "' недостаточно на складе. Осталось "
  const InternalErrorText := "❌ Внутренняя ошибка сервера"
  const PaidText := "✅ Заказ успешно оплачен!"
  const PaymentFailedText := "❌ Произошла ошибка при обработке заказа"
  const MessageLimit: nat := 200

  // ------------------------------------------------------------- the payload

  /** `f'order_{id}'`, the invoice payload. */
  function OrderPayload(id: nat): string
  {
    OrderWord + "_" + NatToString(id)
  }

  /** `int(payload.split('_')[1])` reads the order id back. */
  lemma PayloadRoundTrip(id: nat)
    ensures Catalog.DecodeSecond(OrderPayload(id)) == Success(id)
  {
    Catalog.SecondRoundTrip(OrderWord, id);
  }

  // ---------------------------------------------------------------- lookups

  /** The position of the cart with key `id`. */
  function FindCart(carts: seq<Cart>, id: nat): (r: Option<nat>)
    ensures r.Some? ==> r.value < |carts| && carts[r.value].id == id
    ensures r.None? ==> forall i :: 0 <= i < |carts| ==> carts[i].id != id
  {
    Position(carts, CartKey, id)
  }

  /** The position of the order with key `id`: `Order.objects.aget(id=...)`. */
  function FindOrder(orders: seq<Order>, id: int): (r: Option<nat>)
    ensures r.Some? ==> r.value < |orders| && orders[r.value].id == id
    ensures r.None? ==> forall i :: 0 <= i < |orders| ==> orders[i].id != id
  {
    Position(orders, OrderKey, id)
  }

  /** The position of the order of cart `cartId` (an order has one cart, a cart at most one order). */
  function FindOrderFor(orders: seq<Order>, cartId: nat): (r: Option<nat>)
    ensures r.Some? ==> r.value < |orders| && orders[r.value].cart == cartId
    ensures r.None? ==> forall i :: 0 <= i < |orders| ==> orders[i].cart != cartId
  {
    Position(orders, OrderCartKey, cartId)
  }

  /** `status='pending'` and `cart__user__chat_id=chat`. */
  predicate IsPendingOf(carts: seq<Cart>, o: Order, chat: nat)
  {
    o.status == Pending
    && match FindCart(carts, o.cart)
       case None => false
       case Some(i) => carts[i].user == Some(chat)
  }

  /** The positions from `from` on of the pending orders of `chat`, in increasing order. */
  function PendingFrom(orders: seq<Order>, carts: seq<Cart>, chat: nat, from: nat): (r: seq<nat>)
    requires from <= |orders|
    ensures forall i :: i in r <==> from <= i < |orders| && IsPendingOf(carts, orders[i], chat)
    ensures forall a :: 0 <= a < |r| ==> from <= r[a] < |orders|
    ensures forall a, b :: 0 <= a < b < |r| ==> r[a] < r[b]
    decreases |orders| - from
  {
    if from == |orders| then []
    else (if IsPendingOf(carts, orders[from], chat) then [from] else []) + PendingFrom(orders, carts, chat, from + 1)
  }

  /** The positions of the pending orders of `chat`, in primary-key order. */
  function PendingOrders(orders: seq<Order>, carts: seq<Cart>, chat: nat): (r: seq<nat>)
    ensures forall i :: i in r <==> 0 <= i < |orders| && IsPendingOf(carts, orders[i], chat)
    ensures forall a :: 0 <= a < |r| ==> r[a] < |orders|
  {
    PendingFrom(orders, carts, chat, 0)
  }

  lemma {:induction false} OnlyPendingFrom(orders: seq<Order>, carts: seq<Cart>, chat: nat, k: nat, from: nat)
    requires from <= |orders| && k < |orders| && IsPendingOf(carts, orders[k], chat)
    requires forall j :: 0 <= j < |orders| && j != k ==> !IsPendingOf(carts, orders[j], chat)
    ensures PendingFrom(orders, carts, chat, from) == if from <= k then [k] else []
    decreases |orders| - from
  {
    if from < |orders| {
      OnlyPendingFrom(orders, carts, chat, k, from + 1);
      var rest := PendingFrom(orders, carts, chat, from + 1);
      if from == k {
        assert PendingFrom(orders, carts, chat, from) == [from] + rest;
      } else {
        assert !IsPendingOf(carts, orders[from], chat);
        assert PendingFrom(orders, carts, chat, from) == [] + rest;
      }
    }
  }

  // --------------------------------------------------- the user's active order

  /**
   * The active-order lookup as written: `.aget()` on the user's pending
   * orders raises `DoesNotExist` when there is none and
   * `MultipleObjectsReturned` when there are several, so the `if
   * active_order:` that follows only ever sees an order.
   */
  function ActiveOrderAsWritten(orders: seq<Order>, carts: seq<Cart>, chat: nat): (r: Result<nat, Crash>)
    ensures r.Success? ==> PendingOrders(orders, carts, chat) == [r.value]
    ensures PendingOrders(orders, carts, chat) == [] ==> r == Failure(DoesNotExist)
  {
    var pending := PendingOrders(orders, carts, chat);
    if |pending| == 0 then Failure(DoesNotExist)
    else if |pending| > 1 then Failure(MultipleObjectsReturned)
    else Success(pending[0])
  }

  /**
   * As written, checkout can never get past the lookup while no order of the
   * shop is pending, and only checkout makes an order pending: from an empty
   * order table, no order is ever placed.
   */
  lemma AsWrittenCheckoutNeverStarts(orders: seq<Order>, carts: seq<Cart>, chat: nat)
    requires forall i :: 0 <= i < |orders| ==> orders[i].status != Pending
    ensures ActiveOrderAsWritten(orders, carts, chat) == Failure(DoesNotExist)
  {
    NoPendingFrom(orders, carts, chat, 0);
  }

  lemma {:induction false} NoPendingFrom(orders: seq<Order>, carts: seq<Cart>, chat: nat, from: nat)
    requires from <= |orders|
    requires forall i :: 0 <= i < |orders| ==> orders[i].status != Pending
    ensures PendingFrom(orders, carts, chat, from) == []
    decreases |orders| - from
  {
    if from < |orders| {
      NoPendingFrom(orders, carts, chat, from + 1);
    }
  }

  /**
   * The active-order lookup as intended (`.afirst()`): the user's first
   * pending order, if there is one.
   */
  function ActiveOrder(orders: seq<Order>, carts: seq<Cart>, chat: nat): (r: Option<nat>)
    ensures r.None? <==> PendingOrders(orders, carts, chat) == []
    ensures r.Some? ==> r.value < |orders| && IsPendingOf(carts, orders[r.value], chat)
  {
    var pending := PendingOrders(orders, carts, chat);
    if pending == [] then None
    else Some(pending[0])
  }

  /** Where the lookup as written answers, the intended one gives the same order. */
  lemma ActiveOrderAgrees(orders: seq<Order>, carts: seq<Cart>, chat: nat)
    ensures ActiveOrderAsWritten(orders, carts, chat).Success? ==>
      ActiveOrder(orders, carts, chat) == Some(ActiveOrderAsWritten(orders, carts, chat).value)
  {
  }

  // ------------------------------------------------------------- checkout

  /** The cart's lines with their products loaded (an inner join: a line without its product is not seen). */
  function LinesOf(items: seq<CartItem>, products: map<nat, Product>): (lines: seq<CartLine>)
    ensures |lines| <= |items|
    ensures forall k :: 0 <= k < |lines| ==>
      (lines[k].item in items && lines[k].item.product in products && lines[k].product == products[lines[k].item.product])
    decreases |items|
  {
    if items == [] then []
    else
      var rest := LinesOf(items[1..], products);
      if items[0].product in products then [CartLine(items[0], products[items[0].product])] + rest else rest
  }

  /** The order lines created from the cart lines: product, quantity and the product's price. */
  function OrderItemsOf(lines: seq<CartLine>): (items: seq<OrderItem>)
    ensures |items| == |lines|
  {
    seq(|lines|, i requires 0 <= i < |lines| => OrderItem(lines[i].item.product, lines[i].item.quantity, lines[i].product.price))
  }

  /** The value of order lines: the sum of price times quantity. */
  function ItemsTotal(items: seq<OrderItem>): nat
    decreases |items|
  {
    if items == [] then 0 else ItemsTotal(items[..|items| - 1]) + items[|items| - 1].price * items[|items| - 1].quantity
  }

  /**
   * The amount invoiced, and stored as `total_amount`, is the value of the
   * order lines created from the cart.
   */
  lemma {:induction false} InvoiceMatchesOrderLines(lines: seq<CartLine>)
    ensures ItemsTotal(OrderItemsOf(lines)) == CartTotal(lines)
    decreases |lines|
  {
    if lines != [] {
      var n := |lines| - 1;
      InvoiceMatchesOrderLines(lines[..n]);
      assert OrderItemsOf(lines)[..n] == OrderItemsOf(lines[..n]);
    }
  }

  /** The orders after the user's active order, if any, is marked canceled. */
  function CancelActive(orders: seq<Order>, carts: seq<Cart>, chat: nat): (r: seq<Order>)
    ensures |r| == |orders|
  {
    match ActiveOrder(orders, carts, chat)
    case None => orders
    case Some(k) => orders[k := orders[k].(status := Canceled)]
  }

  /** The products after the active order's reservation, if any, is released. */
  function ReleaseActive(orders: seq<Order>, carts: seq<Cart>, chat: nat, products: map<nat, Product>): map<nat, Product>
  {
    match ActiveOrder(orders, carts, chat)
    case None => products
    case Some(k) => Cancel(products, products, orders[k].items)
  }

  /**
   * `Order.objects.aupdate_or_create(cart=cart, defaults=...)` followed by
   * the deletion of an existing order's lines: the cart's order is made
   * pending with the new total and no lines, or a new one is appended under
   * `newOrderId`. Also the position of that order.
   */
  function UpsertOrder(orders: seq<Order>, cartId: nat, total: nat, newOrderId: nat, createdAt: string): (r: (seq<Order>, nat))
    ensures r.1 < |r.0| && (|r.0| == |orders| || (|r.0| == |orders| + 1 && r.1 == |orders|))
    ensures r.0[r.1].cart == cartId && r.0[r.1].status == Pending && r.0[r.1].totalAmount == total && r.0[r.1].items == []
    ensures forall i :: 0 <= i < |orders| && i != r.1 ==> r.0[i] == orders[i]
    ensures r.1 < |orders| ==> r.0[r.1] == orders[r.1].(status := Pending, totalAmount := total, items := [])
  {
    match FindOrderFor(orders, cartId)
    case Some(k) => (orders[k := orders[k].(status := Pending, totalAmount := total, items := [])], k)
    case None => (orders + [Order(newOrderId, cartId, "", "", "", total, createdAt, None, Pending, [])], |orders|)
  }

  /** What checkout has in hand before it reserves: the lines, the total, and the tables so far. */
  datatype Plan = Plan(lines: seq<CartLine>, total: nat, released: map<nat, Product>, orders: seq<Order>, position: nat)

  /**
   * Checkout up to the reservation, for the user's open cart at `cartPos`:
   * the lines and their total at the products' current prices, the active
   * order canceled and its reservation released, and the cart's order made
   * pending.
   */
  function CheckoutPlan(orders: seq<Order>, carts: seq<Cart>, products: map<nat, Product>, chat: nat, cartPos: nat,
                        newOrderId: nat, createdAt: string): (p: Plan)
    requires cartPos < |carts|
    ensures p.position < |p.orders|
    ensures p.total == ItemsTotal(OrderItemsOf(p.lines))
  {
    var lines := LinesOf(carts[cartPos].items, products);
    var total := CartTotal(lines);
    InvoiceMatchesOrderLines(lines);
    var placed := UpsertOrder(CancelActive(orders, carts, chat), carts[cartPos].id, total, newOrderId, createdAt);
    Plan(lines, total, ReleaseActive(orders, carts, chat, products), placed.0, placed.1)
  }

  datatype CheckoutOutcome =
    | Invoice(payload: string, amount: nat)   // the invoice is sent for `amount` kopecks
    | Alert(text: string)                     // a product is short: the user is told which
    | Answered(text: string)                  // the checkout failed and the user is told so
    | Crashed(e: Crash)                       // the handler stopped with an exception
    | Ignored                                 // the press came from a bot: nothing happens

  /** The alert for `InsufficientStockError(product, available, requested)`. */
  function ShortageMessage(p: Product, available: int, requested: nat): string
  {
    ShortageHead + p.description + AvailableLabel + IntToString(available) + RequestedLabel + NatToString(requested)
  }

  /**
   * The end of checkout, from the reservation on, for the pending order at
   * `k`: when the stock is reserved the order gets its lines and the invoice
   * is sent, and when sending fails the reservation is released again; a
   * shortage is reported with nothing reserved; any other failure releases
   * the (empty) order's reservation.
   */
  ghost predicate AfterReservation(before: map<nat, Product>, lines: seq<CartLine>, orders0: seq<Order>, k: nat,
                                   total: nat, invoiceSent: bool, r: CheckoutOutcome,
                                   products: map<nat, Product>, orders: seq<Order>)
    requires k < |orders0|
  {
    match Reserve(before, lines)
    case Success(reserved) =>
      orders == orders0[k := orders0[k].(items := OrderItemsOf(lines))]
      && (invoiceSent ==> r == Invoice(OrderPayload(orders0[k].id), total) && products == reserved)
      && (!invoiceSent ==> r == Answered(CheckoutFailedText) && products == Cancel(reserved, reserved, OrderItemsOf(lines)))
    case Failure(InsufficientStock(p, a, q)) =>
      r == Alert(ShortageMessage(p, a, q)) && products == before && orders == orders0
    case Failure(Raised(_)) =>
      r == Answered(CheckoutFailedText) && products == before && orders == orders0
  }

  /** The `try` block of checkout and its handlers. */
  method ReserveAndInvoice(db: Database, k: nat, lines: seq<CartLine>, total: nat, invoiceSent: bool) returns (r: CheckoutOutcome)
    requires k < |db.orders| && db.orders[k].items == []
    modifies db
    ensures AfterReservation(old(db.products), lines, old(db.orders), k, total, invoiceSent, r, db.products, db.orders)
    ensures db.users == old(db.users) && db.categories == old(db.categories) && db.carts == old(db.carts)
    ensures old(db.Valid()) ==> db.Valid()
  {
    var reserved := ReserveItems(db, lines);
    if reserved.Fail? {
      match reserved.error {
        case InsufficientStock(p, a, q) =>
          r := Alert(ShortageHead + p.description + AvailableLabel + IntToString(a) + RequestedLabel + NatToString(q));
        case Raised(_) =>
          CancelReservation(db, db.orders[k].items);
          r := Answered(CheckoutFailedText);
      }
      return;
    }
    var items := OrderItemsOf(lines);
    db.orders := db.orders[k := db.orders[k].(items := items)];
    if invoiceSent {
      r := Invoice(OrderWord + "_" + NatToString(db.orders[k].id), total);
    } else {
      CancelReservation(db, items);
      r := Answered(CheckoutFailedText);
    }
  }

  /** The user's active order, if any, is canceled and its reservation released. */
  method CancelActiveOrder(db: Database, chat: nat)
    modifies db
    ensures db.products == ReleaseActive(old(db.orders), old(db.carts), chat, old(db.products))
    ensures db.orders == CancelActive(old(db.orders), old(db.carts), chat)
    ensures db.users == old(db.users) && db.categories == old(db.categories) && db.carts == old(db.carts)
    ensures old(db.Valid()) ==> db.Valid()
  {
    var active := ActiveOrder(db.orders, db.carts, chat);
    if active.Some? {
      CancelReservation(db, db.orders[active.value].items);
      db.orders := db.orders[active.value := db.orders[active.value].(status := Canceled)];
    }
  }

  /**
   * `checkout(call)`: a press from a bot is ignored; the user row is written with the chat's username
   * (which may not be missing); the user's one open cart is read with its
   * lines; the active order is canceled and its reservation released (the
   * intended `.afirst()` lookup); the cart's order is made pending with the
   * total; then the stock is reserved and the invoice sent.
   */
  method Checkout(db: Database, fromBot: bool, chat: nat, username: Option<string>, newOrderId: nat, createdAt: string,
                  invoiceSent: bool)
    returns (r: CheckoutOutcome)
    modifies db
    ensures db.categories == old(db.categories) && db.carts == old(db.carts)
    ensures fromBot ==> r == Ignored && db.users == old(db.users) && db.products == old(db.products) && db.orders == old(db.orders)
    ensures !fromBot ==> r != Ignored
    ensures !fromBot && username.None? ==>
      (r == Crashed(IntegrityError) && db.users == old(db.users) && db.products == old(db.products) && db.orders == old(db.orders))
    ensures !fromBot && username.Some? ==> db.users == old(db.users)[chat := username.value]
    ensures !fromBot && username.Some? && |CartHandlers.OpenCarts(old(db.carts), chat)| != 1 ==>
      r == Crashed(if |CartHandlers.OpenCarts(old(db.carts), chat)| == 0 then DoesNotExist else MultipleObjectsReturned)
      && db.products == old(db.products) && db.orders == old(db.orders)
    ensures !fromBot && username.Some? && |CartHandlers.OpenCarts(old(db.carts), chat)| == 1 ==>
      var plan := CheckoutPlan(old(db.orders), old(db.carts), old(db.products), chat,
                               CartHandlers.OpenCarts(old(db.carts), chat)[0], newOrderId, createdAt);
      AfterReservation(plan.released, plan.lines, plan.orders, plan.position, plan.total, invoiceSent, r, db.products, db.orders)
    ensures old(db.Valid()) ==> db.Valid()
  {
    if fromBot {
      return Ignored;
    }
    if username.None? {
      return Crashed(IntegrityError);
    }
    db.users := db.users[chat := username.value];
    var open := CartHandlers.OpenCarts(db.carts, chat);
    if |open| != 1 {
      return Crashed(if |open| == 0 then DoesNotExist else MultipleObjectsReturned);
    }
    var k, lines, total := PlaceOrder(db, chat, open[0], newOrderId, createdAt);
    r := ReserveAndInvoice(db, k, lines, total, invoiceSent);
  }

  /**
   * Checkout up to the reservation, for the open cart at `cartPos`: the
   * lines and their total are read, the active order is canceled and its
   * reservation released, and the cart's order is made pending with the
   * total and no lines.
   */
  method PlaceOrder(db: Database, chat: nat, cartPos: nat, newOrderId: nat, createdAt: string)
    returns (k: nat, lines: seq<CartLine>, total: nat)
    requires cartPos < |db.carts|
    modifies db
    ensures var plan := CheckoutPlan(old(db.orders), old(db.carts), old(db.products), chat, cartPos, newOrderId, createdAt);
      lines == plan.lines && total == plan.total && k == plan.position
      && db.products == plan.released && db.orders == plan.orders
    ensures k < |db.orders| && db.orders[k].items == []
    ensures db.users == old(db.users) && db.categories == old(db.categories) && db.carts == old(db.carts)
    ensures old(db.Valid()) ==> db.Valid()
  {
    var cart := db.carts[cartPos];
    lines := LinesOf(cart.items, db.products);
    total := CartTotal(lines);
    CancelActiveOrder(db, chat);
    var placed := UpsertOrder(db.orders, cart.id, total, newOrderId, createdAt);
    db.orders := placed.0;
    k := placed.1;
  }

  /** Order keys are primary keys and an order has its own cart. */
  ghost predicate OrderTable(orders: seq<Order>)
  {
    forall i, j :: 0 <= i < j < |orders| ==> orders[i].id != orders[j].id && orders[i].cart != orders[j].cart
  }

  ghost predicate DistinctCartIds(carts: seq<Cart>)
  {
    forall i, j :: 0 <= i < j < |carts| ==> carts[i].id != carts[j].id
  }

  /**
   * A user never holds two pending orders: when they had at most one
   * before a checkout, the order of their cart is their only pending one
   * afterwards.
   */
  lemma CheckoutLeavesOnePending(orders: seq<Order>, carts: seq<Cart>, products: map<nat, Product>, chat: nat,
                                 cartPos: nat, newOrderId: nat, createdAt: string)
    requires cartPos < |carts| && CartHandlers.IsOpenCartOf(carts[cartPos], chat) && DistinctCartIds(carts)
    requires |PendingOrders(orders, carts, chat)| <= 1
    ensures var plan := CheckoutPlan(orders, carts, products, chat, cartPos, newOrderId, createdAt);
      PendingOrders(plan.orders, carts, chat) == [plan.position]
  {
    var plan := CheckoutPlan(orders, carts, products, chat, cartPos, newOrderId, createdAt);
    var canceled := CancelActive(orders, carts, chat);
    CancelActiveLeavesNone(orders, carts, chat);
    var k := plan.position;
    assert FindCart(carts, carts[cartPos].id) == Some(cartPos);
    assert IsPendingOf(carts, plan.orders[k], chat);
    OnlyPendingAt(canceled, plan.orders, k, carts, chat);
  }

  /** With at most one pending order, none is left pending once the active one is canceled. */
  lemma CancelActiveLeavesNone(orders: seq<Order>, carts: seq<Cart>, chat: nat)
    requires |PendingOrders(orders, carts, chat)| <= 1
    ensures var canceled := CancelActive(orders, carts, chat);
      forall i :: 0 <= i < |canceled| ==> !IsPendingOf(carts, canceled[i], chat)
  {
    var canceled := CancelActive(orders, carts, chat);
    forall i | 0 <= i < |canceled| ensures !IsPendingOf(carts, canceled[i], chat) {
      var pending := PendingOrders(orders, carts, chat);
      if IsPendingOf(carts, orders[i], chat) {
        assert i in pending;
        assert pending == [i];
      }
    }
  }

  /** A table with no pending order of `chat`, once the order at `k` is made pending, has that one only. */
  lemma OnlyPendingAt(before: seq<Order>, after: seq<Order>, k: nat, carts: seq<Cart>, chat: nat)
    requires k < |after| && IsPendingOf(carts, after[k], chat)
    requires |after| == |before| || (|after| == |before| + 1 && k == |before|)
    requires forall i :: 0 <= i < |before| && i != k ==> after[i] == before[i]
    requires forall i :: 0 <= i < |before| ==> !IsPendingOf(carts, before[i], chat)
    ensures PendingOrders(after, carts, chat) == [k]
  {
    forall j | 0 <= j < |after| && j != k ensures !IsPendingOf(carts, after[j], chat) {
      assert after[j] == before[j];
    }
    OnlyPendingFrom(after, carts, chat, k, 0);
  }

  // ----------------------------------------------------------- pre_checkout

  datatype PreCheckoutAnswer = Accept | Refuse(message: string)

  /**
   * The reservation check of `pre_checkout`: the first order line whose
   * product has `quantity - (reserved - q) < q`, that is, more reserved than
   * in stock.
   */
  function FirstShortage(items: seq<OrderItem>, products: map<nat, Product>): (r: Option<Product>)
    ensures r.Some? ==> r.value.reserved > r.value.quantity
    decreases |items|
  {
    if items == [] then None
    else
      var pk := items[0].product;
      if pk in products && products[pk].quantity - (products[pk].reserved - items[0].quantity) < items[0].quantity then
        Some(products[pk])
      else
        FirstShortage(items[1..], products)
  }

  /** The check passes exactly when no product of the order has more reserved than in stock. */
  lemma {:induction false} ShortageIffOverReserved(items: seq<OrderItem>, products: map<nat, Product>)
    ensures FirstShortage(items, products).None? <==>
      forall k :: 0 <= k < |items| && items[k].product in products ==> Covered(products[items[k].product])
    decreases |items|
  {
    if items != [] {
      ShortageIffOverReserved(items[1..], products);
      assert forall k :: 1 <= k < |items| ==> items[k] == items[1..][k - 1];
    }
  }

  /** `f"❌ Товара '{description}' недостаточно на складе. Осталось {quantity - reserved}"` */
  function StockMessage(p: Product): string
  {
    StockHead + p.description + StockTail + IntToString(p.quantity - p.reserved)
  }

  /**
   * The release on refusal as written: once the order is loaded, any
   * refusal runs `cancel_reservation(order)`, also when the refusal is
   * that the order is no longer pending.
   */
  function ReleaseOnRefusalAsWritten(products: map<nat, Product>, o: Order): map<nat, Product>
  {
    Cancel(products, products, o.items)
  }

  /**
   * The release on refusal as intended: only a pending order holds a
   * reservation, so only a pending order's reservation is released.
   */
  function ReleaseOnRefusal(products: map<nat, Product>, o: Order): (r: map<nat, Product>)
    ensures o.status != Pending ==> r == products
    ensures o.status == Pending ==> r == ReleaseOnRefusalAsWritten(products, o)
    ensures forall id :: id in products ==> id in r && r[id].reserved <= products[id].reserved
  {
    CancelNeverRaises(products, products, o.items);
    if o.status == Pending then Cancel(products, products, o.items) else products
  }

  /**
   * As written, paying a copy of a paid invoice releases stock that another
   * order holds. The invoice carries no `start_parameter`, so a forwarded
   * copy of it can be paid again. Order 1 asks 3 of a product with 10 in
   * stock: the payment writes the 3 off and confirms the reservation. The
   * user then checks out order 2 from a new cart, which reserves 3 again.
   * Paying the copy of order 1's invoice finds a paid order and refuses it,
   * and the refusal releases 3: order 2's reservation drops to 0 although
   * that order is still pending. The corrected release leaves it at 3.
   */
  lemma AsWrittenStaleInvoiceReleasesOthers()
    ensures var items := [OrderItem(1, 3, 100)];
      var reservedFirst := Product(1, 1, "", 100, 10, 3, true, None);
      var paidOff := Product(1, 1, "", 100, 7, 0, true, None);
      var reservedSecond := paidOff.(reserved := 3);
      var paid := Order(1, 1, "", "", "", 300, "", Some("charge"), Paid, items);
      Confirm(map[1 := reservedFirst], map[1 := reservedFirst], items) == Success(map[1 := paidOff])
      && Reserve(map[1 := paidOff], [CartLine(CartItem(2, 1, 3, 100), paidOff)]) == Success(map[1 := reservedSecond])
      && ReleaseOnRefusalAsWritten(map[1 := reservedSecond], paid)[1].reserved == 0
      && ReleaseOnRefusal(map[1 := reservedSecond], paid)[1].reserved == 3
  {
    var items := [OrderItem(1, 3, 100)];
    var reservedFirst := Product(1, 1, "", 100, 10, 3, true, None);
    var paidOff := Product(1, 1, "", 100, 7, 0, true, None);
    var reservedSecond := paidOff.(reserved := 3);
    var lines := [CartLine(CartItem(2, 1, 3, 100), paidOff)];
    assert items[1..] == [] && lines[1..] == [];
    assert map[1 := reservedFirst][1 := paidOff] == map[1 := paidOff];
    assert Confirm(map[1 := reservedFirst], map[1 := reservedFirst], items) == Success(map[1 := paidOff]);
    assert map[1 := paidOff][1 := reservedSecond] == map[1 := reservedSecond];
    assert Reserve(map[1 := paidOff], lines) == Success(map[1 := reservedSecond]);
    assert Cancel(map[1 := reservedSecond], map[1 := reservedSecond], items) == map[1 := reservedSecond.(reserved := 0)];
  }

  /**
   * `pre_checkout(query)`: the order id is read from the payload; the order
   * must exist with its cart, and be pending; the buyer's name, phone and formatted address
   * are saved; then every line's product is checked, and the first one with
   * more reserved than in stock refuses the payment and releases the order's
   * reservation. Refusal texts are cut to 200 characters.
   */
  method PreCheckout(db: Database, payload: string, fullName: string, phone: string, shipping: Address.ShippingAddress)
    returns (a: PreCheckoutAnswer)
    modifies db
    ensures db.users == old(db.users) && db.categories == old(db.categories) && db.carts == old(db.carts)
    ensures Catalog.DecodeSecond(payload).Failure? ==>
      a == Refuse(if Catalog.DecodeSecond(payload).error == ValueError then PaymentErrorText else InternalErrorText)
      && db.products == old(db.products) && db.orders == old(db.orders)
    ensures Catalog.DecodeSecond(payload).Success? ==>
      match FindOrder(old(db.orders), Catalog.DecodeSecond(payload).value)
      case None => a == Refuse(PaymentErrorText) && db.products == old(db.products) && db.orders == old(db.orders)
      case Some(k) =>
        var o := old(db.orders)[k];
        if FindCart(old(db.carts), o.cart).None? then
          a == Refuse(PaymentErrorText) && db.products == old(db.products) && db.orders == old(db.orders)
        else if o.status != Pending then
          a == Refuse(PaymentErrorText) && db.products == ReleaseOnRefusal(old(db.products), o) && db.orders == old(db.orders)
        else
          db.orders == old(db.orders)[k := o.(fullName := fullName, phone := phone,
                                               address := Join(Address.AddressParts(shipping), Address.Separator))]
          && match FirstShortage(o.items, old(db.products))
             case None => a == Accept && db.products == old(db.products)
             case Some(p) => a == Refuse(Take(StockMessage(p), MessageLimit)) && db.products == ReleaseOnRefusal(old(db.products), o)
    ensures old(db.Valid()) ==> db.Valid()
  {
    var orderId := Catalog.DecodeSecond(payload);
    if orderId.Failure? {
      return Refuse(if orderId.error == ValueError then PaymentErrorText else InternalErrorText);
    }
    var k := FindOrder(db.orders, orderId.value);
    if k.None? {
      return Refuse(PaymentErrorText);
    }
    var order := db.orders[k.value];
    var c := FindCart(db.carts, order.cart);
    if c.None? {
      return Refuse(PaymentErrorText);
    }
    if order.status != Pending {
      return Refuse(PaymentErrorText);
    }
    a := CheckPendingOrder(db, k.value, fullName, phone, shipping);
  }

  /**
   * The rest of `pre_checkout` for the pending order at `k`: the shipping
   * details are stored on it, then every line is checked against the stock;
   * the first short product refuses the payment and releases the reservation.
   */
  method CheckPendingOrder(db: Database, k: nat, fullName: string, phone: string, shipping: Address.ShippingAddress)
    returns (a: PreCheckoutAnswer)
    requires k < |db.orders| && db.orders[k].status == Pending
    modifies db
    ensures db.users == old(db.users) && db.categories == old(db.categories) && db.carts == old(db.carts)
    ensures var o := old(db.orders)[k];
      db.orders == old(db.orders)[k := o.(fullName := fullName, phone := phone,
                                           address := Join(Address.AddressParts(shipping), Address.Separator))]
      && match FirstShortage(o.items, old(db.products))
         case None => a == Accept && db.products == old(db.products)
         case Some(p) => a == Refuse(Take(StockMessage(p), MessageLimit)) && db.products == ReleaseOnRefusal(old(db.products), o)
    ensures old(db.Valid()) ==> db.Valid()
  {
    var order := db.orders[k];
    var address := Address.FormatAddress(shipping);
    order := order.(fullName := fullName, phone := phone, address := address);
    db.orders := db.orders[k := order];
    var shortage := FirstShortage(order.items, db.products);
    if shortage.Some? {
      var message := StockHead + shortage.value.description + StockTail + IntToString(shortage.value.quantity - shortage.value.reserved);
      CancelReservation(db, order.items);
      return Refuse(Take(message, MessageLimit));
    }
    a := Accept;
  }

  // ----------------------------------------------------- successful_payment

  datatype PaymentOutcome =
    | Confirmed(order: Order)     // the order is paid; it goes to the CSV export
    | NotConfirmed(text: string)  // the handler caught an exception and told the user
    | PaymentCrashed(e: Crash)    // the payload could not be read, outside the `try`

  /**
   * `successful_payment(message)`: the order id is read from the payload;
   * the order and its cart are loaded; the stock is written off; then the
   * order is marked paid with the provider's charge id and its cart is
   * closed. If the write-off fails nothing changes.
   */
  method SuccessfulPayment(db: Database, payload: string, chargeId: string) returns (r: PaymentOutcome)
    modifies db
    ensures db.users == old(db.users) && db.categories == old(db.categories)
    ensures Catalog.DecodeSecond(payload).Failure? ==>
      r == PaymentCrashed(Catalog.DecodeSecond(payload).error)
      && db.products == old(db.products) && db.orders == old(db.orders) && db.carts == old(db.carts)
    ensures Catalog.DecodeSecond(payload).Success? ==>
      match FindOrder(old(db.orders), Catalog.DecodeSecond(payload).value)
      case None => r == NotConfirmed(PaymentFailedText)
        && db.products == old(db.products) && db.orders == old(db.orders) && db.carts == old(db.carts)
      case Some(k) =>
        var o := old(db.orders)[k];
        match FindCart(old(db.carts), o.cart)
        case None => r == NotConfirmed(PaymentFailedText)
          && db.products == old(db.products) && db.orders == old(db.orders) && db.carts == old(db.carts)
        case Some(c) =>
          match Confirm(old(db.products), old(db.products), o.items)
          case Failure(_) => r == NotConfirmed(PaymentFailedText)
            && db.products == old(db.products) && db.orders == old(db.orders) && db.carts == old(db.carts)
          case Success(written) =>
            var paid := o.(status := Paid, paymentId := Some(chargeId));
            r == Confirmed(paid) && db.products == written
            && db.orders == old(db.orders)[k := paid]
            && db.carts == old(db.carts)[c := old(db.carts)[c].(isOrdered := true)]
    ensures old(db.Valid()) ==> db.Valid()
  {
    var orderId := Catalog.DecodeSecond(payload);
    if orderId.Failure? {
      return PaymentCrashed(orderId.error);
    }
    var k := FindOrder(db.orders, orderId.value);
    if k.None? {
      return NotConfirmed(PaymentFailedText);
    }
    var order := db.orders[k.value];
    var c := FindCart(db.carts, order.cart);
    if c.None? {
      return NotConfirmed(PaymentFailedText);
    }
    r := PayOrder(db, k.value, c.value, chargeId);
  }

  /**
   * The `try` block of `successful_payment` once the order (at `k`) and its
   * cart (at `c`) are loaded: the stock is written off, then the order is
   * marked paid and the cart closed; a failed write-off changes nothing.
   */
  method PayOrder(db: Database, k: nat, c: nat, chargeId: string) returns (r: PaymentOutcome)
    requires k < |db.orders| && c < |db.carts|
    modifies db
    ensures db.users == old(db.users) && db.categories == old(db.categories)
    ensures var o := old(db.orders)[k];
      match Confirm(old(db.products), old(db.products), o.items)
      case Failure(_) => r == NotConfirmed(PaymentFailedText)
        && db.products == old(db.products) && db.orders == old(db.orders) && db.carts == old(db.carts)
      case Success(written) =>
        var paid := o.(status := Paid, paymentId := Some(chargeId));
        r == Confirmed(paid) && db.products == written
        && db.orders == old(db.orders)[k := paid]
        && db.carts == old(db.carts)[c := old(db.carts)[c].(isOrdered := true)]
    ensures old(db.Valid()) ==> db.Valid()
  {
    var order := db.orders[k];
    var confirmed := ConfirmOrder(db, order.items);
    if confirmed.Fail? {
      return NotConfirmed(PaymentFailedText);
    }
    order := order.(status := Paid, paymentId := Some(chargeId));
    db.orders := db.orders[k := order];
    db.carts := db.carts[c := db.carts[c].(isOrdered := true)];
    r := Confirmed(order);
  }

  /**
   * Once its order is paid the cart is closed: it is no longer any user's
   * open cart, and every other cart stays as open as it was.
   */
  lemma PaidCartIsClosed(carts: seq<Cart>, c: nat, chat: nat)
    requires c < |carts|
    ensures var closed := carts[c := carts[c].(isOrdered := true)];
      forall i :: i in CartHandlers.OpenCarts(closed, chat) <==> i in CartHandlers.OpenCarts(carts, chat) && i != c
  {
  }

  /**
   * The payload of the invoice for the pending order at `k` leads
   * pre-checkout and the payment to that order, when order keys are unique.
   */
  lemma InvoiceFindsItsOrder(orders: seq<Order>, k: nat)
    requires k < |orders| && OrderTable(orders)
    ensures Catalog.DecodeSecond(OrderPayload(orders[k].id)) == Success(orders[k].id as int)
    ensures FindOrder(orders, orders[k].id) == Some(k)
  {
    PayloadRoundTrip(orders[k].id);
    FindsUniqueId(orders, k);
  }

  lemma FindsUniqueId(orders: seq<Order>, k: nat)
    requires k < |orders| && OrderTable(orders)
    ensures FindOrder(orders, orders[k].id) == Some(k)
  {
    var f := FindOrder(orders, orders[k].id);
    assert f.Some?;
    assert orders[f.value].id == orders[k].id;
  }
}
