/**
 * The order rules of controllers/orderController.js over an in-memory order
 * collection: submission with its notification text, cancellation, listing.
 *
 * `Math.random()` is a parameter in [0, 1), the clock is a parameter, and the
 * Telegram `sendMessage` call is a function from the text to success or an error.
 */
module OrderController {
  import opened Wrappers
  import opened Strings
  import opened Ids

  /** One purchased line: the product's name and its `type`. */
  datatype PurchasedProduct = PurchasedProduct(productname: Option<string>, kind: Option<string>)

  /** The request body. `quantity` arrives under the field name `qunatity`. */
  datatype OrderBody = OrderBody(
    username: Option<string>, phone: Option<string>, address: Option<string>,
    shippingMethod: Option<string>, quantity: Option<nat>, unit: Option<string>,
    purchasedProducts: Option<seq<PurchasedProduct>>)

  /** A stored order (models/orderModel.js). */
  datatype Order = Order(
    id: nat, username: string, phone: string, address: string, shippingMethod: string,
    quantity: nat, unit: string, purchasedProducts: seq<(string, string)>, isCancelled: bool, createdAt: int)

  datatype Orders = Orders(orders: seq<Order>, nextId: nat)

  datatype Reply =
    | Submitted(orderCode: string)          // 201
    | OrderList(orders: seq<Order>)         // 200
    | Cancelled(message: string)            // 200
    | Failure(status: nat, message: string)

  // ---------------------------------------------------------------------------
  // Pure parts

  /** `Math.floor(Math.random() * 100000000).toString()`. */
  function OrderCode(random: real): (code: string)
    requires 0.0 <= random < 1.0
    ensures IsDigits(code) && 1 <= |code| <= 8
    ensures DigitsValue(code) < 100000000
    ensures DigitsValue(code) == (random * 100000000.0).Floor
  {
    var n := (random * 100000000.0).Floor;
    assert 0 <= n < 100000000;
    NatToStringValue(n);
    assert Pow10(8) == 100000000;
    NatToStringLength(n, 8);
    NatToString(n)
  }

  /** `${p.productname} (${p.type})`, with a missing field printed as `undefined`. */
  function ProductLine(p: PurchasedProduct): string {
    p.productname.GetOr("undefined") + " (" + p.kind.GetOr("undefined") + ")"
  }

  function ProductLines(ps: seq<PurchasedProduct>): (lines: seq<string>)
    ensures |lines| == |ps|
    ensures forall i :: 0 <= i < |ps| ==> lines[i] == ProductLine(ps[i])
  {
    seq(|ps|, i requires 0 <= i < |ps| => ProductLine(ps[i]))
  }

  /** `purchasedProducts.map(...).join("\n")`. */
  function ProductsText(ps: seq<PurchasedProduct>): string {
    Join(ProductLines(ps), '\n')
  }

  predicate OneLine(s: string) {
    '\n' !in s
  }

  predicate ProductsOneLine(ps: seq<PurchasedProduct>) {
    forall i :: 0 <= i < |ps| ==> OneLine(ProductLine(ps[i]))
  }

  /** The product text has exactly one line per purchased product, in order. */
  lemma ProductsTextLines(ps: seq<PurchasedProduct>)
    requires |ps| >= 1 && ProductsOneLine(ps)
    ensures Split(ProductsText(ps), '\n') == ProductLines(ps)
  {
    SplitJoin(ProductLines(ps), '\n');
  }

  const Heading: string := "📦 New order submitted!"

  /** The Telegram text of an order: the header block, the product lines and a final line break. */
  function NotificationMessage(code: string, order: Order, ps: seq<PurchasedProduct>): string {
    HeaderText(code, order) + "\n" + ProductsText(ps) + "\n"
  }

  /** The template up to `Products:`. */
  function HeaderText(code: string, order: Order): string {
    "\n" + Heading + "\n" +
    "Order Code: " + code + "\n" +
    "Name: " + order.username + "\n" +
    "Phone: " + order.phone + "\n" +
    "Address: " + order.address + "\n" +
    "Shipping: " + order.shippingMethod + "\n" +
    "Quantity: " + NatToString(order.quantity) + " " + order.unit + "\n" +
    "Products:"
  }

  function HeaderLines(code: string, order: Order): seq<string> {
    ["", Heading, "Order Code: " + code, "Name: " + order.username,
     "Phone: " + order.phone, "Address: " + order.address, "Shipping: " + order.shippingMethod,
     "Quantity: " + NatToString(order.quantity) + " " + order.unit, "Products:"]
  }

  predicate FieldsOneLine(code: string, order: Order) {
    OneLine(code) && OneLine(order.username) && OneLine(order.phone) && OneLine(order.address) &&
    OneLine(order.shippingMethod) && OneLine(order.unit)
  }

  /** The header block has one line per labelled field. */
  lemma HeaderTextLines(code: string, order: Order)
    requires FieldsOneLine(code, order)
    ensures Split(HeaderText(code, order), '\n') == HeaderLines(code, order)
  {
    assert "\n" + Heading == "" + "\n" + Heading;
    SplitLines("", Heading);
    FieldLines("\n" + Heading, code, order);
  }

  lemma {:induction false} FieldLines(x: string, code: string, order: Order)
    requires FieldsOneLine(code, order) && Split(x, '\n') == ["", Heading]
    ensures Split(x + "\n" +
                  "Order Code: " + code + "\n" +
                  "Name: " + order.username + "\n" +
                  "Phone: " + order.phone + "\n" +
                  "Address: " + order.address + "\n" +
                  "Shipping: " + order.shippingMethod + "\n" +
                  "Quantity: " + NatToString(order.quantity) + " " + order.unit + "\n" +
                  "Products:", '\n') == HeaderLines(code, order)
  {
    var x4 := x + "\n" + "Order Code: " + code + "\n" + "Name: " + order.username + "\n" + "Phone: " + order.phone;
    ContactLines(x, code, order);
    DeliveryLines(x4, order, ["", Heading, "Order Code: " + code, "Name: " + order.username, "Phone: " + order.phone]);
  }

  lemma {:induction false} ContactLines(x: string, code: string, order: Order)
    requires FieldsOneLine(code, order) && Split(x, '\n') == ["", Heading]
    ensures Split(x + "\n" + "Order Code: " + code + "\n" + "Name: " + order.username + "\n" + "Phone: " + order.phone, '\n')
            == ["", Heading, "Order Code: " + code, "Name: " + order.username, "Phone: " + order.phone]
  {
    var x2 := x + "\n" + "Order Code: " + code;
    SplitLabelled(x, "Order Code: ", code, ["", Heading]);
    var x3 := x2 + "\n" + "Name: " + order.username;
    SplitLabelled(x2, "Name: ", order.username, ["", Heading, "Order Code: " + code]);
    SplitLabelled(x3, "Phone: ", order.phone, ["", Heading, "Order Code: " + code, "Name: " + order.username]);
  }

  lemma {:induction false} DeliveryLines(x: string, order: Order, before: seq<string>)
    requires OneLine(order.address) && OneLine(order.shippingMethod) && OneLine(order.unit)
    requires Split(x, '\n') == before
    ensures Split(x + "\n" + "Address: " + order.address + "\n" + "Shipping: " + order.shippingMethod + "\n" +
                  "Quantity: " + NatToString(order.quantity) + " " + order.unit + "\n" + "Products:", '\n')
            == before + ["Address: " + order.address, "Shipping: " + order.shippingMethod,
                         "Quantity: " + NatToString(order.quantity) + " " + order.unit, "Products:"]
  {
    var x5 := x + "\n" + "Address: " + order.address;
    SplitLabelled(x, "Address: ", order.address, before);
    var x6 := x5 + "\n" + "Shipping: " + order.shippingMethod;
    SplitLabelled(x5, "Shipping: ", order.shippingMethod, before + ["Address: " + order.address]);
    QuantityLines(x6, order, before + ["Address: " + order.address] + ["Shipping: " + order.shippingMethod]);
  }

  lemma {:induction false} QuantityLines(x: string, order: Order, before: seq<string>)
    requires OneLine(order.unit) && Split(x, '\n') == before
    ensures Split(x + "\n" + "Quantity: " + NatToString(order.quantity) + " " + order.unit + "\n" + "Products:", '\n')
            == before + ["Quantity: " + NatToString(order.quantity) + " " + order.unit, "Products:"]
  {
    var q := NatToString(order.quantity);
    assert forall k :: 0 <= k < |q| ==> q[k] != '\n';
    SplitQuantity(x, q, order.unit, before);
    SplitStep(x + "\n" + "Quantity: " + q + " " + order.unit, "Products:", before + ["Quantity: " + q + " " + order.unit]);
  }

  lemma SplitLabelled(x: string, tag: string, value: string, before: seq<string>)
    requires OneLine(tag) && OneLine(value) && Split(x, '\n') == before
    ensures Split(x + "\n" + tag + value, '\n') == before + [tag + value]
  {
    assert x + "\n" + tag + value == x + "\n" + (tag + value);
    SplitAppend(x, tag + value, '\n');
  }

  lemma OneLineAppend(a: string, b: string)
    requires OneLine(a) && OneLine(b)
    ensures OneLine(a + b)
  {
  }

  lemma SplitQuantity(x: string, q: string, unit: string, before: seq<string>)
    requires OneLine(q) && OneLine(unit) && Split(x, '\n') == before
    ensures Split(x + "\n" + "Quantity: " + q + " " + unit, '\n') == before + ["Quantity: " + q + " " + unit]
  {
    var line := "Quantity: " + q + " " + unit;
    assert x + "\n" + "Quantity: " + q + " " + unit == x + "\n" + line;
    OneLineAppend("Quantity: " + q, " " + unit);
    SplitAppend(x, line, '\n');
  }

  lemma SplitLines(a: string, b: string)
    requires OneLine(a) && OneLine(b)
    ensures Split(a + "\n" + b, '\n') == [a, b]
  {
    SplitAppend(a, b, '\n');
  }

  lemma SplitStep(x: string, line: string, before: seq<string>)
    requires OneLine(line) && Split(x, '\n') == before
    ensures Split(x + "\n" + line, '\n') == before + [line]
  {
    SplitAppend(x, line, '\n');
  }

  /** The text is, line by line: an empty line, the heading, one labelled line per
      field, `Products:`, one line per product, and a final empty line. */
  lemma {:induction false} NotificationLines(code: string, order: Order, ps: seq<PurchasedProduct>)
    requires |ps| >= 1 && ProductsOneLine(ps) && FieldsOneLine(code, order)
    ensures Split(NotificationMessage(code, order, ps), '\n') == HeaderLines(code, order) + ProductLines(ps) + [""]
  {
    var x := HeaderText(code, order);
    var pt := ProductsText(ps);
    assert NotificationMessage(code, order, ps) == x + "\n" + (pt + "\n" + "");
    HeaderTextLines(code, order);
    SplitAppend(x, pt + "\n" + "", '\n');
    SplitAppend(pt, "", '\n');
    ProductsTextLines(ps);
    assert Split("", '\n') == [""];
  }

  /** What Mongoose's `required` demands: every text present and non-empty, a
      quantity, and a name and a type on every product. */
  predicate SchemaValid(body: OrderBody) {
    && Present(body.username) && Present(body.phone) && Present(body.address)
    && Present(body.shippingMethod) && body.quantity.Some? && Present(body.unit)
    && body.purchasedProducts.Some?
    && forall i :: 0 <= i < |body.purchasedProducts.value| ==>
         Present(body.purchasedProducts.value[i].productname) && Present(body.purchasedProducts.value[i].kind)
  }

  predicate Present(field: Option<string>) {
    field.Some? && field.value != ""
  }

  const ValidationFailed: string := "Order validation failed"

  /** The document `Order.create` stores: the given fields and `isCancelled: false`. */
  function NewOrder(id: nat, body: OrderBody, now: int): (o: Order)
    requires SchemaValid(body)
    ensures !o.isCancelled && o.id == id && o.createdAt == now
    ensures |o.purchasedProducts| == |body.purchasedProducts.value|
  {
    var ps := body.purchasedProducts.value;
    Order(id, body.username.value, body.phone.value, body.address.value, body.shippingMethod.value,
          body.quantity.value, body.unit.value,
          seq(|ps|, i requires 0 <= i < |ps| => (ps[i].productname.value, ps[i].kind.value)),
          false, now)
  }

  /** `submitOrder` on values: an empty or missing product list is refused before
      anything else; a valid order is stored before the notification is sent, so
      a failed send answers 500 with the order already kept. */
  function SubmitSpec(s: Orders, body: OrderBody, random: real, now: int, send: string -> Result<()>): (Orders, Reply)
    requires 0.0 <= random < 1.0
  {
    if body.purchasedProducts.None? || |body.purchasedProducts.value| == 0 then
      (s, Failure(400, "No products provided"))
    else if !SchemaValid(body) then
      (s, Failure(500, ValidationFailed))
    else
      var code := OrderCode(random);
      var order := NewOrder(s.nextId, body, now);
      var s' := Orders(s.orders + [order], s.nextId + 1);
      match send(NotificationMessage(code, order, body.purchasedProducts.value))
      case Err(e) => (s', Failure(500, e))
      case Ok(_) => (s', Submitted(code))
  }

  /** A refused submission stores nothing: no products is 400, and a body the
      schema rejects is 500 from `Order.create`. Any other stores exactly one
      uncancelled order with the given fields, whatever the notification does,
      and sends the order's Telegram text: a delivered message answers 201
      with the order code, a failed one 500 with the bot's error. */
  lemma SubmitOutcome(s: Orders, body: OrderBody, random: real, now: int, send: string -> Result<()>)
    requires 0.0 <= random < 1.0
    ensures var (s', r) := SubmitSpec(s, body, random, now, send);
            && (body.purchasedProducts.None? || |body.purchasedProducts.value| == 0 ==>
                  s' == s && r == Failure(400, "No products provided"))
            && (r.Submitted? ==> SchemaValid(body) && s'.orders == s.orders + [NewOrder(s.nextId, body, now)])
            && (SchemaValid(body) && |body.purchasedProducts.value| > 0 ==>
                  s'.orders == s.orders + [NewOrder(s.nextId, body, now)] && s'.nextId == s.nextId + 1)
            && (!SchemaValid(body) ==> s' == s && !r.Submitted?)
            && (body.purchasedProducts.Some? && |body.purchasedProducts.value| > 0 && !SchemaValid(body) ==>
                  r == Failure(500, ValidationFailed))
            && (SchemaValid(body) && |body.purchasedProducts.value| > 0 ==>
                  var sent := send(NotificationMessage(OrderCode(random), NewOrder(s.nextId, body, now),
                                                       body.purchasedProducts.value));
                  && (sent.Ok? ==> r == Submitted(OrderCode(random)))
                  && (sent.Err? ==> r == Failure(500, sent.error)))
  {
  }

  /** The order code is returned to the client and never stored: the stored
      collection does not depend on the random draw. */
  lemma CodeNotStored(s: Orders, body: OrderBody, r1: real, r2: real, now: int, send: string -> Result<()>)
    requires 0.0 <= r1 < 1.0 && 0.0 <= r2 < 1.0
    ensures SubmitSpec(s, body, r1, now, send).0 == SubmitSpec(s, body, r2, now, send).0
  {
  }

  function OrderId(o: Order): nat { o.id }

  const NotFoundOrCancelled: string := "Order not found or already cancelled"

  /** `cancel` on values: `updateOne` with `$set: { isCancelled: true }`; a match
      that was already cancelled modifies nothing and is reported like a miss. */
  function CancelSpec(s: Orders, id: string): (Orders, Reply) {
    match FindById(s.orders, OrderId, id)
    case None => (s, Failure(404, NotFoundOrCancelled))
    case Some(k) =>
      if s.orders[k].isCancelled then (s, Failure(404, NotFoundOrCancelled))
      else (Orders(s.orders[k := s.orders[k].(isCancelled := true)], s.nextId), Cancelled("Order cancelled successfully"))
  }

  /** An unknown id or an order already cancelled is 404 without change; a
      matching uncancelled order is cancelled. Cancellation flips that one flag
      and nothing else, and never un-cancels anything. */
  lemma CancelOutcome(s: Orders, id: string)
    ensures var (s', r) := CancelSpec(s, id);
            && (r.Failure? || r.Cancelled?)
            && ((FindById(s.orders, OrderId, id).None? || s.orders[FindById(s.orders, OrderId, id).value].isCancelled)
                  <==> r == Failure(404, NotFoundOrCancelled))
            && (FindById(s.orders, OrderId, id).Some? && !s.orders[FindById(s.orders, OrderId, id).value].isCancelled ==>
                  var k := FindById(s.orders, OrderId, id).value;
                  s' == Orders(s.orders[k := s.orders[k].(isCancelled := true)], s.nextId) &&
                  r == Cancelled("Order cancelled successfully"))
            && |s'.orders| == |s.orders| && s'.nextId == s.nextId
            && (forall i :: 0 <= i < |s.orders| ==> s.orders[i].isCancelled ==> s'.orders[i].isCancelled)
            && (r.Failure? ==> s' == s && r == Failure(404, NotFoundOrCancelled))
            && (r.Cancelled? ==>
                  exists k :: 0 <= k < |s.orders| && IdText(s.orders[k].id) == id && !s.orders[k].isCancelled &&
                    s'.orders == s.orders[k := s.orders[k].(isCancelled := true)])
  {
  }

  /** Cancelling the same order twice: the second attempt is 404 and changes nothing. */
  lemma {:induction false} CancelTwice(s: Orders, id: string)
    ensures var s1 := CancelSpec(s, id).0;
            CancelSpec(s1, id) == (s1, Failure(404, NotFoundOrCancelled))
  {
    var s1 := CancelSpec(s, id).0;
    match FindById(s.orders, OrderId, id)
    case None =>
    case Some(k) =>
      if !s.orders[k].isCancelled {
        FindByIdSameIds(s.orders, s1.orders, OrderId, id);
      }
  }

  /** `getOrders`: the collection as stored. */
  function GetOrders(s: Orders): Reply {
    OrderList(s.orders)
  }

  /** Read after write: once a valid order has been stored (whether or not the
      notification went out), the listing is the earlier listing followed by
      that uncancelled order, under the next id. */
  lemma GetOrdersAfterSubmit(s: Orders, body: OrderBody, random: real, now: int, send: string -> Result<()>)
    requires 0.0 <= random < 1.0
    requires SchemaValid(body) && |body.purchasedProducts.value| > 0
    ensures var listed := GetOrders(SubmitSpec(s, body, random, now, send).0);
            && listed == OrderList(s.orders + [NewOrder(s.nextId, body, now)])
            && |listed.orders| == |s.orders| + 1
            && listed.orders[|s.orders|].id == s.nextId && !listed.orders[|s.orders|].isCancelled
  {
  }

  /** Read after write: after a successful cancellation the listing has the same
      orders in the same places, except the one named by the id, which now shows
      `isCancelled`; after a refused one the listing is unchanged. */
  lemma GetOrdersAfterCancel(s: Orders, id: string)
    ensures var (s', r) := CancelSpec(s, id);
            var listed := GetOrders(s').orders;
            && |listed| == |s.orders|
            && (r.Failure? ==> listed == s.orders)
            && (r.Cancelled? ==>
                  exists k :: 0 <= k < |s.orders| && IdText(s.orders[k].id) == id &&
                    !s.orders[k].isCancelled && listed[k] == s.orders[k].(isCancelled := true) &&
                    forall i :: 0 <= i < |s.orders| && i != k ==> listed[i] == s.orders[i])
  {
    CancelOutcome(s, id);
  }

  /** The order collection. */
  class OrderStore {
    var orders: seq<Order>
    var nextId: nat

    function State(): Orders
      reads this
    {
      Orders(orders, nextId)
    }

    constructor ()
      ensures orders == [] && nextId == 0
    {
      orders := [];
      nextId := 0;
    }

    /** `submitOrder`. */
    method SubmitOrder(body: OrderBody, random: real, now: int, send: string -> Result<()>) returns (reply: Reply)
      requires 0.0 <= random < 1.0
      modifies this
      ensures (State(), reply) == SubmitSpec(old(State()), body, random, now, send)
    {
      if body.purchasedProducts.None? || |body.purchasedProducts.value| == 0 {
        return Failure(400, "No products provided");
      }
      var code := OrderCode(random);
      if !SchemaValid(body) {
        return Failure(500, ValidationFailed);
      }
      var order := NewOrder(nextId, body, now);
      orders := orders + [order];
      nextId := nextId + 1;
      var text := NotificationMessage(code, order, body.purchasedProducts.value);
      var sent := send(text);
      if sent.Err? {
        return Failure(500, sent.error);
      }
      reply := Submitted(code);
    }

    /** `cancel`. */
    method Cancel(id: string) returns (reply: Reply)
      modifies this
      ensures (State(), reply) == CancelSpec(old(State()), id)
    {
      var found := FindById(orders, OrderId, id);
      if found.None? || orders[found.value].isCancelled {
        return Failure(404, NotFoundOrCancelled);
      }
      var k := found.value;
      orders := orders[k := orders[k].(isCancelled := true)];
      reply := Cancelled("Order cancelled successfully");
    }
  }

  /** A submitted order can be cancelled once; the second cancellation is refused. */
  method CancelOnce(body: OrderBody, send: string -> Result<()>)
    requires SchemaValid(body) && |body.purchasedProducts.value| > 0 && send(NotificationMessage(OrderCode(0.5), NewOrder(0, body, 7), body.purchasedProducts.value)).Ok?
  {
    var store := new OrderStore();
    var submitted := store.SubmitOrder(body, 0.5, 7, send);
    assert submitted.Submitted?;
    assert store.orders[0].id == 0;
    var first := store.Cancel("0");
    assert first == Cancelled("Order cancelled successfully");
    var second := store.Cancel("0");
    assert second == Failure(404, NotFoundOrCancelled);
  }
}
