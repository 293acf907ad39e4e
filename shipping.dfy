/**
 * The shipping-label function (`generate-shipping-label`): it sizes a
 * package from the order's item count, builds the Melhor Envio cart request
 * and runs the five provider calls in order (cart, checkout, generate,
 * print, tracking), writing the tracking code back to the order only when
 * one is obtained.
 *
 * Each provider call is an abstract reply; the `orders` table is a class
 * holding a map from order id to row. Money is integer cents and weight is
 * integer tenths of a kilogram.
 */
module ShippingLabel {
  import opened Common

  datatype OrderItem = OrderItem(quantity: int)

  /** The order's `shipping_address` JSON; an absent field reads as the empty string. */
  datatype ShippingAddress = ShippingAddress(
    name: string, phone: string, email: string, document: string,
    street: string, number: string, complement: string,
    neighborhood: string, city: string, state: string, cep: string)

  /** An `orders` row with its `order_items`. */
  datatype Order = Order(
    subtotal: int,
    address: ShippingAddress,
    items: seq<OrderItem>,
    status: string,
    trackingCode: Option<string>)

  /** A party of the provider's request (`from` / `to`). */
  datatype Party = Party(
    name: string, phone: string, email: string, document: string,
    address: string, number: string, complement: string,
    district: string, city: string, stateAbbr: string, postalCode: string)

  /** Centimetres and tenths of a kilogram. */
  datatype Package = Package(width: int, height: int, length: int, weightTenths: int)

  /** The body of the cart request (step 1). */
  datatype CartRequest = CartRequest(
    service: int,
    from: Party,
    to: Party,
    productName: string,
    productQuantity: int,
    unitaryValue: int,
    volume: Package,
    volumeInsurance: int,
    insuranceValue: int)

  /** A provider reply: not OK with its error text, or OK with its body. */
  datatype Reply<T> = Fail(text: string) | Ok(body: T)

  /**
   * The five replies: the cart item id, two bodies the function ignores,
   * the label URL, and the tracking map from cart item id to tracking code.
   */
  datatype Replies = Replies(
    cart: Reply<string>,
    checkout: Reply<()>,
    generate: Reply<()>,
    printing: Reply<Option<string>>,
    tracking: Reply<map<string, Option<string>>>)

  datatype Response =
    | Label(labelUrl: Option<string>, trackingCode: Option<string>, shipmentId: string)
    | Error(message: string)

  /** A run: the response, how many provider calls were made, and the tracking code written back, if any. */
  datatype Run = Run(response: Response, calls: nat, writeBack: Option<string>)

  const PACKAGE_WIDTH := 20
  const PACKAGE_LENGTH := 30
  const MAX_HEIGHT := 100

  // ---------------------------------------------------------------------
  // Package and request

  /** `order_items.reduce((sum, item) => sum + item.quantity, 0)`, folded from the left. */
  function TotalItems(items: seq<OrderItem>): int
  {
    if |items| == 0 then 0 else TotalItems(items[..|items| - 1]) + items[|items| - 1].quantity
  }

  /** The item count adds up over any split of the list. */
  lemma {:induction false} TotalItemsAppend(a: seq<OrderItem>, b: seq<OrderItem>)
    ensures TotalItems(a + b) == TotalItems(a) + TotalItems(b)
  {
    if |b| > 0 {
      assert (a + b)[..|a + b| - 1] == a + b[..|b| - 1];
      TotalItemsAppend(a, b[..|b| - 1]);
    } else {
      assert a + b == a;
    }
  }

  /** With non-negative quantities the count is at least any single item's quantity. */
  lemma {:induction false} TotalItemsBounds(items: seq<OrderItem>, k: nat)
    requires forall i :: 0 <= i < |items| ==> items[i].quantity >= 0
    requires k < |items|
    ensures TotalItems(items) >= items[k].quantity >= 0
  {
    if k < |items| - 1 {
      TotalItemsBounds(items[..|items| - 1], k);
    } else {
      TotalItemsNonNegative(items[..|items| - 1]);
    }
  }

  lemma {:induction false} TotalItemsNonNegative(items: seq<OrderItem>)
    requires forall i :: 0 <= i < |items| ==> items[i].quantity >= 0
    ensures TotalItems(items) >= 0
  {
    if |items| > 0 {
      TotalItemsNonNegative(items[..|items| - 1]);
    }
  }

  /** `packageData`: fixed width and length, stacked height capped at 100, 0.3 kg per item. */
  function PackageFor(totalItems: int): (p: Package)
    ensures p.width == PACKAGE_WIDTH && p.length == PACKAGE_LENGTH
    ensures p.height <= MAX_HEIGHT
    ensures p.height == MAX_HEIGHT || p.height == 5 * totalItems
    ensures p.height <= 5 * totalItems
    ensures p.weightTenths == 3 * totalItems
  {
    Package(PACKAGE_WIDTH, if 5 * totalItems < MAX_HEIGHT then 5 * totalItems else MAX_HEIGHT, PACKAGE_LENGTH, 3 * totalItems)
  }

  /** More items never make a lower package. */
  lemma HeightMonotone(n1: int, n2: int)
    requires n1 <= n2
    ensures PackageFor(n1).height <= PackageFor(n2).height
  {
  }

  /** From 20 items on the height stays at its cap. */
  lemma HeightSaturates(n: int)
    requires n >= 20
    ensures PackageFor(n).height == MAX_HEIGHT
  {
  }

  predicate IsDigit(c: char)
  {
    '0' <= c <= '9'
  }

  /** `s.replace(/\D/g, "")`: keep the ASCII digits, in order. */
  function DigitsOnly(s: string): (r: string)
    ensures forall i :: 0 <= i < |r| ==> IsDigit(r[i])
    ensures forall c :: c in r <==> c in s && IsDigit(c)
    ensures |r| <= |s|
  {
    if |s| == 0 then ""
    else
      var rest := DigitsOnly(s[1..]);
      assert forall c :: c in s <==> c == s[0] || c in s[1..] by {
        assert s == [s[0]] + s[1..];
      }
      (if IsDigit(s[0]) then [s[0]] else "") + rest
  }

  /** One character: a digit is kept, anything else is removed. */
  lemma DigitsOnlyOne(c: char)
    ensures DigitsOnly([c]) == if IsDigit(c) then [c] else ""
  {
    assert [c][1..] == "";
  }

  /** Stripping distributes over concatenation: the digits keep their order. */
  lemma {:induction false} DigitsOnlyAppend(a: string, b: string)
    ensures DigitsOnly(a + b) == DigitsOnly(a) + DigitsOnly(b)
  {
    if |a| > 0 {
      assert (a + b)[1..] == a[1..] + b;
      DigitsOnlyAppend(a[1..], b);
    } else {
      assert a + b == b;
    }
  }

  /** A string of digits is left as it is; so stripping twice is stripping once. */
  lemma {:induction false} DigitsOnlyOfDigits(s: string)
    requires forall i :: 0 <= i < |s| ==> IsDigit(s[i])
    ensures DigitsOnly(s) == s
  {
    if |s| > 0 {
      DigitsOnlyOfDigits(s[1..]);
    }
  }

  lemma DigitsOnlyIdempotent(s: string)
    ensures DigitsOnly(DigitsOnly(s)) == DigitsOnly(s)
  {
    DigitsOnlyOfDigits(DigitsOnly(s));
  }

  /** `Pedido #` followed by the first eight characters of the order id. */
  function ProductName(orderId: string): (name: string)
    ensures 8 <= |name| <= 16 && |name| - 8 <= |orderId|
    ensures name[..8] == "Pedido #"
    ensures name[8..] == orderId[..|name| - 8]
    ensures |orderId| >= 8 ==> |name| == 16
  {
    "Pedido #" + (if |orderId| <= 8 then orderId else orderId[..8])
  }

  /** The sender as given, with its postal code stripped to digits. */
  function Sender(from: Party): (p: Party)
    ensures p == from.(postalCode := p.postalCode)
    ensures p.postalCode == DigitsOnly(from.postalCode)
  {
    from.(postalCode := DigitsOnly(from.postalCode))
  }

  /** The recipient from the shipping address: the name defaults to "Cliente", the CEP is stripped to digits. */
  function Recipient(a: ShippingAddress): (p: Party)
    ensures p.name != "" && (a.name != "" ==> p.name == a.name)
    ensures p.phone == a.phone && p.email == a.email && p.document == a.document
    ensures p.address == a.street && p.number == a.number && p.complement == a.complement
    ensures p.district == a.neighborhood && p.city == a.city && p.stateAbbr == a.state
    ensures p.postalCode == DigitsOnly(a.cep)
  {
    Party(OrElse(a.name, "Cliente"), a.phone, a.email, a.document, a.street, a.number, a.complement,
          a.neighborhood, a.city, a.state, DigitsOnly(a.cep))
  }

  /** The cart request (step 1): one product of quantity 1, valued and insured at the order's subtotal. */
  function BuildCartRequest(orderId: string, order: Order, service: int, from: Party): (r: CartRequest)
    ensures r.unitaryValue == order.subtotal && r.volumeInsurance == order.subtotal && r.insuranceValue == order.subtotal
    ensures r.productQuantity == 1 && r.productName == ProductName(orderId)
    ensures r.volume == PackageFor(TotalItems(order.items))
    ensures r.from == Sender(from) && r.to == Recipient(order.address)
  {
    CartRequest(service, Sender(from), Recipient(order.address), ProductName(orderId), 1, order.subtotal,
                PackageFor(TotalItems(order.items)), order.subtotal, order.subtotal)
  }

  // ---------------------------------------------------------------------
  // The saga

  /** The first of steps 1 to 4 whose reply is not OK; 0 when all four are. */
  function FailedStep(r: Replies): (k: nat)
    ensures k <= 4
  {
    if r.cart.Fail? then 1
    else if r.checkout.Fail? then 2
    else if r.generate.Fail? then 3
    else if r.printing.Fail? then 4
    else 0
  }

  /** `trackingData[cartItemId]?.tracking || null`: nothing for a failed call, a missing entry or an empty code. */
  function TrackingCodeOf(tracking: Reply<map<string, Option<string>>>, cartItemId: string): (code: Option<string>)
    ensures code.Some? ==> code.value != ""
    ensures code.Some? <==> tracking.Ok? && cartItemId in tracking.body && Truthy(tracking.body[cartItemId])
  {
    if tracking.Ok? && cartItemId in tracking.body && Truthy(tracking.body[cartItemId])
    then tracking.body[cartItemId]
    else None
  }

  predicate Truthy(s: Option<string>)
  {
    s.Some? && s.value != ""
  }

  /**
   * The whole run as a function of its inputs: the configuration check, the
   * order lookup, and the five replies in order.
   */
  function Saga(apiKey: bool, order: Option<Order>, replies: Replies): (r: Run)
    ensures r.calls <= 5
    ensures r.writeBack.Some? ==> r.response.Label? && r.response.trackingCode == r.writeBack
    ensures !apiKey ==> r == Run(Error("MELHOR_ENVIO_API_KEY not configured"), 0, None)
    ensures apiKey && order.None? ==> r == Run(Error("Order not found"), 0, None)
    ensures r.calls == 0 <==> !apiKey || order.None?
  {
    if !apiKey then Run(Error("MELHOR_ENVIO_API_KEY not configured"), 0, None)
    else if order.None? then Run(Error("Order not found"), 0, None)
    else if replies.cart.Fail? then Run(Error("Failed to add to cart: " + replies.cart.text), 1, None)
    else if replies.checkout.Fail? then Run(Error("Failed to checkout: " + replies.checkout.text), 2, None)
    else if replies.generate.Fail? then Run(Error("Failed to generate label: " + replies.generate.text), 3, None)
    else if replies.printing.Fail? then Run(Error("Failed to print label: " + replies.printing.text), 4, None)
    else
      var id := replies.cart.body;
      var code := TrackingCodeOf(replies.tracking, id);
      Run(Label(replies.printing.body, code, id), 5, code)
  }

  /**
   * A failure at step k of 1 to 4 makes exactly k calls, writes nothing, and
   * answers with that step's message followed by the provider's reply text.
   */
  lemma StepFailureAborts(order: Order, replies: Replies)
    requires FailedStep(replies) > 0
    ensures var r := Saga(true, Some(order), replies);
            r.calls == FailedStep(replies) && r.response.Error? && r.writeBack.None?
    ensures var m := Saga(true, Some(order), replies).response.message;
            && (FailedStep(replies) == 1 ==> m == "Failed to add to cart: " + replies.cart.text)
            && (FailedStep(replies) == 2 ==> m == "Failed to checkout: " + replies.checkout.text)
            && (FailedStep(replies) == 3 ==> m == "Failed to generate label: " + replies.generate.text)
            && (FailedStep(replies) == 4 ==> m == "Failed to print label: " + replies.printing.text)
  {
  }

  /** Once the label is printed the run succeeds, with or without a tracking code. */
  lemma TrackingIsOptional(order: Order, replies: Replies)
    requires FailedStep(replies) == 0
    ensures var r := Saga(true, Some(order), replies);
            r.response.Label? && r.calls == 5 && r.response.shipmentId == replies.cart.body
            && r.response.labelUrl == replies.printing.body
  {
  }

  /** The order is written back exactly when every step succeeded and a non-empty tracking code came back. */
  lemma WriteBackIff(apiKey: bool, order: Option<Order>, replies: Replies)
    ensures Saga(apiKey, order, replies).writeBack.Some?
            <==> apiKey && order.Some? && FailedStep(replies) == 0
                 && TrackingCodeOf(replies.tracking, replies.cart.body).Some?
  {
  }

  /** A failed tracking call still succeeds, without a tracking code and without a write-back. */
  lemma FailedTrackingStillSucceeds(order: Order, replies: Replies)
    requires FailedStep(replies) == 0 && replies.tracking.Fail?
    ensures Saga(true, Some(order), replies).response.Label?
    ensures Saga(true, Some(order), replies).response.trackingCode.None?
    ensures Saga(true, Some(order), replies).writeBack.None?
  {
  }

  // ---------------------------------------------------------------------
  // The `orders` table

  /** The row after the write-back: the tracking code set and the status `shipped`. */
  function Shipped(o: Order, code: string): (r: Order)
    ensures r.trackingCode == Some(code) && r.status == "shipped"
    ensures r.subtotal == o.subtotal && r.items == o.items && r.address == o.address
  {
    o.(trackingCode := Some(code), status := "shipped")
  }

  class OrderTable {
    var orders: map<string, Order>

    constructor (initial: map<string, Order>)
      ensures orders == initial
    {
      orders := initial;
    }

    /**
     * The handler: look the order up, send the cart request built from it,
     * run the remaining steps, and write the tracking code back when there is
     * one. A database error on the write-back is not checked: the response is
     * the same and the row is left as it was.
     */
    method GenerateLabel(apiKey: bool, orderId: string, service: int, from: Party,
                         replies: Replies, dbError: bool) returns (response: Response, sent: Option<CartRequest>)
      modifies this
      ensures var run := Saga(apiKey, if orderId in old(orders) then Some(old(orders)[orderId]) else None, replies);
              && response == run.response
              && (run.writeBack.Some? && !dbError ==> orders == old(orders)[orderId := Shipped(old(orders)[orderId], run.writeBack.value)])
              && (run.writeBack.None? || dbError ==> orders == old(orders))
      ensures sent.Some? <==> apiKey && orderId in old(orders)
      ensures sent.Some? ==> sent.value == BuildCartRequest(orderId, old(orders)[orderId], service, from)
    {
      sent := None;
      if !apiKey {
        return Error("MELHOR_ENVIO_API_KEY not configured"), sent;
      }
      if orderId !in orders {
        return Error("Order not found"), sent;
      }
      var order := orders[orderId];
      sent := Some(BuildCartRequest(orderId, order, service, from));
      if replies.cart.Fail? {
        return Error("Failed to add to cart: " + replies.cart.text), sent;
      }
      var cartItemId := replies.cart.body;
      if replies.checkout.Fail? {
        return Error("Failed to checkout: " + replies.checkout.text), sent;
      }
      if replies.generate.Fail? {
        return Error("Failed to generate label: " + replies.generate.text), sent;
      }
      if replies.printing.Fail? {
        return Error("Failed to print label: " + replies.printing.text), sent;
      }
      var trackingCode: Option<string> := None;
      if replies.tracking.Ok? {
        trackingCode := TrackingCodeOf(replies.tracking, cartItemId);
      }
      if trackingCode.Some? && !dbError {
        orders := orders[orderId := Shipped(order, trackingCode.value)];
      }
      response := Label(replies.printing.body, trackingCode, cartItemId);
    }
  }
}
