/**
 * The `create-payment` edge function: it checks a checkout request, builds
 * the Mercado Pago payment preference from it and relays the gateway's
 * answer. The gateway call is a parameter (`GatewayReply`); what the
 * function sends is part of the result, so every property of the request it
 * builds is stated here.
 *
 * JSON values are read the way the function reads them: a missing field and
 * a falsy one are told apart only where the code tells them apart.
 * `Number(x)` and `parseFloat(x)` arrive already evaluated (`None` is `NaN`).
 * Amounts are integer cents.
 */
module CreatePayment {
  import opened Common

  /** `item.quantity`: absent, a JSON number, or a JSON string with its `Number` value. */
  datatype Quantity = NoQuantity | QuantityNumber(n: int) | QuantityText(text: string, number: Option<int>)

  /** `item.unit_price`: `undefined`, or present with `Number(x)` and `parseFloat(x)` evaluated. */
  datatype UnitPrice = NoPrice | Price(number: Option<int>, float: Option<int>)

  datatype Item = Item(
    id: Option<string>,
    productName: Option<string>,
    title: Option<string>,
    description: Option<string>,
    pictureUrl: Option<string>,
    quantity: Quantity,
    unitPrice: UnitPrice)

  datatype Payer = Payer(email: Option<string>, name: Option<string>)

  datatype BackUrls = BackUrls(success: Option<string>, failure: Option<string>, pending: Option<string>, notification: Option<string>)

  /** The request body; `items` is `None` when it is missing or not an array. */
  datatype Request = Request(
    items: Option<seq<Item>>,
    payer: Option<Payer>,
    externalReference: string,
    backUrls: Option<BackUrls>)

  datatype PreferenceItem = PreferenceItem(
    id: Option<string>,
    title: Option<string>,
    description: string,
    pictureUrl: Option<string>,
    quantity: Quantity,
    currencyId: string,
    unitPrice: Option<int>)

  datatype Preference = Preference(
    items: seq<PreferenceItem>,
    payerEmail: string,
    payerName: string,
    success: string,
    failure: string,
    pending: string,
    autoReturn: string,
    externalReference: string,
    statementDescriptor: string,
    notificationUrl: string)

  /** The origin of the call: `PUBLIC_SITE_URL`, the `Origin` header and the request URL's origin. */
  datatype Origins = Origins(publicSiteUrl: string, requestOrigin: string, requestUrlOrigin: string)

  /**
   * What the gateway call comes to: a created preference, an error status
   * with its parsed body's message, or an exception (the fetch threw, or
   * the reply was not JSON) with that exception's message.
   */
  datatype GatewayReply = GatewayOk(id: string, initPoint: string, sandboxInitPoint: string)
                        | GatewayError(status: int, message: Option<string>)
                        | GatewayThrew(thrown: string)

  /** What the function answers, and the preference it sent to the gateway if it got that far. */
  datatype Exchange = Exchange(status: int, error: Option<string>, paymentId: Option<string>, sent: Option<Preference>)

  const FALLBACK_BASE_URL: string := "https://example.com"
  const CURRENCY: string := "BRL"
  const STATEMENT_DESCRIPTOR: string := "MIRANDA COSTA"
  const AUTO_RETURN: string := "approved"
  const MISSING_FIELDS: string := "Missing required fields: items (array), payer, external_reference"
  const INVALID_ITEM: string := "Invalid item payload: title, quantity (>0) e unit_price numérico são obrigatórios"
  const NOT_CONFIGURED: string := "Payment gateway not configured: defina MERCADO_PAGO_ACCESS_TOKEN nos secrets"
  const GATEWAY_FAILED: string := "Failed to create payment preference"
  const INTERNAL_ERROR: string := "Internal server error"

  // ---------------------------------------------------------------------
  // JavaScript truthiness of the fields

  predicate Present(s: Option<string>)
  {
    s.Some? && s.value != ""
  }

  /** `a || b` on optional strings: `b` as it is when `a` is falsy. */
  function Or(a: Option<string>, b: Option<string>): (r: Option<string>)
    ensures Present(a) ==> r == a
    ensures !Present(a) ==> r == b
  {
    if Present(a) then a else b
  }

  predicate QuantityTruthy(q: Quantity)
  {
    match q
    case NoQuantity => false
    case QuantityNumber(n) => n != 0
    case QuantityText(text, _) => text != ""
  }

  function QuantityNumberOf(q: Quantity): Option<int>
  {
    match q
    case NoQuantity => None
    case QuantityNumber(n) => Some(n)
    case QuantityText(_, number) => number
  }

  // ---------------------------------------------------------------------
  // Validation

  /** The item check of `items.find`: a title, a truthy quantity not `<= 0`, and a numeric unit price. */
  predicate InvalidItem(item: Item)
  {
    || !Present(item.title)
    || !QuantityTruthy(item.quantity)
    || (var n := QuantityNumberOf(item.quantity); n.Some? && n.value <= 0)
    || item.unitPrice.NoPrice?
    || item.unitPrice.number.None?
  }

  predicate MissingFields(req: Request)
  {
    req.items.None? || |req.items.value| == 0 || req.payer.None? || req.externalReference == ""
  }

  /** The first invalid item, as `items.find` returns it. */
  function FindInvalid(items: seq<Item>): (r: Option<nat>)
    ensures r.None? <==> forall i :: 0 <= i < |items| ==> !InvalidItem(items[i])
    ensures r.Some? ==> r.value < |items| && InvalidItem(items[r.value])
    ensures r.Some? ==> forall j :: 0 <= j < r.value ==> !InvalidItem(items[j])
  {
    if |items| == 0 then None
    else if InvalidItem(items[0]) then Some(0)
    else
      var rest := FindInvalid(items[1..]);
      assert forall i :: 1 <= i < |items| ==> items[i] == items[1..][i - 1];
      if rest.Some? then Some(rest.value + 1) else None
  }

  /** The two 400 answers, in the order the function gives them. */
  function Validate(req: Request): (r: Option<string>)
    ensures r == Some(MISSING_FIELDS) <==> MissingFields(req)
    ensures r == Some(INVALID_ITEM) <==>
              !MissingFields(req) && exists i :: 0 <= i < |req.items.value| && InvalidItem(req.items.value[i])
    ensures r.None? <==>
              !MissingFields(req) && forall i :: 0 <= i < |req.items.value| ==> !InvalidItem(req.items.value[i])
  {
    if MissingFields(req) then Some(MISSING_FIELDS)
    else if FindInvalid(req.items.value).Some? then Some(INVALID_ITEM)
    else None
  }

  /**
   * A quantity sent as a non-numeric string passes the check: it is truthy,
   * and `NaN <= 0` is false. It is forwarded to the gateway as it came.
   */
  lemma NonNumericQuantityAccepted()
    ensures !InvalidItem(Item(None, None, Some("Vestido"), None, None, QuantityText("dois", None), Price(Some(8990), Some(8990))))
  {
  }

  // ---------------------------------------------------------------------
  // The base URL

  /** The first non-empty string of the list, or "" if all are empty. */
  function FirstNonEmpty(candidates: seq<string>): (r: string)
    ensures r == "" <==> forall i :: 0 <= i < |candidates| ==> candidates[i] == ""
    ensures r != "" ==> exists i :: 0 <= i < |candidates| && candidates[i] == r
                                   && forall j :: 0 <= j < i ==> candidates[j] == ""
  {
    if |candidates| == 0 then ""
    else if candidates[0] != "" then candidates[0]
    else
      var r := FirstNonEmpty(candidates[1..]);
      assert forall i :: 1 <= i < |candidates| ==> candidates[i] == candidates[1..][i - 1];
      r
  }

  /** `x && x.trim()` on an optional return URL: its trimmed text, "" when absent. */
  function TrimmedUrl(u: Option<string>): string
  {
    if Present(u) then Trim(u.value) else ""
  }

  function ReturnUrls(b: Option<BackUrls>): (urls: seq<string>)
    ensures |urls| == 3
  {
    if b.None? then ["", "", ""]
    else [TrimmedUrl(b.value.success), TrimmedUrl(b.value.failure), TrimmedUrl(b.value.pending)]
  }

  /** `baseUrl`: the trimmed return URLs, the site URL, the two origins, then a fixed fallback. */
  function BaseUrl(b: Option<BackUrls>, o: Origins): (r: string)
    ensures r != ""
  {
    OrElse(FirstNonEmpty(ReturnUrls(b) + [o.publicSiteUrl, o.requestOrigin, o.requestUrlOrigin]), FALLBACK_BASE_URL)
  }

  /** A success URL with text after trimming is the base URL, whatever else is configured. */
  lemma BaseUrlPrefersSuccessUrl(b: BackUrls, o: Origins)
    requires TrimmedUrl(b.success) != ""
    ensures BaseUrl(Some(b), o) == Trim(b.success.value)
  {
  }

  /** With no usable return URL, the site URL wins over both origins. */
  lemma BaseUrlFallsBackToSite(b: Option<BackUrls>, o: Origins)
    requires forall k :: 0 <= k < 3 ==> ReturnUrls(b)[k] == ""
    requires o.publicSiteUrl != ""
    ensures BaseUrl(b, o) == o.publicSiteUrl
  {
    var c := ReturnUrls(b) + [o.publicSiteUrl, o.requestOrigin, o.requestUrlOrigin];
    assert c[0] == "" && c[1] == "" && c[2] == "" && c[3] == o.publicSiteUrl;
    var r := FirstNonEmpty(c);
    var i :| 0 <= i < |c| && c[i] == r && forall j :: 0 <= j < i ==> c[j] == "";
    assert i == 3;
  }

  /** With nothing configured at all, the fixed fallback is used. */
  lemma BaseUrlLastResort(o: Origins)
    requires o.publicSiteUrl == "" && o.requestOrigin == "" && o.requestUrlOrigin == ""
    ensures BaseUrl(None, o) == FALLBACK_BASE_URL
  {
    var c := ReturnUrls(None) + [o.publicSiteUrl, o.requestOrigin, o.requestUrlOrigin];
    assert forall i :: 0 <= i < |c| ==> c[i] == "";
  }

  // ---------------------------------------------------------------------
  // The preference

  /** `back_urls?.x?.trim() || baseUrl + "/pedido/" + reference`. */
  function ReturnUrl(u: Option<string>, baseUrl: string, reference: string): (r: string)
    ensures u.Some? && Trim(u.value) != "" ==> r == Trim(u.value)
    ensures !(u.Some? && Trim(u.value) != "") ==> r == baseUrl + "/pedido/" + reference
  {
    if u.Some? && Trim(u.value) != "" then Trim(u.value) else baseUrl + "/pedido/" + reference
  }

  function MapItem(item: Item): (p: PreferenceItem)
    ensures p.currencyId == CURRENCY
    ensures p.quantity == item.quantity && p.pictureUrl == item.pictureUrl
    ensures p.id == Or(item.id, item.productName)
    ensures item.unitPrice.Price? ==> p.unitPrice == item.unitPrice.float
  {
    PreferenceItem(
      Or(item.id, item.productName),
      Or(item.title, item.productName),
      OptOrElse(Or(item.description, item.title), "Produto"),
      item.pictureUrl,
      item.quantity,
      CURRENCY,
      if item.unitPrice.Price? then item.unitPrice.float else None)
  }

  /** `items.map(...)`: one preference item per request item, in order. */
  function MapItems(items: seq<Item>): (r: seq<PreferenceItem>)
    ensures |r| == |items|
    ensures forall i :: 0 <= i < |items| ==> r[i] == MapItem(items[i])
  {
    if |items| == 0 then [] else [MapItem(items[0])] + MapItems(items[1..])
  }

  /** A checked item keeps its title; its description is its own, else its title. */
  lemma MappedItemText(item: Item)
    requires !InvalidItem(item)
    ensures MapItem(item).title == item.title
    ensures MapItem(item).description == if Present(item.description) then item.description.value else item.title.value
    ensures MapItem(item).unitPrice == item.unitPrice.float
  {
  }

  /** An item with neither description nor title is described as "Produto". */
  lemma MappedItemDefaultDescription(item: Item)
    requires !Present(item.description) && !Present(item.title)
    ensures MapItem(item).description == "Produto"
  {
  }

  function BuildPreference(items: seq<Item>, payer: Payer, reference: string, b: Option<BackUrls>, o: Origins): (p: Preference)
    ensures p.items == MapItems(items)
    ensures p.externalReference == reference
    ensures p.autoReturn == AUTO_RETURN && p.statementDescriptor == STATEMENT_DESCRIPTOR
    ensures p.payerEmail == OptOrElse(payer.email, "") && p.payerName == OptOrElse(payer.name, "Cliente")
    ensures b.Some? ==> var base := BaseUrl(b, o);
                        && p.success == ReturnUrl(b.value.success, base, reference)
                        && p.failure == ReturnUrl(b.value.failure, base, reference)
                        && p.pending == ReturnUrl(b.value.pending, base, reference)
  {
    var base := BaseUrl(b, o);
    Preference(
      MapItems(items),
      OptOrElse(payer.email, ""),
      OptOrElse(payer.name, "Cliente"),
      ReturnUrl(if b.Some? then b.value.success else None, base, reference),
      ReturnUrl(if b.Some? then b.value.failure else None, base, reference),
      ReturnUrl(if b.Some? then b.value.pending else None, base, reference),
      AUTO_RETURN,
      reference,
      STATEMENT_DESCRIPTOR,
      if b.Some? && Present(b.value.notification) then b.value.notification.value else base)
  }

  /** Without return URLs, all three point at the order page under the base URL, and so does nothing else. */
  lemma DefaultReturnUrls(items: seq<Item>, payer: Payer, reference: string, o: Origins)
    ensures var p := BuildPreference(items, payer, reference, None, o);
            var page := BaseUrl(None, o) + "/pedido/" + reference;
            p.success == page && p.failure == page && p.pending == page
            && p.notificationUrl == BaseUrl(None, o)
  {
  }

  /** A notification URL in the request is used as it is; without one the base URL is notified. */
  lemma NotificationUrlChoice(items: seq<Item>, payer: Payer, reference: string, b: BackUrls, o: Origins)
    ensures var p := BuildPreference(items, payer, reference, Some(b), o);
            if Present(b.notification) then p.notificationUrl == b.notification.value
            else p.notificationUrl == BaseUrl(Some(b), o)
  {
  }

  // ---------------------------------------------------------------------
  // The handler

  /** `error.message || "Internal server error"`: the body of every 500 answer. */
  function ThrownMessage(message: string): (r: string)
    ensures r != ""
    ensures message != "" ==> r == message
  {
    OrElse(message, INTERNAL_ERROR)
  }

  /**
   * The whole exchange: no access token is a 400; an unreadable body a 500
   * carrying the parser's message; a failed check a 400; otherwise the
   * preference is sent and the gateway's status is relayed, with its
   * message or a fixed one on failure, and an exception during the call is
   * a 500 carrying its message.
   */
  function CreatePreference(hasToken: bool, body: Option<Request>, parseError: string, o: Origins, reply: GatewayReply): (x: Exchange)
    ensures x.sent.Some? <==> hasToken && body.Some? && Validate(body.value).None?
    ensures !hasToken ==> x.status == 400 && x.error == Some(NOT_CONFIGURED)
    ensures hasToken && body.None? ==> x.status == 500 && x.error == Some(ThrownMessage(parseError))
    ensures hasToken && body.Some? && Validate(body.value).Some? ==> x.status == 400 && x.error == Validate(body.value)
    ensures x.sent.Some? ==> (x.sent.value.externalReference == body.value.externalReference
                             && |x.sent.value.items| == |body.value.items.value| > 0)
    ensures x.sent.Some? ==> x.sent.value == BuildPreference(body.value.items.value, body.value.payer.value,
                                                             body.value.externalReference, body.value.backUrls, o)
    ensures x.sent.Some? ==> (x.status == 200 <==> reply.GatewayOk? || (reply.GatewayError? && reply.status == 200))
    ensures x.sent.Some? && reply.GatewayError? ==>
              x.status == reply.status && x.error == Some(if Present(reply.message) then reply.message.value else GATEWAY_FAILED)
    ensures x.sent.Some? && reply.GatewayThrew? ==> x.status == 500 && x.error == Some(ThrownMessage(reply.thrown))
    ensures x.paymentId.Some? <==> x.sent.Some? && reply.GatewayOk?
    ensures x.paymentId.Some? ==> x.paymentId.value == reply.id && x.error.None?
  {
    if !hasToken then Exchange(400, Some(NOT_CONFIGURED), None, None)
    else if body.None? then Exchange(500, Some(ThrownMessage(parseError)), None, None)
    else
      var req := body.value;
      var check := Validate(req);
      if check.Some? then Exchange(400, check, None, None)
      else
        var p := BuildPreference(req.items.value, req.payer.value, req.externalReference, req.backUrls, o);
        match reply
        case GatewayOk(id, _, _) => Exchange(200, None, Some(id), Some(p))
        case GatewayError(status, message) =>
          Exchange(status, Some(if Present(message) then message.value else GATEWAY_FAILED), None, Some(p))
        case GatewayThrew(thrown) => Exchange(500, Some(ThrownMessage(thrown)), None, Some(p))
  }

  /** Every item sent to the gateway passed the check, and each carries the currency. */
  lemma SentItemsChecked(hasToken: bool, body: Option<Request>, parseError: string, o: Origins, reply: GatewayReply, i: nat)
    requires CreatePreference(hasToken, body, parseError, o, reply).sent.Some?
    requires i < |body.value.items.value|
    ensures !InvalidItem(body.value.items.value[i])
    ensures CreatePreference(hasToken, body, parseError, o, reply).sent.value.items[i] == MapItem(body.value.items.value[i])
    ensures CreatePreference(hasToken, body, parseError, o, reply).sent.value.items[i].currencyId == CURRENCY
  {
  }
}
