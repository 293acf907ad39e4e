/**
 * The payment notification handler (`payment-webhook`): it reads the topic
 * of a Mercado Pago notification, fetches the payment or merchant order it
 * names, reduces that to an order id and a payment status, and overwrites the
 * order's payment fields.
 *
 * The environment lookups, the Mercado Pago fetch and the database's error
 * reply are parameters; the `orders` table is a class holding a map from
 * order id to row; `now` stands for `new Date().toISOString()`.
 */
module PaymentWebhook {
  import opened Common

  /** The notification URL's `topic`, `type` and `id` query parameters. */
  datatype Query = Query(topic: Option<string>, kind: Option<string>, id: Option<string>)

  /** Which environment variables are set to a non-empty value. */
  datatype Env = Env(supabaseUrl: bool, serviceRoleKey: bool, accessToken: bool)

  /** One entry of a merchant order's `payments` list. */
  datatype PaymentEntry = PaymentEntry(status: Option<string>)

  /**
   * The JSON body Mercado Pago returns. A payment carries `status`; a
   * merchant order carries `payments`. Either may lack any field.
   */
  datatype Payload = Payload(
    externalReference: Option<string>,
    status: Option<string>,
    payments: Option<seq<PaymentEntry>>)

  /** The outcome of the fetch: a non-OK reply, a body that is not JSON, or a body. */
  datatype Fetch = NotOk | Unparsable | Body(payload: Payload)

  /** The three overwrites the handler knows. */
  datatype Change = MarkPaid | MarkPending | MarkFailed

  /** What the handler decides before it touches the database. */
  datatype Decision = Respond(code: int) | Write(orderId: string, change: Change)

  /** An `orders` row: the two status columns, the timestamp and the columns the handler never writes. */
  datatype Order = Order(
    paymentStatus: string,
    status: string,
    updatedAt: int,
    trackingCode: Option<string>,
    subtotal: int)

  const PAYMENT_TOPIC := "payment"
  const MERCHANT_ORDER_TOPIC := "merchant_order"

  /** `topic || type`: an absent or empty `topic` falls back to `type`. */
  function Topic(q: Query): (t: Option<string>)
    ensures q.topic.Some? && q.topic.value != "" ==> t == q.topic
    ensures (q.topic.None? || q.topic.value == "") ==> t == q.kind
  {
    if q.topic.Some? && q.topic.value != "" then q.topic else q.kind
  }

  predicate Handled(t: Option<string>)
  {
    t == Some(PAYMENT_TOPIC) || t == Some(MERCHANT_ORDER_TOPIC)
  }

  /** A JSON value used as a condition: absent and empty strings are falsy. */
  predicate Truthy(s: Option<string>)
  {
    s.Some? && s.value != ""
  }

  /** The status of the last payment of a merchant order; none when the list is absent or empty. */
  function LastStatus(payments: Option<seq<PaymentEntry>>): (s: Option<string>)
    ensures payments.None? || |payments.value| == 0 ==> s.None?
    ensures payments.Some? && |payments.value| > 0 ==> s == payments.value[|payments.value| - 1].status
  {
    if payments.Some? && |payments.value| > 0 then payments.value[|payments.value| - 1].status else None
  }

  /**
   * The `(externalReference, status)` pair both topics are reduced to: a
   * payment gives its own status, a merchant order its last payment's.
   * Without a truthy reference both are absent.
   */
  function Normalize(topic: string, p: Payload): (r: (Option<string>, Option<string>))
    ensures Truthy(r.0) <==> (topic == PAYMENT_TOPIC || topic == MERCHANT_ORDER_TOPIC) && Truthy(p.externalReference)
    ensures Truthy(r.0) ==> r.0 == p.externalReference
    ensures !Truthy(r.0) ==> r.1.None?
    ensures topic == PAYMENT_TOPIC && Truthy(p.externalReference) ==> r.1 == p.status
    ensures topic == MERCHANT_ORDER_TOPIC && Truthy(p.externalReference) ==> r.1 == LastStatus(p.payments)
  {
    if topic == PAYMENT_TOPIC && Truthy(p.externalReference) then (p.externalReference, p.status)
    else if topic == MERCHANT_ORDER_TOPIC && Truthy(p.externalReference) then (p.externalReference, LastStatus(p.payments))
    else (None, None)
  }

  /** The overwrite a vendor status calls for; any other status calls for none. */
  function ChangeFor(status: Option<string>): (c: Option<Change>)
    ensures c == Some(MarkPaid) <==> status == Some("approved")
    ensures c == Some(MarkPending) <==> status == Some("pending")
    ensures c == Some(MarkFailed) <==> status == Some("rejected") || status == Some("cancelled")
  {
    if status == Some("approved") then Some(MarkPaid)
    else if status == Some("pending") then Some(MarkPending)
    else if status == Some("rejected") || status == Some("cancelled") then Some(MarkFailed)
    else None
  }

  /** All three settings the handler reads are present. */
  predicate Configured(env: Env)
  {
    env.supabaseUrl && env.serviceRoleKey && env.accessToken
  }

  /**
   * Everything the handler decides from the request, the environment and
   * the fetched body: an early response (500 for missing configuration or a
   * body that is not JSON, 400 for a failed fetch, 200 for an ignored
   * notification) or the overwrite of one order.
   */
  function Decide(env: Env, q: Query, fetched: Fetch): (d: Decision)
    ensures d.Respond? ==> d.code in {200, 400, 500}
    ensures !env.supabaseUrl || !env.serviceRoleKey ==> d == Respond(500)
    ensures env.supabaseUrl && env.serviceRoleKey && Handled(Topic(q)) && !env.accessToken ==> d == Respond(500)
    ensures Configured(env) && Handled(Topic(q)) && fetched.NotOk? ==> d == Respond(400)
    ensures Configured(env) && Handled(Topic(q)) && fetched.Unparsable? ==> d == Respond(500)
    ensures d.Write? ==> env.supabaseUrl && env.serviceRoleKey && env.accessToken && Handled(Topic(q))
    ensures d.Write? ==> fetched.Body? && Some(d.orderId) == fetched.payload.externalReference && d.orderId != ""
  {
    if !env.supabaseUrl || !env.serviceRoleKey then Respond(500)
    else if !Handled(Topic(q)) then Respond(200)
    else if !env.accessToken then Respond(500)
    else
      match fetched
      case NotOk => Respond(400)
      case Unparsable => Respond(500)
      case Body(p) =>
        var (reference, status) := Normalize(Topic(q).value, p);
        if !Truthy(reference) then Respond(200)
        else
          match ChangeFor(status)
          case None => Respond(200)
          case Some(c) => Write(reference.value, c)
  }

  /** The status code of a write: only a failed `approved` write is reported, as 400. */
  function WriteCode(c: Change, dbError: bool): (code: int)
    ensures code == 400 <==> c == MarkPaid && dbError
    ensures code != 400 ==> code == 200
  {
    if c == MarkPaid && dbError then 400 else 200
  }

  /**
   * The row after an overwrite: `approved` sets the payment status to paid
   * and the order status to confirmed; pending and failed set only the
   * payment status. Each also stamps `updatedAt`.
   */
  function Transition(o: Order, c: Change, now: int): (r: Order)
    ensures r.updatedAt == now && r.trackingCode == o.trackingCode && r.subtotal == o.subtotal
    ensures c == MarkPaid ==> r.paymentStatus == "paid" && r.status == "confirmed"
    ensures c == MarkPending ==> r.paymentStatus == "pending" && r.status == o.status
    ensures c == MarkFailed ==> r.paymentStatus == "failed" && r.status == o.status
  {
    match c
    case MarkPaid => o.(paymentStatus := "paid", status := "confirmed", updatedAt := now)
    case MarkPending => o.(paymentStatus := "pending", updatedAt := now)
    case MarkFailed => o.(paymentStatus := "failed", updatedAt := now)
  }

  /** The table after a decision: a write that succeeds overwrites the row with that id, if there is one. */
  function Effect(orders: map<string, Order>, d: Decision, dbError: bool, now: int): (r: map<string, Order>)
    ensures r.Keys == orders.Keys
    ensures forall k :: k in orders && !(d.Write? && k == d.orderId) ==> r[k] == orders[k]
    ensures d.Write? && !dbError && d.orderId in orders ==> r[d.orderId] == Transition(orders[d.orderId], d.change, now)
    ensures !(d.Write? && !dbError && d.orderId in orders) ==> r == orders
  {
    if d.Write? && !dbError && d.orderId in orders then orders[d.orderId := Transition(orders[d.orderId], d.change, now)]
    else orders
  }

  // ---------------------------------------------------------------------
  // Properties of the decision

  /** Any topic but `payment` and `merchant_order` is acknowledged with 200 and writes nothing. */
  lemma UnknownTopicIgnored(env: Env, q: Query, fetched: Fetch)
    requires env.supabaseUrl && env.serviceRoleKey
    requires !Handled(Topic(q))
    ensures Decide(env, q, fetched) == Respond(200)
  {
  }

  /** A body without a truthy `external_reference` is acknowledged with 200 and writes nothing. */
  lemma NoReferenceIgnored(env: Env, q: Query, p: Payload)
    requires env.supabaseUrl && env.serviceRoleKey && env.accessToken && Handled(Topic(q))
    requires !Truthy(p.externalReference)
    ensures Decide(env, q, Body(p)) == Respond(200)
  {
  }

  /** A merchant order whose `payments` list is absent or empty has no status and writes nothing. */
  lemma EmptyMerchantOrderIgnored(env: Env, q: Query, p: Payload)
    requires env.supabaseUrl && env.serviceRoleKey && env.accessToken
    requires Topic(q) == Some(MERCHANT_ORDER_TOPIC)
    requires p.payments.None? || |p.payments.value| == 0
    ensures Decide(env, q, Body(p)) == Respond(200)
  {
  }

  /** For a merchant order, the write is decided by the last payment's status alone. */
  lemma MerchantOrderUsesLastPayment(env: Env, q: Query, reference: string, payments: seq<PaymentEntry>, status: Option<string>)
    requires env.supabaseUrl && env.serviceRoleKey && env.accessToken
    requires Topic(q) == Some(MERCHANT_ORDER_TOPIC) && reference != "" && |payments| > 0
    requires ChangeFor(payments[|payments| - 1].status).Some?
    ensures Decide(env, q, Body(Payload(Some(reference), status, Some(payments))))
            == Write(reference, ChangeFor(payments[|payments| - 1].status).value)
  {
  }

  /** A handled notification whose status is none of the four known ones writes nothing and answers 200. */
  lemma UnknownStatusIgnored(env: Env, q: Query, p: Payload)
    requires env.supabaseUrl && env.serviceRoleKey && env.accessToken && Handled(Topic(q))
    requires ChangeFor(Normalize(Topic(q).value, p).1).None?
    ensures Decide(env, q, Body(p)) == Respond(200)
  {
  }

  /** For a payment, the write is decided by the payment's own status. */
  lemma PaymentUsesOwnStatus(env: Env, q: Query, reference: string, status: Option<string>,
                             payments: Option<seq<PaymentEntry>>)
    requires Configured(env) && Topic(q) == Some(PAYMENT_TOPIC) && reference != ""
    requires ChangeFor(status).Some?
    ensures Decide(env, q, Body(Payload(Some(reference), status, payments))) == Write(reference, ChangeFor(status).value)
  {
  }

  /**
   * The handler writes exactly when it is configured, the topic is handled,
   * the body was fetched, it names an order and its status is one of the
   * four known ones.
   */
  lemma WriteIff(env: Env, q: Query, fetched: Fetch)
    ensures Decide(env, q, fetched).Write? <==>
              && Configured(env) && Handled(Topic(q)) && fetched.Body?
              && Truthy(fetched.payload.externalReference)
              && ChangeFor(Normalize(Topic(q).value, fetched.payload).1).Some?
  {
  }

  /**
   * A pending or failed write the database rejects is still acknowledged
   * with 200, and the order keeps its old statuses: the notification is lost.
   */
  lemma RejectedNonApprovalIsAcknowledged(orders: map<string, Order>, env: Env, q: Query, fetched: Fetch, now: int)
    requires Decide(env, q, fetched).Write? && Decide(env, q, fetched).change != MarkPaid
    ensures WriteCode(Decide(env, q, fetched).change, true) == 200
    ensures Effect(orders, Decide(env, q, fetched), true, now) == orders
  {
  }

  // ---------------------------------------------------------------------
  // Properties of the overwrite

  /** An overwrite ignores the row's current statuses: two rows end with the same statuses. */
  lemma TransitionOverwrites(o1: Order, o2: Order, c: Change, now: int)
    requires c == MarkPaid || o1.status == o2.status
    ensures Transition(o1, c, now).paymentStatus == Transition(o2, c, now).paymentStatus
    ensures Transition(o1, c, now).status == Transition(o2, c, now).status
  {
  }

  /** Applying the same overwrite twice is applying it once, apart from the timestamp. */
  lemma TransitionIdempotent(o: Order, c: Change, t1: int, t2: int)
    ensures Transition(Transition(o, c, t1), c, t2) == Transition(o, c, t2)
  {
  }

  /** Nothing protects a paid order: a later `pending` or `rejected` overwrites it. */
  lemma PaidIsNotFinal(o: Order, c: Change, now: int)
    requires o.paymentStatus == "paid" && c != MarkPaid
    ensures Transition(o, c, now).paymentStatus != "paid"
    ensures Transition(o, c, now).status == o.status
  {
  }

  /** Handling the same notification twice leaves the table as handling it once, apart from the timestamp. */
  lemma EffectIdempotent(orders: map<string, Order>, d: Decision, dbError: bool, t1: int, t2: int)
    ensures Effect(Effect(orders, d, dbError, t1), d, dbError, t2) == Effect(orders, d, dbError, t2)
  {
    if d.Write? && !dbError && d.orderId in orders {
      TransitionIdempotent(orders[d.orderId], d.change, t1, t2);
      assert Effect(orders, d, dbError, t1)[d.orderId := Transition(orders[d.orderId], d.change, t2)]
          == orders[d.orderId := Transition(orders[d.orderId], d.change, t2)];
    }
  }

  /** An `approved` write changes only the payment status, the order status and the timestamp of that one row. */
  lemma ApprovedFrame(orders: map<string, Order>, id: string, now: int)
    requires id in orders
    ensures var r := Effect(orders, Write(id, MarkPaid), false, now);
            r[id] == orders[id].(paymentStatus := "paid", status := "confirmed", updatedAt := now)
  {
  }

  /**
   * End to end: the notified status decides what a successful write leaves in
   * the named order — approved → paid and confirmed, pending → pending,
   * rejected or cancelled → failed with the order status kept.
   */
  lemma NotifiedStatusReachesOrder(orders: map<string, Order>, env: Env, q: Query, fetched: Fetch, now: int)
    requires Decide(env, q, fetched).Write? && Decide(env, q, fetched).orderId in orders
    ensures fetched.Body? && Topic(q).Some?
    ensures var id := Decide(env, q, fetched).orderId;
            var s := Normalize(Topic(q).value, fetched.payload).1;
            var r := Effect(orders, Decide(env, q, fetched), false, now);
            && (s == Some("approved") ==> r[id].paymentStatus == "paid" && r[id].status == "confirmed")
            && (s == Some("pending") ==> r[id].paymentStatus == "pending" && r[id].status == orders[id].status)
            && (s == Some("rejected") || s == Some("cancelled") ==>
                  r[id].paymentStatus == "failed" && r[id].status == orders[id].status)
  {
    WriteIff(env, q, fetched);
  }

  // ---------------------------------------------------------------------
  // The `orders` table

  class OrderTable {
    var orders: map<string, Order>

    constructor (initial: map<string, Order>)
      ensures orders == initial
    {
      orders := initial;
    }

    /** `.update({...}).eq('id', id)`: overwrite the row if it exists; a missing id updates nothing. */
    method Update(id: string, c: Change, now: int)
      modifies this
      ensures id in old(orders) ==> orders == old(orders)[id := Transition(old(orders)[id], c, now)]
      ensures id !in old(orders) ==> orders == old(orders)
    {
      if id in orders {
        orders := orders[id := Transition(orders[id], c, now)];
      }
    }

    /**
     * The handler: decide, then write and answer. A database error leaves
     * the table as it was.
     */
    method Handle(env: Env, q: Query, fetched: Fetch, dbError: bool, now: int) returns (code: int)
      modifies this
      ensures orders == Effect(old(orders), Decide(env, q, fetched), dbError, now)
      ensures Decide(env, q, fetched).Respond? ==> code == Decide(env, q, fetched).code
      ensures Decide(env, q, fetched).Write? ==> code == WriteCode(Decide(env, q, fetched).change, dbError)
    {
      if !env.supabaseUrl || !env.serviceRoleKey {
        return 500;
      }
      var topic := Topic(q);
      if !Handled(topic) {
        return 200;
      }
      if !env.accessToken {
        return 500;
      }
      if fetched.NotOk? {
        return 400;
      }
      if fetched.Unparsable? {
        return 500;
      }
      var (reference, status) := Normalize(topic.value, fetched.payload);
      if !Truthy(reference) {
        return 200;
      }
      var change := ChangeFor(status);
      if change.None? {
        return 200;
      }
      if !dbError {
        Update(reference.value, change.value, now);
      }
      code := WriteCode(change.value, dbError);
    }
  }
}
