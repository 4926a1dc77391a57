/** `routes/webhooks.js`: the payment gateway's webhook, the status update it makes on the
    order store, and the shipment it triggers for printed orders. */
module Webhooks {
  import opened Wrappers
  import opened Strings
  import opened Store
  import Shipments

  /** The three outcomes of `crypto.timingSafeEqual(Buffer.from(signature), Buffer.from(expected))`. */
  datatype Verdict = Genuine | Forged | Throws

  /** `verifyWebhookSignature`, given the hex HMAC-SHA256 digest `expected` of the raw body:
      accepts only the exact digest; a missing header or one whose length differs makes the
      comparison throw. */
  function CheckSignature(signature: Option<string>, expected: string): (v: Verdict)
    ensures v == Genuine <==> signature == Some(expected)
    ensures v == Throws <==> signature.None? || |signature.value| != |expected|
    ensures v == Forged <==> signature.Some? && |signature.value| == |expected| && signature.value != expected
  {
    if signature.None? || |signature.value| != |expected| then Throws
    else if signature.value == expected then Genuine
    else Forged
  }

  /** The gateway's order entity (`event.payload.order.entity`). */
  datatype GatewayOrderEntity = GatewayOrderEntity(id: string, amount: int, currency: string)

  /** A parsed webhook body: the `event` tag and whichever entities its payload carries. */
  datatype WebhookEvent = WebhookEvent(tag: string, payment: Option<Payment>, order: Option<GatewayOrderEntity>)

  /** The first order whose gateway id is `gatewayId` (`findIndex`), if any. */
  function IndexOfGatewayId(orders: seq<Order>, gatewayId: string): (r: Option<nat>)
    ensures r.Some? ==> r.value < |orders| && orders[r.value].gatewayId == gatewayId
    ensures r.Some? ==> forall j :: 0 <= j < r.value ==> orders[j].gatewayId != gatewayId
    ensures r.None? ==> forall j :: 0 <= j < |orders| ==> orders[j].gatewayId != gatewayId
  {
    if orders == [] then None
    else if orders[0].gatewayId == gatewayId then Some(0)
    else
      match IndexOfGatewayId(orders[1..], gatewayId)
      case None => None
      case Some(i) => Some(i + 1)
  }

  /** The fields `updateOrderStatus` overwrites: the status and the update time always, the
      payment entity and its id only when one is given; nothing else changes. */
  function Patch(o: Order, status: Status, now: int, paymentData: Option<Payment>): (r: Order)
    ensures r.status == status && r.updatedAt == now
    ensures paymentData.Some? ==> r.paymentData == paymentData && r.paymentId == Some(paymentData.value.id)
    ensures paymentData.None? ==> r.paymentData == o.paymentData && r.paymentId == o.paymentId
    ensures r.(status := o.status, updatedAt := o.updatedAt, paymentData := o.paymentData,
               paymentId := o.paymentId) == o
  {
    match paymentData
    case None => o.(status := status, updatedAt := now)
    case Some(p) => o.(status := status, updatedAt := now, paymentData := Some(p), paymentId := Some(p.id))
  }

  /** The order list after `updateOrderStatus`, and the record it returns (`null` is `None`). */
  datatype Update = Update(orders: seq<Order>, updated: Option<Order>)

  /** `updateOrderStatus` as a function of the stored list: only the first order with the gateway
      id is patched, whatever its previous status; no match changes nothing. */
  function StatusUpdate(orders: seq<Order>, gatewayId: string, status: Status, now: int,
                        paymentData: Option<Payment>): (u: Update)
    ensures |u.orders| == |orders|
    ensures IndexOfGatewayId(orders, gatewayId).None? ==> u == Update(orders, None)
    ensures IndexOfGatewayId(orders, gatewayId).Some? ==>
      var i := IndexOfGatewayId(orders, gatewayId).value;
      && u.updated == Some(u.orders[i])
      && u.orders[i] == Patch(orders[i], status, now, paymentData)
      && forall j :: 0 <= j < |orders| && j != i ==> u.orders[j] == orders[j]
    ensures u.updated.Some? ==> u.updated.value.status == status && u.updated.value.gatewayId == gatewayId
  {
    match IndexOfGatewayId(orders, gatewayId)
    case None => Update(orders, None)
    case Some(i) =>
      var patched := Patch(orders[i], status, now, paymentData);
      Update(orders[i := patched], Some(patched))
  }

  /** `logWebhook(type, data)`: appends one entry to `data/payment_logs.json`. */
  method LogWebhook(files: DataFiles, id: string, now: int, kind: string, data: LogData)
    modifies files
    ensures files.paymentLogs == old(files.paymentLogs) + [LogEntry(id, now, kind, data)]
    ensures files.orders == old(files.orders)
    ensures files.shipmentLogs == old(files.shipmentLogs) && files.orderLogs == old(files.orderLogs)
  {
    files.paymentLogs := files.paymentLogs + [LogEntry(id, now, kind, data)];
  }

  /** `updateOrderStatus`: finds the index, then overwrites that record in place. */
  method UpdateOrderStatus(files: DataFiles, gatewayId: string, status: Status, now: int,
                           paymentData: Option<Payment>)
    returns (updated: Option<Order>)
    modifies files
    ensures files.orders == StatusUpdate(old(files.orders), gatewayId, status, now, paymentData).orders
    ensures updated == StatusUpdate(old(files.orders), gatewayId, status, now, paymentData).updated
    ensures files.paymentLogs == old(files.paymentLogs) && files.shipmentLogs == old(files.shipmentLogs)
    ensures files.orderLogs == old(files.orderLogs)
  {
    var index := IndexOfGatewayId(files.orders, gatewayId);
    if index.None? {
      return None;
    }
    var i := index.value;
    var patched := Patch(files.orders[i], status, now, paymentData);
    files.orders := files.orders[i := patched];
    updated := Some(patched);
  }

  /** City, state and pincode guessed from a free-text address. */
  datatype AddressGuess = AddressGuess(city: string, state: string, pincode: string)

  /** `parts[parts.length - k].trim() || fallback`: the k-th comma-separated field from the end,
      trimmed, or the fallback when that index falls below zero (`undefined`) or the field is blank. */
  function FieldFromEnd(parts: seq<string>, k: nat, fallback: string): (f: string)
    requires k >= 1
    ensures k > |parts| ==> f == fallback
    ensures k <= |parts| && Trim(parts[|parts| - k]) != "" ==> f == Trim(parts[|parts| - k])
    ensures k <= |parts| && Trim(parts[|parts| - k]) == "" ==> f == fallback
    ensures fallback != "" ==> f != ""
  {
    if k <= |parts| then OrElse(Some(Trim(parts[|parts| - k])), fallback) else fallback
  }

  /** The address split of `createShipmentAfterPayment`: split on commas, trim each part, and
      read city, state and pincode from the last three parts, each with its default. */
  function SplitAddress(address: string): (a: AddressGuess)
    ensures a.city != "" && a.state != "" && a.pincode != ""
  {
    var parts := Split(address, ',');
    AddressGuess(FieldFromEnd(parts, 3, "Unknown"), FieldFromEnd(parts, 2, "Unknown"),
                 FieldFromEnd(parts, 1, "000000"))
  }

  /** However the street part reads, the last three comma-separated fields become city, state and
      pincode (trimmed, and replaced by their defaults when nothing but white space is left). */
  lemma {:induction false} SplitAddressTakesLastThree(street: string, city: string, state: string, pincode: string)
    requires ',' !in city && ',' !in state && ',' !in pincode
    ensures SplitAddress(street + "," + city + "," + state + "," + pincode)
         == AddressGuess(OrElse(Some(Trim(city)), "Unknown"),
                         OrElse(Some(Trim(state)), "Unknown"),
                         OrElse(Some(Trim(pincode)), "000000"))
  {
    var a := street + "," + city + "," + state;
    var b := street + "," + city;
    assert street + "," + city + "," + state + "," + pincode == a + [','] + pincode;
    assert a == b + [','] + state;
    SplitAppend(a, pincode, ',');
    SplitAppend(b, state, ',');
    SplitAppend(street, city, ',');
    SplitWithoutSeparator(city, ',');
    SplitWithoutSeparator(state, ',');
    SplitWithoutSeparator(pincode, ',');
    var parts := Split(street, ',') + [city] + [state] + [pincode];
    assert Split(street + "," + city + "," + state + "," + pincode, ',') == parts;
    var n := |parts|;
    assert parts[n - 1] == pincode && parts[n - 2] == state && parts[n - 3] == city;
  }

  /** An address with one comma is read as state and pincode, and the city is `Unknown`:
      `"Pune, 411001"` gives `Unknown`, `Pune` and `411001`. */
  lemma {:induction false} SplitAddressTwoParts(state: string, pincode: string)
    requires ',' !in state && ',' !in pincode
    ensures SplitAddress(state + "," + pincode)
         == AddressGuess("Unknown", OrElse(Some(Trim(state)), "Unknown"), OrElse(Some(Trim(pincode)), "000000"))
  {
    assert state + "," + pincode == state + [','] + pincode;
    SplitAppend(state, pincode, ',');
    SplitWithoutSeparator(state, ',');
    SplitWithoutSeparator(pincode, ',');
    assert Split(state + "," + pincode, ',') == [state, pincode];
  }

  /** An address with two commas is read as city, state and pincode. */
  lemma {:induction false} SplitAddressThreeParts(city: string, state: string, pincode: string)
    requires ',' !in city && ',' !in state && ',' !in pincode
    ensures SplitAddress(city + "," + state + "," + pincode)
         == AddressGuess(OrElse(Some(Trim(city)), "Unknown"), OrElse(Some(Trim(state)), "Unknown"),
                         OrElse(Some(Trim(pincode)), "000000"))
  {
    var a := city + "," + state;
    assert city + "," + state + "," + pincode == a + [','] + pincode;
    assert a == city + [','] + state;
    SplitAppend(a, pincode, ',');
    SplitAppend(city, state, ',');
    SplitWithoutSeparator(city, ',');
    SplitWithoutSeparator(state, ',');
    SplitWithoutSeparator(pincode, ',');
    assert Split(city + "," + state + "," + pincode, ',') == [city, state, pincode];
  }

  /** An address without a comma is read as a bare pincode: city and state are `Unknown`. */
  lemma SplitAddressWithoutComma(address: string)
    requires ',' !in address
    ensures SplitAddress(address) == AddressGuess("Unknown", "Unknown", OrElse(Some(Trim(address)), "000000"))
  {
    SplitWithoutSeparator(address, ',');
  }

  /** The body `createShipmentAfterPayment` posts to `/api/shipments/create`; only a `print`
      order gets one, and it always carries a pincode, city and state. */
  function AutoShipment(o: Order): (r: Option<Shipments.ShipmentRequest>)
    ensures r.Some? <==> o.packageType == Some("print")
    ensures r.Some? ==>
      var address := OrElse(o.customer.address, "");
      && r.value.orderId == Some(o.gatewayId)
      && r.value.customerName == Some(o.customer.name)
      && r.value.customerEmail == Some(o.customer.email)
      && r.value.customerPhone == o.customer.whatsapp
      && r.value.address == Some(address)
      && r.value.city == Some(SplitAddress(address).city)
      && r.value.state == Some(SplitAddress(address).state)
      && r.value.pincode == Some(SplitAddress(address).pincode)
      && Truthy(r.value.pincode)
      && r.value.packageType == Some("print")
      && r.value.amount == Some(o.amount)
  {
    if o.packageType != Some("print") then None
    else
      var address := OrElse(o.customer.address, "");
      var guess := SplitAddress(address);
      Some(Shipments.ShipmentRequest(
        Some(o.gatewayId), Some(o.customer.name), Some(o.customer.email), o.customer.whatsapp,
        Some(address), Some(guess.city), Some(guess.pincode), Some(guess.state),
        o.packageType, Some(o.amount)))
  }

  /** What the outside world answers while the shipment route serves the webhook's own request:
      today's date, the carrier's answer to a login and its answer to the order. */
  datatype CarrierAnswers = CarrierAnswers(today: string, login: Shipments.LoginReply,
                                           reply: Shipments.CarrierReply<Shipments.CarrierOrder>)

  /** `SHIPMENT_AUTO_CREATED` when the shipment route answered with a 2xx status, else `SHIPMENT_AUTO_ERROR`. */
  function AutoLog(orderId: string, id: string, now: int, accepted: bool): LogEntry {
    LogEntry(id, now, if accepted then "SHIPMENT_AUTO_CREATED" else "SHIPMENT_AUTO_ERROR",
             NoData.(orderId := Some(orderId)))
  }

  /** The effect of `createShipmentAfterPayment`: the request posted, the entries it appends to the
      payment log and, through the shipment route, to the shipment log, and the session afterwards. */
  datatype AutoEffect = AutoEffect(shipment: Option<Shipments.ShipmentRequest>, logs: seq<LogEntry>,
                                   shipmentLogs: seq<LogEntry>, session: (string, int))

  /** `createShipmentAfterPayment` for the paid order `o`: nothing for a non-`print` order; otherwise
      the request goes to the shipment route of this same server (its log entry takes the second
      uuid), and the webhook logs whether the route answered with a 2xx status (the third uuid).
      A `print` request is never a digital delivery, so it is accepted exactly when it passes the
      required-field check, the session is authorized and the carrier creates the order. */
  function AfterPayment(o: Order, session: (string, int), now: int, uuid: nat -> string,
                        carrier: CarrierAnswers): (e: AutoEffect)
    ensures e.shipment == AutoShipment(o)
    ensures e.shipment.None? ==> e.logs == [] && e.shipmentLogs == [] && e.session == session
    ensures e.shipment.Some? ==>
      var req := e.shipment.value;
      && |e.logs| == 1 && e.logs[0].id == uuid(2) && e.logs[0].data.orderId == Some(o.gatewayId)
      && (e.logs[0].kind == "SHIPMENT_AUTO_CREATED" <==>
            Shipments.HasRequiredFields(req) && Shipments.Authorized(session.0, session.1, now, carrier.login)
            && carrier.reply.CarrierOk?)
      && (!Shipments.HasRequiredFields(req) ==>
            e.logs[0].kind == "SHIPMENT_AUTO_ERROR" && e.shipmentLogs == [] && e.session == session)
      && (Shipments.HasRequiredFields(req) ==>
            |e.shipmentLogs| == 1 && e.shipmentLogs[0].id == uuid(1)
            && e.session == Shipments.Refreshed(session.0, session.1, now, carrier.login))
  {
    match AutoShipment(o)
    case None => AutoEffect(None, [], [], session)
    case Some(req) =>
      var route := Shipments.ShipmentRoute(session.0, session.1, req, carrier.today, now, uuid(1),
                                           carrier.login, carrier.reply);
      AutoEffect(Some(req), [AutoLog(o.gatewayId, uuid(2), now, Shipments.Accepted(route.resp))], route.logs, route.session)
  }

  /** The observable effect of one webhook delivery: the HTTP status, the new order list, the
      entries appended to the payment log, the shipment request posted, if any, the entries the
      shipment route appended to the shipment log and the carrier session afterwards. */
  datatype Outcome = Outcome(code: int, orders: seq<Order>, logs: seq<LogEntry>,
                             shipment: Option<Shipments.ShipmentRequest>,
                             shipmentLogs: seq<LogEntry>, session: (string, int))

  function CaptureLog(p: Payment, id: string, now: int): LogEntry {
    LogEntry(id, now, "PAYMENT_CAPTURED", NoData.(paymentId := Some(p.id), orderId := Some(p.orderId)))
  }

  /** `handlePaymentCaptured`: mark the order `paid`; if it was found, log the capture and run
      `createShipmentAfterPayment` on the updated order; an unknown order is not logged at all. */
  function Captured(orders: seq<Order>, session: (string, int), p: Payment, now: int, uuid: nat -> string,
                    carrier: CarrierAnswers): (r: Outcome)
    ensures r.code == 200
    ensures IndexOfGatewayId(orders, p.orderId).None? ==> r == Outcome(200, orders, [], None, [], session)
    ensures IndexOfGatewayId(orders, p.orderId).Some? ==>
      var i := IndexOfGatewayId(orders, p.orderId).value;
      && |r.orders| == |orders|
      && r.orders[i] == Patch(orders[i], Paid, now, Some(p))
      && (forall j :: 0 <= j < |orders| && j != i ==> r.orders[j] == orders[j])
      && |r.logs| >= 1 && r.logs[0] == CaptureLog(p, uuid(0), now)
      && (r.shipment.Some? <==> orders[i].packageType == Some("print"))
      && var e := AfterPayment(r.orders[i], session, now, uuid, carrier);
         && r.logs == [CaptureLog(p, uuid(0), now)] + e.logs
         && r.shipment == e.shipment && r.shipmentLogs == e.shipmentLogs && r.session == e.session
  {
    var u := StatusUpdate(orders, p.orderId, Paid, now, Some(p));
    if u.updated.None? then Outcome(200, orders, [], None, [], session)
    else
      var e := AfterPayment(u.updated.value, session, now, uuid, carrier);
      Outcome(200, u.orders, [CaptureLog(p, uuid(0), now)] + e.logs, e.shipment, e.shipmentLogs, e.session)
  }

  /** The order list and the payment-log entries of a handler that neither ships nor logs in. */
  datatype Written = Written(orders: seq<Order>, logs: seq<LogEntry>)

  /** `handlePaymentFailed`: mark the order `failed` and log the failure, found or not. */
  function PaymentFailed(orders: seq<Order>, p: Payment, now: int, uuid: nat -> string): (w: Written)
    ensures |w.orders| == |orders|
    ensures IndexOfGatewayId(orders, p.orderId).None? ==> w.orders == orders
    ensures IndexOfGatewayId(orders, p.orderId).Some? ==>
      var i := IndexOfGatewayId(orders, p.orderId).value;
      && w.orders[i] == Patch(orders[i], Failed, now, Some(p))
      && forall j :: 0 <= j < |orders| && j != i ==> w.orders[j] == orders[j]
    ensures |w.logs| == 1 && w.logs[0].id == uuid(0) && w.logs[0].timestamp == now
    ensures w.logs[0].kind == "PAYMENT_FAILED" && w.logs[0].data.paymentId == Some(p.id)
    ensures w.logs[0].data.orderId == Some(p.orderId) && w.logs[0].data.error == p.errorDescription
  {
    var u := StatusUpdate(orders, p.orderId, Failed, now, Some(p));
    Written(u.orders,
            [LogEntry(uuid(0), now, "PAYMENT_FAILED",
                      NoData.(paymentId := Some(p.id), orderId := Some(p.orderId), error := p.errorDescription))])
  }

  /** `handleOrderPaid`: mark the order `completed` without payment data and log it, found or not. */
  function OrderPaid(orders: seq<Order>, g: GatewayOrderEntity, now: int, uuid: nat -> string): (w: Written)
    ensures |w.orders| == |orders|
    ensures IndexOfGatewayId(orders, g.id).None? ==> w.orders == orders
    ensures IndexOfGatewayId(orders, g.id).Some? ==>
      var i := IndexOfGatewayId(orders, g.id).value;
      && w.orders[i] == Patch(orders[i], Completed, now, None)
      && w.orders[i].paymentData == orders[i].paymentData && w.orders[i].paymentId == orders[i].paymentId
      && forall j :: 0 <= j < |orders| && j != i ==> w.orders[j] == orders[j]
    ensures |w.logs| == 1 && w.logs[0].id == uuid(0) && w.logs[0].timestamp == now
    ensures w.logs[0].kind == "ORDER_COMPLETED" && w.logs[0].data.orderId == Some(g.id)
  {
    var u := StatusUpdate(orders, g.id, Completed, now, None);
    Written(u.orders, [LogEntry(uuid(0), now, "ORDER_COMPLETED", NoData.(orderId := Some(g.id)))])
  }

  /** The webhook route: signature check, then the switch on the event tag. `event` is `None` when
      the body is not JSON; a handler reading an entity the payload lacks throws (a 500). */
  function Process(orders: seq<Order>, session: (string, int), verdict: Verdict, event: Option<WebhookEvent>,
                   now: int, uuid: nat -> string, carrier: CarrierAnswers): (out: Outcome)
    ensures verdict == Forged ==> out == Outcome(400, orders, [], None, [], session)
    ensures verdict == Throws || (verdict == Genuine && event.None?) ==>
      out == Outcome(500, orders, [], None, [], session)
    ensures out.code != 200 ==>
      out.orders == orders && out.logs == [] && out.shipment.None? && out.shipmentLogs == [] && out.session == session
    ensures out.shipment.Some? ==> |out.logs| == 2
    ensures out.shipment.None? ==> out.shipmentLogs == [] && out.session == session
  {
    if verdict == Forged then Outcome(400, orders, [], None, [], session)
    else if verdict == Throws || event.None? then Outcome(500, orders, [], None, [], session)
    else
      var e := event.value;
      if e.tag == "payment.captured" then
        if e.payment.None? then Outcome(500, orders, [], None, [], session)
        else Captured(orders, session, e.payment.value, now, uuid, carrier)
      else if e.tag == "payment.failed" then
        if e.payment.None? then Outcome(500, orders, [], None, [], session)
        else
          var w := PaymentFailed(orders, e.payment.value, now, uuid);
          Outcome(200, w.orders, w.logs, None, [], session)
      else if e.tag == "order.paid" then
        if e.order.None? then Outcome(500, orders, [], None, [], session)
        else
          var w := OrderPaid(orders, e.order.value, now, uuid);
          Outcome(200, w.orders, w.logs, None, [], session)
      else Outcome(200, orders, [], None, [], session)
  }

  /** The switch: a genuine `payment.captured` sets `paid`, `payment.failed` sets `failed`,
      `order.paid` sets `completed`, each on the first order with the entity's gateway id. */
  lemma DispatchSetsStatus(orders: seq<Order>, session: (string, int), e: WebhookEvent, now: int,
                           uuid: nat -> string, carrier: CarrierAnswers)
    ensures var out := Process(orders, session, Genuine, Some(e), now, uuid, carrier);
      && (e.tag == "payment.captured" && e.payment.Some? ==>
            out.code == 200 && out.orders == StatusUpdate(orders, e.payment.value.orderId, Paid, now, e.payment).orders)
      && (e.tag == "payment.failed" && e.payment.Some? ==>
            out.code == 200 && out.orders == StatusUpdate(orders, e.payment.value.orderId, Failed, now, e.payment).orders)
      && (e.tag == "order.paid" && e.order.Some? ==>
            out.code == 200 && out.orders == StatusUpdate(orders, e.order.value.id, Completed, now, None).orders)
  {
  }

  /** Any other tag is acknowledged with a success and changes nothing. */
  lemma UnknownTagIgnored(orders: seq<Order>, session: (string, int), e: WebhookEvent, now: int,
                          uuid: nat -> string, carrier: CarrierAnswers)
    requires e.tag != "payment.captured" && e.tag != "payment.failed" && e.tag != "order.paid"
    ensures Process(orders, session, Genuine, Some(e), now, uuid, carrier) == Outcome(200, orders, [], None, [], session)
  {
  }

  /** `order.paid` never supplies payment data, so the stored payment fields survive it. */
  lemma OrderPaidKeepsPayment(orders: seq<Order>, g: GatewayOrderEntity, now: int, uuid: nat -> string, i: nat)
    requires i < |orders|
    ensures var after := OrderPaid(orders, g, now, uuid).orders;
      |after| == |orders| && after[i].paymentData == orders[i].paymentData && after[i].paymentId == orders[i].paymentId
  {
  }

  /** A shipment request is posted exactly when a genuine capture finds its order and that order
      is a `print` order. */
  lemma ShipmentOnlyForFoundPrintOrders(orders: seq<Order>, session: (string, int), verdict: Verdict,
                                        event: Option<WebhookEvent>, now: int, uuid: nat -> string,
                                        carrier: CarrierAnswers)
    ensures Process(orders, session, verdict, event, now, uuid, carrier).shipment.Some? <==>
      && verdict == Genuine && event.Some? && event.value.tag == "payment.captured" && event.value.payment.Some?
      && IndexOfGatewayId(orders, event.value.payment.value.orderId).Some?
      && orders[IndexOfGatewayId(orders, event.value.payment.value.orderId).value].packageType == Some("print")
  {
    if verdict == Genuine && event.Some? && event.value.tag == "payment.captured" && event.value.payment.Some? {
      var p := event.value.payment.value;
      var u := StatusUpdate(orders, p.orderId, Paid, now, Some(p));
      if u.updated.Some? {
        assert u.updated.value.packageType == orders[IndexOfGatewayId(orders, p.orderId).value].packageType;
      }
    }
  }

  /** No guard on the previous status: delivering the same capture again, to the list and session
      the first delivery left, posts the same shipment request a second time, leaves the order
      `paid` and, when the request passes the route's check, adds a second shipment-log entry. */
  lemma {:induction false} RedeliveredCaptureShipsAgain(orders: seq<Order>, session: (string, int), p: Payment,
                                                        t1: int, t2: int, uuid: nat -> string,
                                                        c1: CarrierAnswers, c2: CarrierAnswers)
    requires IndexOfGatewayId(orders, p.orderId).Some?
    requires orders[IndexOfGatewayId(orders, p.orderId).value].packageType == Some("print")
    ensures var first := Captured(orders, session, p, t1, uuid, c1);
      var second := Captured(first.orders, first.session, p, t2, uuid, c2);
      && first.shipment.Some?
      && second.shipment == first.shipment
      && second.code == 200
      && StatusUpdate(first.orders, p.orderId, Paid, t2, Some(p)).updated.value.status == Paid
      && (Shipments.HasRequiredFields(first.shipment.value) ==> |first.shipmentLogs| == 1 && |second.shipmentLogs| == 1)
  {
    var u1 := StatusUpdate(orders, p.orderId, Paid, t1, Some(p));
    var i := IndexOfGatewayId(orders, p.orderId).value;
    assert u1.updated.value.packageType == Some("print");
    assert IndexOfGatewayId(u1.orders, p.orderId) == Some(i) by {
      forall j | 0 <= j < i ensures u1.orders[j].gatewayId != p.orderId {
        assert u1.orders[j] == orders[j];
      }
      IndexIsFirst(u1.orders, p.orderId, i);
    }
    var u2 := StatusUpdate(u1.orders, p.orderId, Paid, t2, Some(p));
    assert u2.updated.value == Patch(u1.orders[i], Paid, t2, Some(p));
    assert u2.updated.value.(updatedAt := t1) == u1.updated.value;
  }

  /** An index holding the gateway id with none before it is the one `findIndex` returns. */
  lemma {:induction false} IndexIsFirst(orders: seq<Order>, gatewayId: string, i: nat)
    requires i < |orders| && orders[i].gatewayId == gatewayId
    requires forall j :: 0 <= j < i ==> orders[j].gatewayId != gatewayId
    ensures IndexOfGatewayId(orders, gatewayId) == Some(i)
  {
    if i > 0 {
      IndexIsFirst(orders[1..], gatewayId, i - 1);
    }
  }

  /** `POST /api/webhooks/razorpay`. `expected` stands for the HMAC digest of the raw body,
      `uuid(k)` for the k-th uuid generated, `carrier` for the carrier's answers to the shipment
      route while it serves the webhook's own request. */
  method HandleWebhook(files: DataFiles, session: Shipments.ShiprocketSession, signature: Option<string>,
                       expected: string, event: Option<WebhookEvent>, now: int, uuid: nat -> string,
                       carrier: CarrierAnswers)
    returns (code: int, shipment: Option<Shipments.ShipmentRequest>)
    modifies files, session
    ensures var out := Process(old(files.orders), old((session.token, session.tokenExpiry)),
                               CheckSignature(signature, expected), event, now, uuid, carrier);
      && code == out.code && shipment == out.shipment
      && files.orders == out.orders
      && files.paymentLogs == old(files.paymentLogs) + out.logs
      && files.shipmentLogs == old(files.shipmentLogs) + out.shipmentLogs
      && (session.token, session.tokenExpiry) == out.session
    ensures files.orderLogs == old(files.orderLogs)
  {
    shipment := None;
    var verdict := CheckSignature(signature, expected);
    if verdict == Forged {
      return 400, None;
    }
    if verdict == Throws || event.None? {
      return 500, None;
    }
    var e := event.value;
    if e.tag == "payment.captured" {
      if e.payment.None? {
        return 500, None;
      }
      shipment := HandlePaymentCaptured(files, session, e.payment.value, now, uuid, carrier);
    } else if e.tag == "payment.failed" {
      if e.payment.None? {
        return 500, None;
      }
      HandlePaymentFailed(files, e.payment.value, now, uuid);
    } else if e.tag == "order.paid" {
      if e.order.None? {
        return 500, None;
      }
      HandleOrderPaid(files, e.order.value, now, uuid);
    }
    code := 200;
  }

  method HandlePaymentCaptured(files: DataFiles, session: Shipments.ShiprocketSession, p: Payment, now: int,
                               uuid: nat -> string, carrier: CarrierAnswers)
    returns (shipment: Option<Shipments.ShipmentRequest>)
    modifies files, session
    ensures var out := Captured(old(files.orders), old((session.token, session.tokenExpiry)), p, now, uuid, carrier);
      && shipment == out.shipment && files.orders == out.orders
      && files.paymentLogs == old(files.paymentLogs) + out.logs
      && files.shipmentLogs == old(files.shipmentLogs) + out.shipmentLogs
      && (session.token, session.tokenExpiry) == out.session
    ensures files.orderLogs == old(files.orderLogs)
  {
    var updated := UpdateOrderStatus(files, p.orderId, Paid, now, Some(p));
    if updated.None? {
      return None;
    }
    LogWebhook(files, uuid(0), now, "PAYMENT_CAPTURED", CaptureLog(p, uuid(0), now).data);
    shipment := CreateShipmentAfterPayment(files, session, updated.value, now, uuid, carrier);
  }

  method CreateShipmentAfterPayment(files: DataFiles, session: Shipments.ShiprocketSession, o: Order,
                                    now: int, uuid: nat -> string, carrier: CarrierAnswers)
    returns (shipment: Option<Shipments.ShipmentRequest>)
    modifies files, session
    ensures var e := AfterPayment(o, old((session.token, session.tokenExpiry)), now, uuid, carrier);
      && shipment == e.shipment
      && files.paymentLogs == old(files.paymentLogs) + e.logs
      && files.shipmentLogs == old(files.shipmentLogs) + e.shipmentLogs
      && (session.token, session.tokenExpiry) == e.session
    ensures files.orders == old(files.orders) && files.orderLogs == old(files.orderLogs)
  {
    shipment := AutoShipment(o);
    if shipment.Some? {
      AfterPaymentShips(o, old((session.token, session.tokenExpiry)), now, uuid, carrier, shipment.value);
      PostShipment(files, session, shipment.value, o.gatewayId, now, uuid, carrier);
    }
  }

  /** The axios call to the shipment route and the entry, under the order's gateway id
      `orderId`, that records whether it answered with a 2xx status. */
  method PostShipment(files: DataFiles, session: Shipments.ShiprocketSession, req: Shipments.ShipmentRequest,
                      orderId: string, now: int, uuid: nat -> string, carrier: CarrierAnswers)
    modifies files, session
    ensures var route := Shipments.ShipmentRoute(old(session.token), old(session.tokenExpiry), req, carrier.today,
                                                 now, uuid(1), carrier.login, carrier.reply);
      && files.paymentLogs == old(files.paymentLogs) + [AutoLog(orderId, uuid(2), now, Shipments.Accepted(route.resp))]
      && files.shipmentLogs == old(files.shipmentLogs) + route.logs
      && (session.token, session.tokenExpiry) == route.session
    ensures files.orders == old(files.orders) && files.orderLogs == old(files.orderLogs)
  {
    var resp, _ := Shipments.CreateShipment(session, files, req, carrier.today, now, uuid(1),
                                            carrier.login, carrier.reply);
    var entry := AutoLog(orderId, uuid(2), now, Shipments.Accepted(resp));
    LogWebhook(files, entry.id, now, entry.kind, entry.data);
  }

  /** `createShipmentAfterPayment` on a `print` order posts its request and logs the answer. */
  lemma AfterPaymentShips(o: Order, session: (string, int), now: int, uuid: nat -> string,
                          carrier: CarrierAnswers, req: Shipments.ShipmentRequest)
    requires AutoShipment(o) == Some(req)
    ensures var route := Shipments.ShipmentRoute(session.0, session.1, req, carrier.today, now, uuid(1),
                                                 carrier.login, carrier.reply);
      AfterPayment(o, session, now, uuid, carrier)
        == AutoEffect(Some(req), [AutoLog(o.gatewayId, uuid(2), now, Shipments.Accepted(route.resp))], route.logs, route.session)
  {
  }

  method HandlePaymentFailed(files: DataFiles, p: Payment, now: int, uuid: nat -> string)
    modifies files
    ensures var out := PaymentFailed(old(files.orders), p, now, uuid);
      files.orders == out.orders && files.paymentLogs == old(files.paymentLogs) + out.logs
    ensures files.shipmentLogs == old(files.shipmentLogs) && files.orderLogs == old(files.orderLogs)
  {
    var _ := UpdateOrderStatus(files, p.orderId, Failed, now, Some(p));
    LogWebhook(files, uuid(0), now, "PAYMENT_FAILED",
               NoData.(paymentId := Some(p.id), orderId := Some(p.orderId), error := p.errorDescription));
  }

  method HandleOrderPaid(files: DataFiles, g: GatewayOrderEntity, now: int, uuid: nat -> string)
    modifies files
    ensures var out := OrderPaid(old(files.orders), g, now, uuid);
      files.orders == out.orders && files.paymentLogs == old(files.paymentLogs) + out.logs
    ensures files.shipmentLogs == old(files.shipmentLogs) && files.orderLogs == old(files.orderLogs)
  {
    var _ := UpdateOrderStatus(files, g.id, Completed, now, None);
    LogWebhook(files, uuid(0), now, "ORDER_COMPLETED", NoData.(orderId := Some(g.id)));
  }
}
