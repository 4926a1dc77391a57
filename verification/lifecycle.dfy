/** Properties that span several routes: how an order's revenue, shipment request and
    timeline follow from what the order, webhook and shipment handlers write. */
module Lifecycle {
  import opened Wrappers
  import opened Store
  import Orders
  import Shipments
  import opened Webhooks
  import opened Tracking

  /** What an order with the given status adds to the revenue. */
  function EarnedAs(o: Order, status: Status): int {
    if status == Paid || status == Completed then o.amount else 0
  }

  /** `updateOrderStatus` moves the revenue by the difference between the matched order's old
      and new contribution, and leaves it alone when nothing matches. */
  lemma {:induction false} StatusUpdateRevenue(orders: seq<Order>, gatewayId: string, status: Status, now: int,
                            paymentData: Option<Payment>)
    ensures var u := StatusUpdate(orders, gatewayId, status, now, paymentData);
      match IndexOfGatewayId(orders, gatewayId)
      case None => Revenue(u.orders) == Revenue(orders)
      case Some(i) => Revenue(u.orders) == Revenue(orders) - Earned(orders[i]) + EarnedAs(orders[i], status)
  {
    var u := StatusUpdate(orders, gatewayId, status, now, paymentData);
    match IndexOfGatewayId(orders, gatewayId)
    case None =>
    case Some(i) =>
      var patched := Patch(orders[i], status, now, paymentData);
      assert u.orders == orders[i := patched];
      assert patched.amount == orders[i].amount;
      RevenueReplace(orders, i, patched);
  }

  /** The first capture of an unpaid order adds its amount to the revenue; a redelivered capture
      of an order already paid or completed adds nothing; an unknown order changes nothing. */
  lemma {:induction false} CaptureRevenue(orders: seq<Order>, session: (string, int), p: Payment, now: int,
                                          uuid: nat -> string, carrier: CarrierAnswers)
    ensures var out := Captured(orders, session, p, now, uuid, carrier);
      match IndexOfGatewayId(orders, p.orderId)
      case None => Revenue(out.orders) == Revenue(orders)
      case Some(i) => Revenue(out.orders) == Revenue(orders) + (if Earning(orders[i]) then 0 else orders[i].amount)
  {
    StatusUpdateRevenue(orders, p.orderId, Paid, now, Some(p));
  }

  /** A `payment.failed` that arrives after the order was paid takes its amount back out of the
      revenue: the handler overwrites the status whatever it was. */
  lemma {:induction false} LateFailureRevenue(orders: seq<Order>, p: Payment, now: int, uuid: nat -> string)
    ensures var out := PaymentFailed(orders, p, now, uuid);
      match IndexOfGatewayId(orders, p.orderId)
      case None => Revenue(out.orders) == Revenue(orders)
      case Some(i) => Revenue(out.orders) == Revenue(orders) - Earned(orders[i])
  {
    StatusUpdateRevenue(orders, p.orderId, Failed, now, Some(p));
  }

  /** A freshly created order is `created`, so saving it leaves the revenue as it was. */
  lemma {:induction false} NewOrderEarnsNothing(orders: seq<Order>, req: Orders.CreateRequest, reply: Orders.GatewayReply,
                             id: string, receipt: string, now: int)
    requires Orders.Validate(req).None? && reply.GatewayOrder?
    ensures Revenue(orders + [Orders.LocalOrder(req, reply, id, receipt, now)]) == Revenue(orders)
  {
    var o := Orders.LocalOrder(req, reply, id, receipt, now);
    RevenueAppend(orders, [o]);
    assert [o][1..] == [];
  }

  /** The request the webhook posts for a `print` order passes the shipment route's required-field
      check exactly when the order has a gateway id, a customer name and an address. */
  lemma AutoShipmentPassesValidation(o: Order)
    requires o.packageType == Some("print")
    ensures Shipments.HasRequiredFields(AutoShipment(o).value) <==>
      o.gatewayId != "" && o.customer.name != "" && Truthy(o.customer.address)
  {
  }

  /** An order created through the order route with a `print` package and an address yields an
      automatic shipment request the shipment route accepts, as long as the gateway id is not empty. */
  lemma CreatedPrintOrderShips(req: Orders.CreateRequest, reply: Orders.GatewayReply, id: string,
                               receipt: string, now: int)
    requires Orders.Validate(req).None? && reply.GatewayOrder? && reply.id != ""
    requires req.packageType == Some("print") && Truthy(req.address)
    ensures var o := Orders.LocalOrder(req, reply, id, receipt, now);
      AutoShipment(o).Some? && Shipments.HasRequiredFields(AutoShipment(o).value)
  {
    AutoShipmentPassesValidation(Orders.LocalOrder(req, reply, id, receipt, now));
  }

  /** A `SHIPMENT_ERROR` entry carries no `order_id`, so no order's timeline ever shows it. */
  lemma ShipmentErrorNotOnTimeline(o: Order, id: string, now: int, message: string)
    ensures !Concerns(LogEntry(id, now, "SHIPMENT_ERROR", Shipments.ErrorData(message)), o)
  {
  }

  /** A `TRACKING_REQUESTED` entry stores its AWB under `awb`, not `awb_code`, so wherever it
      sits in the shipment log the AWB lookup of the tracking routes passes over it. */
  lemma TrackingEntryNeverFound(id: string, now: int, awb: string, query: string,
                                before: seq<LogEntry>, after: seq<LogEntry>)
    ensures var x := LogEntry(id, now, "TRACKING_REQUESTED", Shipments.TrackingData(awb));
      && TrackShipment(before + [x] + after, query) == TrackShipment(before + after, query)
      && TrackShipment([x], query) == AwbNotFound
  {
    var x := LogEntry(id, now, "TRACKING_REQUESTED", Shipments.TrackingData(awb));
    TrackShipmentSkips(before, x, after, query);
  }

  /** Nor does it concern an order or carry a timeline status, so no timeline shows it. */
  lemma TrackingEntryInvisible(o: Order, id: string, now: int, awb: string)
    ensures var x := LogEntry(id, now, "TRACKING_REQUESTED", Shipments.TrackingData(awb));
      && !Concerns(x, o)
      && StatusOf(ShipmentSource, x.kind).None?
  {
  }

  /** The webhook writes its `SHIPMENT_AUTO_*` entries to the payment log, where the timeline
      does not recognise them: "Auto Shipment" only comes from the shipment log. */
  lemma AutoShipmentLogNotOnTimeline(orderId: string, id: string, now: int, accepted: bool)
    ensures StatusOf(PaymentSource, AutoLog(orderId, id, now, accepted).kind).None?
    ensures accepted ==> StatusOf(ShipmentSource, AutoLog(orderId, id, now, accepted).kind) == Some("Auto Shipment")
  {
  }

  /** When every `SHIPMENT_CREATED` entry was written by the shipment route, which records no
      courier name, the tracked courier name is always absent. */
  lemma CourierNameNeverTracked(logs: seq<LogEntry>)
    requires forall i :: 0 <= i < |logs| && logs[i].kind == "SHIPMENT_CREATED" ==> logs[i].data.courierName.None?
    ensures LastShipment(logs).1.None?
  {
  }

  /** A log that holds only the given entry keeps it for an order it concerns. */
  lemma {:induction false} ForOrderSingle(x: LogEntry, o: Order)
    requires Concerns(x, o)
    ensures ForOrder([x], o) == [x]
  {
    var r := ForOrder([x], o);
    assert x in r;
  }

  /** The timeline of an order whose only logged event is its capture: "Order Created", then
      "Payment Successful" at the capture time. */
  lemma {:induction false} CapturedOrderTimeline(o: Order, p: Payment, id: string, t: int)
    requires p.orderId == o.gatewayId
    ensures Timeline(o, ForOrder([CaptureLog(p, id, t)], o), ForOrder([], o))
         == [Opening(o), TimelineEntry(t, "Payment Successful", PaymentSource)]
  {
    var x := CaptureLog(p, id, t);
    ForOrderSingle(x, o);
    assert [x][..0] == [];
    assert Entries([x], PaymentSource) == [EntryFor(x, PaymentSource)];
  }
}
