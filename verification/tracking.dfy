/** `routes/tracking.js`: the read-only views over the order store and the activity logs. */
module Tracking {
  import opened Wrappers
  import opened Seqs
  import opened Store
  import Orders

  /** The `type` of a timeline entry. */
  datatype Source = OrderSource | PaymentSource | ShipmentSource

  datatype TimelineEntry = TimelineEntry(timestamp: int, status: string, source: Source)

  function Timestamp(e: TimelineEntry): int {
    e.timestamp
  }

  /** A log entry refers to an order when its `data.order_id` is the order's gateway or local id. */
  predicate Concerns(log: LogEntry, o: Order) {
    log.data.orderId == Some(o.gatewayId) || log.data.orderId == Some(o.id)
  }

  /** The entries of one log that refer to the order, in log order. */
  function ForOrder(logs: seq<LogEntry>, o: Order): (r: seq<LogEntry>)
    ensures forall i :: 0 <= i < |r| ==> Concerns(r[i], o) && r[i] in logs
    ensures forall i :: 0 <= i < |logs| && Concerns(logs[i], o) ==> logs[i] in r
    ensures multiset(r) <= multiset(logs)
  {
    Filter(logs, (l: LogEntry) => Concerns(l, o))
  }

  /** The timeline status of a payment-log type, or `None` for a type the timeline skips. */
  function PaymentStatus(kind: string): (r: Option<string>)
    ensures r.Some? <==> kind in {"PAYMENT_CAPTURED", "PAYMENT_FAILED", "ORDER_COMPLETED"}
  {
    if kind == "PAYMENT_CAPTURED" then Some("Payment Successful")
    else if kind == "PAYMENT_FAILED" then Some("Payment Failed")
    else if kind == "ORDER_COMPLETED" then Some("Order Completed")
    else None
  }

  /** The timeline status of a shipment-log type, or `None` for a type the timeline skips. */
  function ShipmentStatus(kind: string): (r: Option<string>)
    ensures r.Some? <==> kind in {"DIGITAL_DELIVERY", "SHIPMENT_CREATED", "SHIPMENT_AUTO_CREATED", "SHIPMENT_ERROR"}
  {
    if kind == "DIGITAL_DELIVERY" then Some("Digital Delivery")
    else if kind == "SHIPMENT_CREATED" then Some("Shipment Created")
    else if kind == "SHIPMENT_AUTO_CREATED" then Some("Auto Shipment")
    else if kind == "SHIPMENT_ERROR" then Some("Shipment Error")
    else None
  }

  /** The status a log entry of the given source contributes to the timeline. */
  function StatusOf(source: Source, kind: string): Option<string> {
    match source
    case OrderSource => None
    case PaymentSource => PaymentStatus(kind)
    case ShipmentSource => ShipmentStatus(kind)
  }

  /** The log entries whose type has a timeline status, in log order. */
  function Recognised(logs: seq<LogEntry>, source: Source): (r: seq<LogEntry>)
    ensures |r| <= |logs|
    ensures forall i :: 0 <= i < |r| ==> StatusOf(source, r[i].kind).Some? && r[i] in logs
    ensures forall i :: 0 <= i < |logs| && StatusOf(source, logs[i].kind).Some? ==> logs[i] in r
  {
    if logs == [] then []
    else
      var last := logs[|logs| - 1];
      var init := logs[..|logs| - 1];
      assert logs == init + [last];
      Recognised(init, source) + (if StatusOf(source, last.kind).Some? then [last] else [])
  }

  /** One log entry is kept exactly when its type has a timeline status. */
  lemma RecognisedSingle(x: LogEntry, source: Source)
    ensures Recognised([x], source) == if StatusOf(source, x.kind).Some? then [x] else []
  {
    assert [x][..0] == [];
  }

  /** The entries kept are exactly those `filter` keeps with the recognised-type test. */
  lemma {:induction false} RecognisedIsFilter(logs: seq<LogEntry>, source: Source)
    ensures Recognised(logs, source) == Filter(logs, (l: LogEntry) => StatusOf(source, l.kind).Some?)
  {
    var p := (l: LogEntry) => StatusOf(source, l.kind).Some?;
    if logs != [] {
      var init := logs[..|logs| - 1];
      var last := logs[|logs| - 1];
      assert logs == init + [last];
      RecognisedIsFilter(init, source);
      FilterAppend(init, [last], p);
      FilterSingle(last, p);
    }
  }

  /** Recognising distributes over concatenation, so it keeps the log's order and multiplicity. */
  lemma RecognisedAppend(a: seq<LogEntry>, b: seq<LogEntry>, source: Source)
    ensures Recognised(a + b, source) == Recognised(a, source) + Recognised(b, source)
  {
    var p := (l: LogEntry) => StatusOf(source, l.kind).Some?;
    RecognisedIsFilter(a + b, source);
    RecognisedIsFilter(a, source);
    RecognisedIsFilter(b, source);
    FilterAppend(a, b, p);
  }

  function EntryFor(log: LogEntry, source: Source): TimelineEntry
    requires StatusOf(source, log.kind).Some?
  {
    TimelineEntry(log.timestamp, StatusOf(source, log.kind).value, source)
  }

  /** One timeline entry per recognised log entry, built from it; unknown types are skipped. */
  function Entries(logs: seq<LogEntry>, source: Source): (r: seq<TimelineEntry>)
    ensures |r| == |Recognised(logs, source)|
    ensures forall i :: 0 <= i < |r| ==> r[i] == EntryFor(Recognised(logs, source)[i], source)
  {
    if logs == [] then []
    else
      var last := logs[|logs| - 1];
      var init := logs[..|logs| - 1];
      Entries(init, source) + (if StatusOf(source, last.kind).Some? then [EntryFor(last, source)] else [])
  }

  /** The "Order Created" entry that opens every timeline. */
  function Opening(o: Order): TimelineEntry {
    TimelineEntry(o.createdAt, "Order Created", OrderSource)
  }

  /** The timeline before sorting: the opening entry, then the payment entries, then the shipment ones. */
  function Timeline(o: Order, paymentLogs: seq<LogEntry>, shipmentLogs: seq<LogEntry>): (t: seq<TimelineEntry>)
    ensures |t| == 1 + |Recognised(paymentLogs, PaymentSource)| + |Recognised(shipmentLogs, ShipmentSource)|
    ensures t[0] == Opening(o)
    ensures forall i :: 1 <= i < |t| ==> t[i].source != OrderSource
  {
    [Opening(o)] + Entries(paymentLogs, PaymentSource) + Entries(shipmentLogs, ShipmentSource)
  }

  /** The last index holding a log entry of the given type. */
  function LastIndexOfKind(logs: seq<LogEntry>, kind: string): (r: Option<nat>)
    ensures r.Some? ==> r.value < |logs| && logs[r.value].kind == kind
    ensures r.Some? ==> forall j :: r.value < j < |logs| ==> logs[j].kind != kind
    ensures r.None? ==> forall j :: 0 <= j < |logs| ==> logs[j].kind != kind
  {
    if logs == [] then None
    else if logs[|logs| - 1].kind == kind then Some(|logs| - 1)
    else LastIndexOfKind(logs[..|logs| - 1], kind)
  }

  /** The AWB code and courier name of the last `SHIPMENT_CREATED` entry, if there is one. */
  function LastShipment(logs: seq<LogEntry>): (r: (Option<string>, Option<string>))
    ensures (forall j :: 0 <= j < |logs| ==> logs[j].kind != "SHIPMENT_CREATED") ==> r == (None, None)
    ensures forall k :: 0 <= k < |logs| && logs[k].kind == "SHIPMENT_CREATED" &&
                        (forall j :: k < j < |logs| ==> logs[j].kind != "SHIPMENT_CREATED") ==>
                        r == (logs[k].data.awbCode, logs[k].data.courierName)
  {
    match LastIndexOfKind(logs, "SHIPMENT_CREATED")
    case None => (None, None)
    case Some(k) => (logs[k].data.awbCode, logs[k].data.courierName)
  }

  /** The first `forEach` of the handler: one entry pushed per payment log with a known type. */
  method PaymentEvents(logs: seq<LogEntry>) returns (entries: seq<TimelineEntry>)
    ensures entries == Entries(logs, PaymentSource)
  {
    entries := [];
    for i := 0 to |logs|
      invariant entries == Entries(logs[..i], PaymentSource)
    {
      assert logs[..i + 1][..i] == logs[..i];
      var status := PaymentStatus(logs[i].kind);
      if status.Some? {
        entries := entries + [TimelineEntry(logs[i].timestamp, status.value, PaymentSource)];
      }
    }
    assert logs[..|logs|] == logs;
  }

  /** The second `forEach`: one entry per shipment log with a known type, and the AWB code and
      courier name overwritten at each `SHIPMENT_CREATED` entry. */
  method ShipmentEvents(logs: seq<LogEntry>) returns (entries: seq<TimelineEntry>, awbCode: Option<string>, courierName: Option<string>)
    ensures entries == Entries(logs, ShipmentSource)
    ensures (awbCode, courierName) == LastShipment(logs)
  {
    entries, awbCode, courierName := [], None, None;
    for i := 0 to |logs|
      invariant entries == Entries(logs[..i], ShipmentSource)
      invariant (awbCode, courierName) == LastShipment(logs[..i])
    {
      assert logs[..i + 1][..i] == logs[..i];
      var log := logs[i];
      var status := ShipmentStatus(log.kind);
      if log.kind == "SHIPMENT_CREATED" {
        awbCode := log.data.awbCode;
        courierName := log.data.courierName;
      }
      if status.Some? {
        entries := entries + [TimelineEntry(log.timestamp, status.value, ShipmentSource)];
      }
    }
    assert logs[..|logs|] == logs;
  }

  /** The unsorted timeline of the handler and the shipment details it picks up on the way. */
  method BuildTimeline(o: Order, paymentLogs: seq<LogEntry>, shipmentLogs: seq<LogEntry>)
    returns (timeline: seq<TimelineEntry>, awbCode: Option<string>, courierName: Option<string>)
    ensures timeline == Timeline(o, paymentLogs, shipmentLogs)
    ensures |timeline| == 1 + |Recognised(paymentLogs, PaymentSource)| + |Recognised(shipmentLogs, ShipmentSource)|
    ensures timeline[0] == Opening(o)
    ensures (awbCode, courierName) == LastShipment(shipmentLogs)
  {
    var payments := PaymentEvents(paymentLogs);
    var shipments;
    shipments, awbCode, courierName := ShipmentEvents(shipmentLogs);
    timeline := [Opening(o)] + payments + shipments;
  }

  /** The `tracking` object of a found order. */
  datatype TrackingInfo = TrackingInfo(order: Order, timeline: seq<TimelineEntry>,
                                       awbCode: Option<string>, courierName: Option<string>)

  datatype TrackResponse = OrderTracked(info: TrackingInfo) | OrderNotFound

  /** `GET /api/tracking/order/:orderId`: the order's logs, turned into a timeline that is a
      permutation of the built entries sorted by timestamp, oldest first. */
  method TrackOrder(files: DataFiles, key: string) returns (r: TrackResponse)
    ensures Orders.FindOrder(files.orders, key).None? <==> r == OrderNotFound
    ensures r.OrderTracked? ==>
      var o := r.info.order;
      var payments := ForOrder(files.paymentLogs, o);
      var shipments := ForOrder(files.shipmentLogs, o);
      && Orders.FindOrder(files.orders, key) == Some(o)
      && SortedBy(r.info.timeline, Timestamp, false)
      && multiset(r.info.timeline) == multiset(Timeline(o, payments, shipments))
      && |r.info.timeline| == 1 + |Recognised(payments, PaymentSource)| + |Recognised(shipments, ShipmentSource)|
      && Opening(o) in r.info.timeline
      && (r.info.awbCode, r.info.courierName) == LastShipment(shipments)
  {
    var found := Orders.FindOrder(files.orders, key);
    if found.None? {
      return OrderNotFound;
    }
    var o := found.value;
    var payments := ForOrder(files.paymentLogs, o);
    var shipments := ForOrder(files.shipmentLogs, o);
    var timeline, awbCode, courierName := BuildTimeline(o, payments, shipments);
    var sorted := SortBy(timeline, Timestamp, false);
    assert Opening(o) in multiset(timeline);
    r := OrderTracked(TrackingInfo(o, sorted, awbCode, courierName));
  }

  datatype AwbResponse = AwbFound(awb: string, logs: seq<LogEntry>) | AwbNotFound

  /** `GET /api/tracking/shipment/:awb`: the shipment-log entries carrying that AWB, or a 404 when
      there are none. */
  function TrackShipment(shipmentLogs: seq<LogEntry>, awb: string): (r: AwbResponse)
    ensures r.AwbNotFound? <==> forall i :: 0 <= i < |shipmentLogs| ==> shipmentLogs[i].data.awbCode != Some(awb)
    ensures r.AwbFound? ==> r.awb == awb && |r.logs| > 0
    ensures r.AwbFound? ==> forall i :: 0 <= i < |r.logs| ==> r.logs[i].data.awbCode == Some(awb) && r.logs[i] in shipmentLogs
    ensures r.AwbFound? ==> forall i :: 0 <= i < |shipmentLogs| && shipmentLogs[i].data.awbCode == Some(awb) ==> shipmentLogs[i] in r.logs
  {
    var logs := Filter(shipmentLogs, (l: LogEntry) => l.data.awbCode == Some(awb));
    if |logs| == 0 then AwbNotFound else AwbFound(awb, logs)
  }

  /** An entry without the AWB code, wherever it sits in the log, does not change the lookup. */
  lemma TrackShipmentSkips(a: seq<LogEntry>, x: LogEntry, b: seq<LogEntry>, awb: string)
    requires x.data.awbCode != Some(awb)
    ensures TrackShipment(a + [x] + b, awb) == TrackShipment(a + b, awb)
  {
    FilterSkips(a, x, b, (l: LogEntry) => l.data.awbCode == Some(awb));
  }

  /** The number of orders with the given status. */
  function CountStatus(orders: seq<Order>, s: Status): (n: nat)
    ensures n <= |orders|
  {
    if orders == [] then 0
    else (if orders[0].status == s then 1 else 0) + CountStatus(orders[1..], s)
  }

  /** The number of orders with the given package type. */
  function CountPackage(orders: seq<Order>, packageType: string): (n: nat)
    ensures n <= |orders|
  {
    if orders == [] then 0
    else (if orders[0].packageType == Some(packageType) then 1 else 0) + CountPackage(orders[1..], packageType)
  }

  /** An order whose amount counts as revenue. */
  predicate Earning(o: Order) {
    o.status == Paid || o.status == Completed
  }

  /** What one order adds to the revenue. */
  function Earned(o: Order): int {
    if Earning(o) then o.amount else 0
  }

  /** The sum of `amount` over the paid and completed orders. */
  function Revenue(orders: seq<Order>): (r: int)
    ensures (forall i :: 0 <= i < |orders| ==> !Earning(orders[i])) ==> r == 0
    ensures (forall i :: 0 <= i < |orders| ==> orders[i].amount >= 0) ==> r >= 0
  {
    if orders == [] then 0
    else Earned(orders[0]) + Revenue(orders[1..])
  }

  /** Replacing one order changes the revenue by the difference of the two contributions. */
  lemma {:induction false} RevenueReplace(orders: seq<Order>, i: nat, o: Order)
    requires i < |orders|
    ensures Revenue(orders[i := o]) == Revenue(orders) - Earned(orders[i]) + Earned(o)
  {
    if i == 0 {
      assert orders[i := o][1..] == orders[1..];
    } else {
      assert orders[i := o][1..] == orders[1..][i - 1 := o];
      RevenueReplace(orders[1..], i - 1, o);
    }
  }

  /** The four status counts partition the orders. */
  lemma {:induction false} StatusCountsPartition(orders: seq<Order>)
    ensures CountStatus(orders, Created) + CountStatus(orders, Paid) + CountStatus(orders, Completed)
          + CountStatus(orders, Failed) == |orders|
  {
    if orders != [] {
      StatusCountsPartition(orders[1..]);
    }
  }

  /** No order is both `pdf` and `print`. */
  lemma {:induction false} PackageCountsBounded(orders: seq<Order>)
    ensures CountPackage(orders, "pdf") + CountPackage(orders, "print") <= |orders|
  {
    if orders != [] {
      PackageCountsBounded(orders[1..]);
    }
  }

  /** Revenue over a concatenation is the sum of the revenues. */
  lemma {:induction false} RevenueAppend(a: seq<Order>, b: seq<Order>)
    ensures Revenue(a + b) == Revenue(a) + Revenue(b)
  {
    if a == [] {
      assert a + b == b;
    } else {
      assert (a + b)[0] == a[0];
      assert (a + b)[1..] == a[1..] + b;
      RevenueAppend(a[1..], b);
    }
  }

  /** Orders of at least one rupee give a revenue of at least the number of earning orders. */
  lemma {:induction false} RevenueAtLeastEarningCount(orders: seq<Order>)
    requires forall i :: 0 <= i < |orders| ==> orders[i].amount >= 1
    ensures Revenue(orders) >= CountStatus(orders, Paid) + CountStatus(orders, Completed)
  {
    if orders != [] {
      RevenueAtLeastEarningCount(orders[1..]);
    }
  }

  function CreatedAt(o: Order): int {
    o.createdAt
  }

  function LogTime(l: LogEntry): int {
    l.timestamp
  }

  /** The entries of one kind, in log order. */
  function OfKind(logs: seq<LogEntry>, kind: string): seq<LogEntry> {
    Filter(logs, (l: LogEntry) => l.kind == kind)
  }

  /** What `MostRecent` promises about the entries of one kind carries over to the whole log. */
  lemma NewestOfKind(logs: seq<LogEntry>, kind: string, r: seq<LogEntry>)
    requires r == MostRecent(OfKind(logs, kind), LogTime, 10)
    ensures forall i :: 0 <= i < |r| ==> r[i].kind == kind && r[i] in logs
    ensures forall i, j :: 0 <= i < |logs| && logs[i].kind == kind && logs[i] !in r && 0 <= j < |r| ==>
      LogTime(logs[i]) <= LogTime(r[j])
  {
    var matching := OfKind(logs, kind);
    forall i | 0 <= i < |r|
      ensures r[i].kind == kind && r[i] in logs
    {
      var m :| 0 <= m < |matching| && matching[m] == r[i];
    }
    forall i, j | 0 <= i < |logs| && logs[i].kind == kind && logs[i] !in r && 0 <= j < |r|
      ensures LogTime(logs[i]) <= LogTime(r[j])
    {
      var m :| 0 <= m < |matching| && matching[m] == logs[i];
    }
  }

  /** `filter(type === kind).sort(newest first).slice(0, 10)` over one log. */
  function RecentOfKind(logs: seq<LogEntry>, kind: string): (r: seq<LogEntry>)
    ensures |r| == if |OfKind(logs, kind)| <= 10 then |OfKind(logs, kind)| else 10
    ensures multiset(r) <= multiset(OfKind(logs, kind))
    ensures SortedBy(r, LogTime, true)
    ensures forall i :: 0 <= i < |r| ==> r[i].kind == kind && r[i] in logs
    ensures forall i, j :: 0 <= i < |logs| && logs[i].kind == kind && logs[i] !in r && 0 <= j < |r| ==>
      LogTime(logs[i]) <= LogTime(r[j])
  {
    var r := MostRecent(OfKind(logs, kind), LogTime, 10);
    NewestOfKind(logs, kind, r);
    r
  }

  datatype Summary = Summary(
    totalOrders: nat,
    created: nat,
    paid: nat,
    completed: nat,
    failed: nat,
    pdfOrders: nat,
    printOrders: nat,
    totalRevenue: int,
    recentOrders: seq<Order>,
    recentPayments: seq<LogEntry>,
    recentShipments: seq<LogEntry>)

  /** `GET /api/tracking/summary`: counts that partition the orders, revenue over paid and
      completed orders, and the ten newest orders, captures and created shipments, newest first. */
  function Summarize(orders: seq<Order>, paymentLogs: seq<LogEntry>, shipmentLogs: seq<LogEntry>): (s: Summary)
    ensures s.totalOrders == |orders|
    ensures s.created == CountStatus(orders, Created) && s.paid == CountStatus(orders, Paid)
    ensures s.completed == CountStatus(orders, Completed) && s.failed == CountStatus(orders, Failed)
    ensures s.created + s.paid + s.completed + s.failed == s.totalOrders
    ensures s.pdfOrders == CountPackage(orders, "pdf") && s.printOrders == CountPackage(orders, "print")
    ensures s.pdfOrders + s.printOrders <= s.totalOrders
    ensures s.totalRevenue == Revenue(orders)
    ensures |s.recentOrders| == if |orders| <= 10 then |orders| else 10
    ensures SortedBy(s.recentOrders, CreatedAt, true)
    ensures multiset(s.recentOrders) <= multiset(orders)
    ensures forall i, j :: 0 <= i < |orders| && orders[i] !in s.recentOrders && 0 <= j < |s.recentOrders| ==>
      orders[i].createdAt <= s.recentOrders[j].createdAt
    ensures s.recentPayments == RecentOfKind(paymentLogs, "PAYMENT_CAPTURED")
    ensures s.recentShipments == RecentOfKind(shipmentLogs, "SHIPMENT_CREATED")
  {
    StatusCountsPartition(orders);
    PackageCountsBounded(orders);
    Summary(
      |orders|,
      CountStatus(orders, Created), CountStatus(orders, Paid),
      CountStatus(orders, Completed), CountStatus(orders, Failed),
      CountPackage(orders, "pdf"), CountPackage(orders, "print"),
      Revenue(orders),
      MostRecent(orders, CreatedAt, 10),
      RecentOfKind(paymentLogs, "PAYMENT_CAPTURED"),
      RecentOfKind(shipmentLogs, "SHIPMENT_CREATED"))
  }
}
