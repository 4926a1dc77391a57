/** `routes/shipments.js`: the carrier session with its cached token, the carrier request
    built by `createOrder`, and the shipment and serviceability handlers. */
module Shipments {
  import opened Wrappers
  import opened Store

  /** 24 hours in milliseconds. */
  const TokenLifetime: int := 24 * 60 * 60 * 1000
  const AuthFailedMessage := "Shiprocket authentication failed"

  /** The answer of `POST /auth/login`: the token it carries, or a failure. */
  datatype LoginReply = LoginOk(token: string) | LoginRejected

  /** An answer of the carrier to a request made with valid headers. */
  datatype CarrierReply<T> = CarrierOk(data: T) | CarrierError(message: string)

  datatype Headers = Headers(contentType: string, authorization: string)

  function BearerHeaders(token: string): Headers {
    Headers("application/json", "Bearer " + token)
  }

  /** `!this.token || Date.now() > this.tokenExpiry`; a null token is `""`, a null expiry `0`. */
  predicate Stale(token: string, expiry: int, now: int) {
    token == "" || now > expiry
  }

  /** The session fields after `getAuthHeaders` at `now`, when a login would answer `login`. */
  function Refreshed(token: string, expiry: int, now: int, login: LoginReply): (s: (string, int))
    ensures !Stale(token, expiry, now) ==> s == (token, expiry)
    ensures Stale(token, expiry, now) && login.LoginOk? ==> s == (login.token, now + TokenLifetime)
    ensures Stale(token, expiry, now) && login.LoginRejected? ==> s == (token, expiry)
  {
    if Stale(token, expiry, now) && login.LoginOk? then (login.token, now + TokenLifetime) else (token, expiry)
  }

  /** Whether `getAuthHeaders` yields headers: the token was fresh or a login succeeded. */
  predicate Authorized(token: string, expiry: int, now: int, login: LoginReply) {
    !Stale(token, expiry, now) || login.LoginOk?
  }

  /** After a login at `t` that returns a non-empty token, later calls up to and including
      `t + 24h` keep that token without logging in, and the first call after it logs in again. */
  lemma TokenCachedForADay(token: string, expiry: int, t: int, newToken: string, later: int, login: LoginReply)
    requires Stale(token, expiry, t) && newToken != ""
    ensures var after := Refreshed(token, expiry, t, LoginOk(newToken));
      && after == (newToken, t + TokenLifetime)
      && (Stale(after.0, after.1, later) <==> later > t + 86400000)
      && (later <= t + 86400000 ==> Refreshed(after.0, after.1, later, login) == after)
      && (later > t + 86400000 && login.LoginOk? ==>
            Refreshed(after.0, after.1, later, login) == (login.token, later + 86400000))
  {
  }

  /** An item of the `order_items` list. */
  datatype Item = Item(name: string, sku: string, units: int, sellingPrice: Option<int>,
                       discount: int, tax: int, hsn: int)

  function PdfItems(amount: Option<int>): seq<Item> {
    [Item("Jeevan Margadarshana - PDF Report", "JM_PDF_001", 1, amount, 0, 0, 998314)]
  }

  function PrintItems(amount: Option<int>): seq<Item> {
    [Item("Jeevan Margadarshana - Printed Book", "JM_BOOK_001", 1, amount, 0, 0, 490110)]
  }

  /** `packageItems[package_type] || packageItems['print']`: any type but `pdf` gets the book. */
  function ItemsFor(packageType: Option<string>, amount: Option<int>): (items: seq<Item>)
    ensures packageType != Some("pdf") ==> items == PrintItems(amount)
    ensures |items| == 1 && items[0].units == 1 && items[0].sellingPrice == amount
  {
    if packageType == Some("pdf") then PdfItems(amount) else PrintItems(amount)
  }

  /** The `orderData` argument of `createOrder`. */
  datatype OrderData = OrderData(
    orderId: Option<string>,
    orderDate: string,
    customerName: Option<string>,
    address: Option<string>,
    city: Option<string>,
    pincode: Option<string>,
    state: Option<string>,
    email: Option<string>,
    phone: Option<string>,
    items: seq<Item>,
    subTotal: Option<int>,
    length: Option<int>,
    breadth: Option<int>,
    height: Option<int>)

  /** The body `createOrder` posts to `/orders/create/adhoc`. */
  datatype CarrierPayload = CarrierPayload(
    orderId: Option<string>,
    orderDate: string,
    pickupLocation: string,
    billingCustomerName: Option<string>,
    billingLastName: string,
    billingAddress: Option<string>,
    billingCity: Option<string>,
    billingPincode: Option<string>,
    billingState: Option<string>,
    billingCountry: string,
    billingEmail: Option<string>,
    billingPhone: Option<string>,
    shippingIsBilling: bool,
    orderItems: seq<Item>,
    paymentMethod: string,
    subTotal: Option<int>,
    length: int,
    breadth: int,
    height: int)

  /** `x || fallback` for an optional number: absent and zero are falsy. */
  function OrNumber(x: Option<int>, fallback: int): int {
    if x.Some? && x.value != 0 then x.value else fallback
  }

  /** The carrier body: fixed pickup location, country, payment method and billing-as-shipping,
      dimensions 10 x 10 x 5 unless given, everything else copied from the order data. */
  function Payload(d: OrderData): (p: CarrierPayload)
    ensures p.pickupLocation == "work" && p.billingCountry == "India" && p.paymentMethod == "Prepaid"
    ensures p.shippingIsBilling && p.billingLastName == ""
    ensures (d.length.None? || d.length == Some(0)) ==> p.length == 10
    ensures (d.breadth.None? || d.breadth == Some(0)) ==> p.breadth == 10
    ensures (d.height.None? || d.height == Some(0)) ==> p.height == 5
    ensures d.length.Some? && d.length.value != 0 ==> p.length == d.length.value
    ensures d.breadth.Some? && d.breadth.value != 0 ==> p.breadth == d.breadth.value
    ensures d.height.Some? && d.height.value != 0 ==> p.height == d.height.value
    ensures p.orderId == d.orderId && p.billingCustomerName == d.customerName && p.orderItems == d.items
    ensures p.billingAddress == d.address && p.billingPincode == d.pincode && p.subTotal == d.subTotal
    ensures p.orderDate == d.orderDate && p.billingCity == d.city && p.billingState == d.state
    ensures p.billingEmail == d.email && p.billingPhone == d.phone
  {
    CarrierPayload(
      d.orderId, d.orderDate, "work", d.customerName, "", d.address, d.city, d.pincode, d.state,
      "India", d.email, d.phone, true, d.items, "Prepaid", d.subTotal,
      OrNumber(d.length, 10), OrNumber(d.breadth, 10), OrNumber(d.height, 5))
  }

  /** What the carrier returns for a created order. */
  datatype CarrierOrder = CarrierOrder(orderId: Option<string>, shipmentId: Option<string>,
                                       awbCode: Option<string>, courierName: Option<string>)

  /** The query of `getServiceability`. */
  datatype ServiceabilityQuery = ServiceabilityQuery(pickup: string, delivery: string)

  /** The `ShiprocketAPI` object: one token shared by every request of the process. */
  class ShiprocketSession {
    var token: string
    var tokenExpiry: int

    constructor ()
      ensures token == "" && tokenExpiry == 0
    {
      token := "";
      tokenExpiry := 0;
    }

    predicate NeedsLogin(now: int)
      reads this
    {
      Stale(token, tokenExpiry, now)
    }

    /** `authenticate`: stores the returned token and an expiry 24 hours from now, or throws
        and leaves the session as it was. */
    method Authenticate(now: int, login: LoginReply) returns (r: Result<string, string>)
      modifies this
      ensures login.LoginOk? ==>
        token == login.token && tokenExpiry == now + TokenLifetime && r == Success(login.token)
      ensures login.LoginRejected? ==>
        token == old(token) && tokenExpiry == old(tokenExpiry) && r == Failure(AuthFailedMessage)
    {
      match login {
        case LoginOk(t) =>
          token := t;
          tokenExpiry := now + TokenLifetime;
          r := Success(t);
        case LoginRejected =>
          r := Failure(AuthFailedMessage);
      }
    }

    /** `getAuthHeaders`: logs in exactly when the token is missing or expired, otherwise reuses
        the cached token; the header is `Bearer` followed by the token. */
    method GetAuthHeaders(now: int, login: LoginReply) returns (r: Result<Headers, string>, loggedIn: bool)
      modifies this
      ensures loggedIn == old(NeedsLogin(now))
      ensures (token, tokenExpiry) == Refreshed(old(token), old(tokenExpiry), now, login)
      ensures Authorized(old(token), old(tokenExpiry), now, login) ==> r == Success(BearerHeaders(token))
      ensures !Authorized(old(token), old(tokenExpiry), now, login) ==> r == Failure(AuthFailedMessage)
    {
      loggedIn := NeedsLogin(now);
      if loggedIn {
        var auth := Authenticate(now, login);
        if auth.Failure? {
          return Failure(auth.error), loggedIn;
        }
      }
      r := Success(BearerHeaders(token));
    }

    /** `createOrder`: the carrier request is sent only with valid headers; a carrier error,
        like a failed login, is thrown on to the caller. */
    method CreateOrder(d: OrderData, now: int, login: LoginReply, reply: CarrierReply<CarrierOrder>)
      returns (sent: Option<CarrierPayload>, r: Result<CarrierOrder, string>)
      modifies this
      ensures (token, tokenExpiry) == Refreshed(old(token), old(tokenExpiry), now, login)
      ensures sent.Some? <==> Authorized(old(token), old(tokenExpiry), now, login)
      ensures sent.Some? ==> sent.value == Payload(d)
      ensures sent.Some? && reply.CarrierOk? ==> r == Success(reply.data)
      ensures sent.Some? && reply.CarrierError? ==> r == Failure(reply.message)
      ensures sent.None? ==> r == Failure(AuthFailedMessage)
    {
      var headers, _ := GetAuthHeaders(now, login);
      if headers.Failure? {
        return None, Failure(headers.error);
      }
      sent := Some(Payload(d));
      match reply {
        case CarrierOk(data) => r := Success(data);
        case CarrierError(message) => r := Failure(message);
      }
    }

    /** `trackShipment`: like `createOrder`, one tracking query for the AWB number sent with
        valid headers; the carrier answers with the `track_status` it reports, if any. */
    method TrackShipment(awb: string, now: int, login: LoginReply, reply: CarrierReply<Option<string>>)
      returns (sent: Option<string>, r: Result<Option<string>, string>)
      modifies this
      ensures (token, tokenExpiry) == Refreshed(old(token), old(tokenExpiry), now, login)
      ensures sent.Some? <==> Authorized(old(token), old(tokenExpiry), now, login)
      ensures sent.Some? ==> sent.value == awb
      ensures sent.Some? && reply.CarrierOk? ==> r == Success(reply.data)
      ensures sent.Some? && reply.CarrierError? ==> r == Failure(reply.message)
      ensures sent.None? ==> r == Failure(AuthFailedMessage)
    {
      var headers, _ := GetAuthHeaders(now, login);
      if headers.Failure? {
        return None, Failure(headers.error);
      }
      sent := Some(awb);
      match reply {
        case CarrierOk(status) => r := Success(status);
        case CarrierError(message) => r := Failure(message);
      }
    }

    /** `getServiceability`: like `createOrder`, one carrier query sent with valid headers. */
    method GetServiceability(pickup: string, delivery: string, now: int, login: LoginReply,
                             reply: CarrierReply<seq<string>>)
      returns (sent: Option<ServiceabilityQuery>, r: Result<seq<string>, string>)
      modifies this
      ensures (token, tokenExpiry) == Refreshed(old(token), old(tokenExpiry), now, login)
      ensures sent.Some? <==> Authorized(old(token), old(tokenExpiry), now, login)
      ensures sent.Some? ==> sent.value == ServiceabilityQuery(pickup, delivery)
      ensures sent.Some? && reply.CarrierOk? ==> r == Success(reply.data)
      ensures sent.Some? && reply.CarrierError? ==> r == Failure(reply.message)
      ensures sent.None? ==> r == Failure(AuthFailedMessage)
    {
      var headers, _ := GetAuthHeaders(now, login);
      if headers.Failure? {
        return None, Failure(headers.error);
      }
      sent := Some(ServiceabilityQuery(pickup, delivery));
      match reply {
        case CarrierOk(data) => r := Success(data);
        case CarrierError(message) => r := Failure(message);
      }
    }
  }

  /** `logShipment(type, data)`: appends one entry to `data/shiprocket_logs.json`. */
  method LogShipment(files: DataFiles, id: string, now: int, kind: string, data: LogData)
    modifies files
    ensures files.shipmentLogs == old(files.shipmentLogs) + [LogEntry(id, now, kind, data)]
    ensures files.orders == old(files.orders)
    ensures files.paymentLogs == old(files.paymentLogs) && files.orderLogs == old(files.orderLogs)
  {
    files.shipmentLogs := files.shipmentLogs + [LogEntry(id, now, kind, data)];
  }

  /** The JSON body of `POST /api/shipments/create`. */
  datatype ShipmentRequest = ShipmentRequest(
    orderId: Option<string>,
    customerName: Option<string>,
    customerEmail: Option<string>,
    customerPhone: Option<string>,
    address: Option<string>,
    city: Option<string>,
    pincode: Option<string>,
    state: Option<string>,
    packageType: Option<string>,
    amount: Option<int>)

  /** The HTTP answer of the shipment handler. */
  datatype ShipmentResponse =
    | MissingFields
    | DigitalDelivery(orderId: string)
    | ShipmentCreated(data: CarrierOrder)
    | ShipmentFailed(details: string)

  /** `order_id`, `customer_name`, `address` and `pincode` must all be truthy. */
  predicate HasRequiredFields(req: ShipmentRequest) {
    Truthy(req.orderId) && Truthy(req.customerName) && Truthy(req.address) && Truthy(req.pincode)
  }

  /** The order data the handler passes to `createOrder` for a physical package: the book item
      unless the type is `pdf`, and a 25 x 20 x 3 parcel. */
  function ShipmentOrderData(req: ShipmentRequest, today: string): (d: OrderData)
    ensures d.orderId == req.orderId && d.customerName == req.customerName && d.pincode == req.pincode
    ensures d.address == req.address && d.city == req.city && d.state == req.state
    ensures d.email == req.customerEmail && d.phone == req.customerPhone && d.orderDate == today
    ensures d.items == ItemsFor(req.packageType, req.amount) && d.subTotal == req.amount
    ensures d.length == Some(25) && d.breadth == Some(20) && d.height == Some(3)
  {
    OrderData(req.orderId, today, req.customerName, req.address, req.city, req.pincode, req.state,
              req.customerEmail, req.customerPhone, ItemsFor(req.packageType, req.amount), req.amount,
              Some(25), Some(20), Some(3))
  }

  function DigitalData(req: ShipmentRequest): LogData {
    NoData.(orderId := req.orderId, customerName := req.customerName)
  }

  /** The `SHIPMENT_CREATED` entry's data: it records the AWB but not the courier's name. */
  function CreatedData(req: ShipmentRequest, c: CarrierOrder): (data: LogData)
    ensures data.orderId == req.orderId && data.awbCode == c.awbCode && data.courierName.None?
  {
    NoData.(orderId := req.orderId, shipmentId := c.shipmentId, awbCode := c.awbCode,
            customerName := req.customerName)
  }

  /** The `SHIPMENT_ERROR` entry's data: the error and the request body, but no `order_id`. */
  function ErrorData(message: string): (data: LogData)
    ensures data.orderId.None? && data.error == Some(message)
  {
    NoData.(error := Some(message))
  }

  /** What one call of `POST /api/shipments/create` does: the answer, the carrier request sent,
      the entries appended to `data/shiprocket_logs.json` and the session fields afterwards. */
  datatype RouteOutcome = RouteOutcome(resp: ShipmentResponse, sent: Option<CarrierPayload>,
                                       logs: seq<LogEntry>, session: (string, int))

  /** The 2xx answers of the shipment route; the other two are a 400 and a 500. */
  predicate Accepted(resp: ShipmentResponse) {
    resp.DigitalDelivery? || resp.ShipmentCreated?
  }

  /** `POST /api/shipments/create` on the session fields `(token, expiry)`: the required-field
      check comes first and touches nothing; a `pdf` package is logged as a digital delivery
      without a carrier call; any other package goes to the carrier, and the outcome is logged
      either way. */
  function ShipmentRoute(token: string, expiry: int, req: ShipmentRequest, today: string, now: int,
                         logId: string, login: LoginReply, reply: CarrierReply<CarrierOrder>): (o: RouteOutcome)
    ensures !HasRequiredFields(req) ==> o == RouteOutcome(MissingFields, None, [], (token, expiry))
    ensures HasRequiredFields(req) && req.packageType == Some("pdf") ==>
      o == RouteOutcome(DigitalDelivery(req.orderId.value), None,
                        [LogEntry(logId, now, "DIGITAL_DELIVERY", DigitalData(req))], (token, expiry))
    ensures HasRequiredFields(req) && req.packageType != Some("pdf") ==>
      && o.session == Refreshed(token, expiry, now, login)
      && (o.sent.Some? <==> Authorized(token, expiry, now, login))
      && (o.sent.Some? ==> o.sent.value == Payload(ShipmentOrderData(req, today)))
      && (o.sent.Some? && reply.CarrierOk? ==>
            o.resp == ShipmentCreated(reply.data)
            && o.logs == [LogEntry(logId, now, "SHIPMENT_CREATED", CreatedData(req, reply.data))])
      && (o.sent.Some? && reply.CarrierError? ==>
            o.resp == ShipmentFailed(reply.message)
            && o.logs == [LogEntry(logId, now, "SHIPMENT_ERROR", ErrorData(reply.message))])
      && (o.sent.None? ==>
            o.resp == ShipmentFailed(AuthFailedMessage)
            && o.logs == [LogEntry(logId, now, "SHIPMENT_ERROR", ErrorData(AuthFailedMessage))])
    ensures Accepted(o.resp) <==>
      HasRequiredFields(req) && (req.packageType == Some("pdf") || (Authorized(token, expiry, now, login) && reply.CarrierOk?))
    ensures |o.logs| == (if HasRequiredFields(req) then 1 else 0)
  {
    if !HasRequiredFields(req) then RouteOutcome(MissingFields, None, [], (token, expiry))
    else if req.packageType == Some("pdf") then
      RouteOutcome(DigitalDelivery(req.orderId.value), None,
                   [LogEntry(logId, now, "DIGITAL_DELIVERY", DigitalData(req))], (token, expiry))
    else
      var session := Refreshed(token, expiry, now, login);
      if !Authorized(token, expiry, now, login) then
        RouteOutcome(ShipmentFailed(AuthFailedMessage), None,
                     [LogEntry(logId, now, "SHIPMENT_ERROR", ErrorData(AuthFailedMessage))], session)
      else
        var payload := Payload(ShipmentOrderData(req, today));
        match reply
        case CarrierOk(data) =>
          RouteOutcome(ShipmentCreated(data), Some(payload),
                       [LogEntry(logId, now, "SHIPMENT_CREATED", CreatedData(req, data))], session)
        case CarrierError(message) =>
          RouteOutcome(ShipmentFailed(message), Some(payload),
                       [LogEntry(logId, now, "SHIPMENT_ERROR", ErrorData(message))], session)
  }

  /** `POST /api/shipments/create` on the shared session and the log files. */
  method CreateShipment(session: ShiprocketSession, files: DataFiles, req: ShipmentRequest,
                        today: string, now: int, logId: string, login: LoginReply,
                        reply: CarrierReply<CarrierOrder>)
    returns (resp: ShipmentResponse, sent: Option<CarrierPayload>)
    modifies session, files
    ensures var o := ShipmentRoute(old(session.token), old(session.tokenExpiry), req, today, now, logId, login, reply);
      && resp == o.resp && sent == o.sent
      && files.shipmentLogs == old(files.shipmentLogs) + o.logs
      && (session.token, session.tokenExpiry) == o.session
    ensures files.orders == old(files.orders)
    ensures files.paymentLogs == old(files.paymentLogs) && files.orderLogs == old(files.orderLogs)
  {
    if !HasRequiredFields(req) {
      return MissingFields, None;
    }
    if req.packageType == Some("pdf") {
      LogShipment(files, logId, now, "DIGITAL_DELIVERY", DigitalData(req));
      return DigitalDelivery(req.orderId.value), None;
    }
    var result;
    sent, result := session.CreateOrder(ShipmentOrderData(req, today), now, login, reply);
    match result {
      case Success(data) =>
        LogShipment(files, logId, now, "SHIPMENT_CREATED", CreatedData(req, data));
        resp := ShipmentCreated(data);
      case Failure(message) =>
        LogShipment(files, logId, now, "SHIPMENT_ERROR", ErrorData(message));
        resp := ShipmentFailed(message);
    }
  }

  datatype TrackResponse = Tracked(status: Option<string>) | TrackingFailed(details: string)

  /** The `TRACKING_REQUESTED` entry's data: the AWB under the key `awb`, not `awb_code`. */
  function TrackingData(awb: string): (data: LogData)
    ensures data.awb == Some(awb) && data.awbCode.None? && data.orderId.None?
  {
    NoData.(awb := Some(awb))
  }

  /** `GET /api/shipments/track/:awb`: one tracking query; only an answered query is logged,
      and a failure of either the login or the query is a 500 that logs nothing. */
  method TrackAwb(session: ShiprocketSession, files: DataFiles, awb: string, now: int, logId: string,
                  login: LoginReply, reply: CarrierReply<Option<string>>)
    returns (resp: TrackResponse, sent: Option<string>)
    modifies session, files
    ensures (session.token, session.tokenExpiry) == Refreshed(old(session.token), old(session.tokenExpiry), now, login)
    ensures sent.Some? <==> Authorized(old(session.token), old(session.tokenExpiry), now, login)
    ensures sent.Some? ==> sent.value == awb
    ensures sent.Some? && reply.CarrierOk? ==>
      && resp == Tracked(reply.data)
      && files.shipmentLogs == old(files.shipmentLogs) + [LogEntry(logId, now, "TRACKING_REQUESTED", TrackingData(awb))]
    ensures sent.Some? && reply.CarrierError? ==>
      resp == TrackingFailed(reply.message) && files.shipmentLogs == old(files.shipmentLogs)
    ensures sent.None? ==> resp == TrackingFailed(AuthFailedMessage) && files.shipmentLogs == old(files.shipmentLogs)
    ensures files.orders == old(files.orders)
    ensures files.paymentLogs == old(files.paymentLogs) && files.orderLogs == old(files.orderLogs)
  {
    var result;
    sent, result := session.TrackShipment(awb, now, login, reply);
    match result {
      case Success(status) =>
        LogShipment(files, logId, now, "TRACKING_REQUESTED", TrackingData(awb));
        resp := Tracked(status);
      case Failure(message) =>
        resp := TrackingFailed(message);
    }
  }

  /** The JSON body of `POST /api/shipments/serviceability`. */
  datatype ServiceabilityRequest = ServiceabilityRequest(pickupPincode: Option<string>,
                                                         deliveryPincode: Option<string>)

  datatype ServiceabilityResponse =
    | Serviceable(couriers: seq<string>)
    | DeliveryPincodeMissing
    | ServiceabilityFailed(details: string)

  const DefaultPickupPincode := "110001"

  /** The query a serviceability body asks for: none (a 400) without a truthy delivery pincode;
      the pickup pincode defaults to `110001` only when it is absent. */
  function QueryFor(req: ServiceabilityRequest): (q: Option<ServiceabilityQuery>)
    ensures q.None? <==> !Truthy(req.deliveryPincode)
    ensures q.Some? ==> q.value.delivery == req.deliveryPincode.value
    ensures q.Some? && req.pickupPincode.None? ==> q.value.pickup == DefaultPickupPincode
    ensures q.Some? && req.pickupPincode.Some? ==> q.value.pickup == req.pickupPincode.value
  {
    if !Truthy(req.deliveryPincode) then None
    else Some(ServiceabilityQuery(req.pickupPincode.GetOr(DefaultPickupPincode), req.deliveryPincode.value))
  }

  /** `POST /api/shipments/serviceability`. */
  method CheckServiceability(session: ShiprocketSession, req: ServiceabilityRequest, now: int,
                             login: LoginReply, reply: CarrierReply<seq<string>>)
    returns (resp: ServiceabilityResponse, sent: Option<ServiceabilityQuery>)
    modifies session
    ensures QueryFor(req).None? ==> resp == DeliveryPincodeMissing && sent.None? && unchanged(session)
    ensures QueryFor(req).Some? ==>
      && (session.token, session.tokenExpiry) == Refreshed(old(session.token), old(session.tokenExpiry), now, login)
      && (sent.Some? <==> Authorized(old(session.token), old(session.tokenExpiry), now, login))
      && (sent.Some? ==> sent == QueryFor(req))
      && (sent.Some? && reply.CarrierOk? ==> resp == Serviceable(reply.data))
      && (sent.Some? && reply.CarrierError? ==> resp == ServiceabilityFailed(reply.message))
      && (sent.None? ==> resp == ServiceabilityFailed(AuthFailedMessage))
  {
    var q := QueryFor(req);
    if q.None? {
      return DeliveryPincodeMissing, None;
    }
    var result;
    sent, result := session.GetServiceability(q.value.pickup, q.value.delivery, now, login, reply);
    match result {
      case Success(couriers) => resp := Serviceable(couriers);
      case Failure(message) => resp := ServiceabilityFailed(message);
    }
  }
}
