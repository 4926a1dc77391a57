/** `routes/orders.js`: order creation against the payment gateway, the local order store
    and the lookup of one order. */
module Orders {
  import opened Wrappers
  import opened Store

  /** The JSON body of `POST /api/orders/create`; absent fields are `None`. */
  datatype CreateRequest = CreateRequest(
    amount: Option<int>,
    currency: Option<string>,
    customerName: Option<string>,
    customerEmail: Option<string>,
    packageType: Option<string>,
    birthDate: Option<string>,
    birthTime: Option<string>,
    birthPlace: Option<string>,
    whatsapp: Option<string>,
    address: Option<string>)

  /** The `notes` sent to the gateway: every optional field is replaced by `""` when falsy. */
  datatype Notes = Notes(
    customerName: string,
    customerEmail: string,
    packageType: string,
    birthDate: string,
    birthTime: string,
    birthPlace: string,
    whatsapp: string,
    address: string)

  /** The `options` passed to `razorpay.orders.create`; `amount` in paise. */
  datatype GatewayOptions = GatewayOptions(amount: int, currency: string, receipt: string, notes: Notes)

  /** What `razorpay.orders.create` resolves to, or the message of the error it throws. */
  datatype GatewayReply =
    | GatewayOrder(id: string, amount: int, currency: string, receipt: string)
    | GatewayError(message: string)

  /** The HTTP answer of the create handler: 200, 400 or 500. */
  datatype CreateResponse =
    | OrderCreated(orderId: string, amount: int, currency: string, receipt: string, localOrderId: string)
    | BadRequest(error: string)
    | ServerError(details: string)

  const MissingFieldsError := "Missing required fields: amount, customer_name, customer_email"
  const MinimumAmountError := "Amount must be at least \U{20B9}1"
  const DefaultCurrency := "INR"

  /** `!amount` for a number: absent or zero. */
  predicate AmountGiven(amount: Option<int>) {
    amount.Some? && amount.value != 0
  }

  /** The two validation checks, in the order the handler makes them. */
  function Validate(req: CreateRequest): (err: Option<string>)
    ensures err.None? <==>
      req.amount.Some? && req.amount.value >= 1 && Truthy(req.customerName) && Truthy(req.customerEmail)
    ensures err == Some(MissingFieldsError) <==>
      !AmountGiven(req.amount) || !Truthy(req.customerName) || !Truthy(req.customerEmail)
    ensures err == Some(MinimumAmountError) <==>
      AmountGiven(req.amount) && Truthy(req.customerName) && Truthy(req.customerEmail) && req.amount.value < 1
  {
    if !AmountGiven(req.amount) || !Truthy(req.customerName) || !Truthy(req.customerEmail) then
      Some(MissingFieldsError)
    else if req.amount.value < 1 then
      Some(MinimumAmountError)
    else
      None
  }

  /** The gateway request of a valid body: the amount converted to paise, `INR` when no currency
      is given, every given note sent as it is and every absent or empty one sent as `""`. */
  function GatewayRequest(req: CreateRequest, receipt: string): (opts: GatewayOptions)
    requires Validate(req).None?
    ensures opts.amount == req.amount.value * 100 && opts.amount >= 100
    ensures req.currency.None? ==> opts.currency == DefaultCurrency
    ensures req.currency.Some? ==> opts.currency == req.currency.value
    ensures opts.receipt == receipt
    ensures opts.notes.customerName == req.customerName.value && opts.notes.customerEmail == req.customerEmail.value
    ensures !Truthy(req.packageType) ==> opts.notes.packageType == ""
    ensures Truthy(req.packageType) ==> opts.notes.packageType == req.packageType.value
    ensures !Truthy(req.whatsapp) ==> opts.notes.whatsapp == ""
    ensures Truthy(req.whatsapp) ==> opts.notes.whatsapp == req.whatsapp.value
    ensures !Truthy(req.address) ==> opts.notes.address == ""
    ensures Truthy(req.address) ==> opts.notes.address == req.address.value
    ensures !Truthy(req.birthDate) ==> opts.notes.birthDate == ""
    ensures Truthy(req.birthDate) ==> opts.notes.birthDate == req.birthDate.value
    ensures !Truthy(req.birthTime) ==> opts.notes.birthTime == ""
    ensures Truthy(req.birthTime) ==> opts.notes.birthTime == req.birthTime.value
    ensures !Truthy(req.birthPlace) ==> opts.notes.birthPlace == ""
    ensures Truthy(req.birthPlace) ==> opts.notes.birthPlace == req.birthPlace.value
  {
    GatewayOptions(
      req.amount.value * 100,
      req.currency.GetOr(DefaultCurrency),
      receipt,
      Notes(
        req.customerName.value,
        req.customerEmail.value,
        OrElse(req.packageType, ""),
        OrElse(req.birthDate, ""),
        OrElse(req.birthTime, ""),
        OrElse(req.birthPlace, ""),
        OrElse(req.whatsapp, ""),
        OrElse(req.address, "")))
  }

  /** The local record of a new order: status `created`, the gateway's id, the amount in rupees,
      the optional customer fields kept exactly as given. */
  function LocalOrder(req: CreateRequest, reply: GatewayReply, id: string, receipt: string, now: int): (o: Order)
    requires Validate(req).None? && reply.GatewayOrder?
    ensures o.status == Created && o.id == id && o.gatewayId == reply.id && o.receipt == receipt
    ensures o.amount == req.amount.value && o.amount >= 1
    ensures o.customer.name == req.customerName.value && o.customer.name != ""
    ensures o.customer.email == req.customerEmail.value
    ensures o.customer.address == req.address && o.customer.whatsapp == req.whatsapp
    ensures o.customer.birthDate == req.birthDate && o.customer.birthTime == req.birthTime
    ensures o.customer.birthPlace == req.birthPlace
    ensures req.currency.None? ==> o.currency == DefaultCurrency
    ensures req.currency.Some? ==> o.currency == req.currency.value
    ensures o.packageType == req.packageType
    ensures o.createdAt == now && o.updatedAt == now
    ensures o.paymentData.None? && o.paymentId.None?
  {
    Order(
      id, reply.id, receipt, req.amount.value, req.currency.GetOr(DefaultCurrency), Created,
      Customer(req.customerName.value, req.customerEmail.value, req.whatsapp, req.address,
               req.birthDate, req.birthTime, req.birthPlace),
      req.packageType, now, now, None, None)
  }

  /** `logActivity('ORDER', {action: 'created', ...})` */
  function CreatedActivity(req: CreateRequest, reply: GatewayReply): LogData
    requires Validate(req).None? && reply.GatewayOrder?
  {
    NoData.(action := Some("created"), orderId := Some(reply.id), customerName := req.customerName)
  }

  /** `logActivity('ORDER', {action: 'error', ...})` */
  function ErrorActivity(message: string): LogData {
    NoData.(action := Some("error"), error := Some(message))
  }

  /** `saveOrder`: appends one record to `data/orders.json`. */
  method SaveOrder(files: DataFiles, order: Order)
    modifies files
    ensures files.orders == old(files.orders) + [order]
    ensures files.paymentLogs == old(files.paymentLogs) && files.shipmentLogs == old(files.shipmentLogs)
    ensures files.orderLogs == old(files.orderLogs)
  {
    files.orders := files.orders + [order];
  }

  /** `logActivity('ORDER', data)`: appends one entry to `data/order_logs.json`. */
  method LogActivity(files: DataFiles, id: string, now: int, data: LogData)
    modifies files
    ensures files.orderLogs == old(files.orderLogs) + [LogEntry(id, now, "ORDER", data)]
    ensures files.orders == old(files.orders)
    ensures files.paymentLogs == old(files.paymentLogs) && files.shipmentLogs == old(files.shipmentLogs)
  {
    files.orderLogs := files.orderLogs + [LogEntry(id, now, "ORDER", data)];
  }

  /** `POST /api/orders/create`. `receipt`, `localId`, `logId` and `now` stand for the generated
      receipt, the two uuids and the clock; `reply` is what the gateway answers to `sent`. */
  method CreateOrder(files: DataFiles, req: CreateRequest, receipt: string, localId: string,
                     logId: string, now: int, reply: GatewayReply)
    returns (resp: CreateResponse, sent: Option<GatewayOptions>)
    modifies files
    ensures Validate(req).Some? ==>
      resp == BadRequest(Validate(req).value) && sent.None? && unchanged(files)
    ensures Validate(req).None? ==> sent == Some(GatewayRequest(req, receipt))
    ensures Validate(req).None? && reply.GatewayError? ==>
      && resp == ServerError(reply.message)
      && files.orders == old(files.orders)
      && files.orderLogs == old(files.orderLogs) + [LogEntry(logId, now, "ORDER", ErrorActivity(reply.message))]
    ensures Validate(req).None? && reply.GatewayOrder? ==>
      && resp == OrderCreated(reply.id, reply.amount, reply.currency, reply.receipt, localId)
      && files.orders == old(files.orders) + [LocalOrder(req, reply, localId, receipt, now)]
      && files.orderLogs == old(files.orderLogs) + [LogEntry(logId, now, "ORDER", CreatedActivity(req, reply))]
    ensures files.paymentLogs == old(files.paymentLogs) && files.shipmentLogs == old(files.shipmentLogs)
  {
    var err := Validate(req);
    if err.Some? {
      return BadRequest(err.value), None;
    }
    var options := GatewayRequest(req, receipt);
    sent := Some(options);
    match reply {
      case GatewayError(message) =>
        LogActivity(files, logId, now, ErrorActivity(message));
        resp := ServerError(message);
      case GatewayOrder(id, amount, currency, gatewayReceipt) =>
        var local := LocalOrder(req, reply, localId, receipt, now);
        SaveOrder(files, local);
        LogActivity(files, logId, now, CreatedActivity(req, reply));
        resp := OrderCreated(id, amount, currency, gatewayReceipt, localId);
    }
  }

  /** The key of `GET /api/orders/:id` names an order by its local or its gateway id. */
  predicate Identifies(o: Order, key: string) {
    o.id == key || o.gatewayId == key
  }

  /** `orders.find(o => o.id === key || o.razorpay_order_id === key)`: the first order the key
      identifies, or `None` (a 404) when there is none. */
  function FindOrder(orders: seq<Order>, key: string): (r: Option<Order>)
    ensures r.None? <==> forall i :: 0 <= i < |orders| ==> !Identifies(orders[i], key)
    ensures r.Some? ==> exists i :: 0 <= i < |orders| && orders[i] == r.value && Identifies(r.value, key)
                                 && forall j :: 0 <= j < i ==> !Identifies(orders[j], key)
  {
    if orders == [] then None
    else if Identifies(orders[0], key) then Some(orders[0])
    else
      var r := FindOrder(orders[1..], key);
      assert forall i :: 1 <= i < |orders| ==> orders[i] == orders[1..][i - 1];
      r
  }
}
