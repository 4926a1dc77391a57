/** The records the handlers keep in the `data/` directory, and the directory itself. */
module Store {
  import opened Wrappers

  /** JavaScript truthiness of an optional string: `undefined` and `""` are falsy. */
  predicate Truthy(s: Option<string>) {
    s.Some? && s.value != ""
  }

  /** `s || fallback` for an optional string. */
  function OrElse(s: Option<string>, fallback: string): string {
    if Truthy(s) then s.value else fallback
  }

  /** The four values the handlers ever write into an order's `status`. */
  datatype Status = Created | Paid | Completed | Failed

  /** The gateway's payment entity (`event.payload.payment.entity`); amounts in paise. */
  datatype Payment = Payment(
    id: string,
    orderId: string,
    amount: int,
    email: Option<string>,
    contact: Option<string>,
    errorCode: Option<string>,
    errorDescription: Option<string>)

  /** `customer_details` of an order. */
  datatype Customer = Customer(
    name: string,
    email: string,
    whatsapp: Option<string>,
    address: Option<string>,
    birthDate: Option<string>,
    birthTime: Option<string>,
    birthPlace: Option<string>)

  /** An element of `data/orders.json`; `amount` in rupees, timestamps in milliseconds. */
  datatype Order = Order(
    id: string,
    gatewayId: string,
    receipt: string,
    amount: int,
    currency: string,
    status: Status,
    customer: Customer,
    packageType: Option<string>,
    createdAt: int,
    updatedAt: int,
    paymentData: Option<Payment>,
    paymentId: Option<string>)

  /** The fields of a log entry's `data` object that the handlers write or read. */
  datatype LogData = LogData(
    action: Option<string>,
    orderId: Option<string>,
    paymentId: Option<string>,
    customerName: Option<string>,
    shipmentId: Option<string>,
    awbCode: Option<string>,
    courierName: Option<string>,
    error: Option<string>,
    awb: Option<string>)

  const NoData := LogData(None, None, None, None, None, None, None, None, None)

  /** An element of one of the activity logs: `{id, timestamp, type, data}`. */
  datatype LogEntry = LogEntry(id: string, timestamp: int, kind: string, data: LogData)

  /** The JSON array files under `data/`, each held as the sequence it parses to. */
  class DataFiles {
    /** `data/orders.json` */
    var orders: seq<Order>
    /** `data/payment_logs.json`, written by the webhook handlers */
    var paymentLogs: seq<LogEntry>
    /** `data/shiprocket_logs.json`, written by the shipment handlers */
    var shipmentLogs: seq<LogEntry>
    /** `data/order_logs.json`, written by the order handlers */
    var orderLogs: seq<LogEntry>

    /** Every file is absent (or `[]`) at start-up. */
    constructor ()
      ensures orders == [] && paymentLogs == [] && shipmentLogs == [] && orderLogs == []
    {
      orders := [];
      paymentLogs := [];
      shipmentLogs := [];
      orderLogs := [];
    }
  }
}
