/** States of a commerce order (sitescore-commerce contracts.py) and its durable row. */
module Orders {

  type OrderId = string

  datatype OrderState =
    | PendingPayment | Paid | FulfillmentInProgress | Fulfilled | AttentionRequired | Expired | Refunded

  datatype PaymentState =
    | PayPending | PayPaid | PayFailed | PayExpired | RefundPending | PayRefunded | RefundFailed

  datatype FulfillmentState =
    | NotStarted | AnalysisPending | AnalysisRunning | ReportPending | DeliveryPending | Delivered
    | NotScoreReady | AnalysisFailed | AnalysisTimedOut | ReportFailed | DeliveryFailed

  datatype Order = Order(
    productCode: string,
    catalogVersion: string,
    email: string,
    state: OrderState,
    payment: PaymentState,
    fulfillment: FulfillmentState)

  /** The states in which only the payment protocol writes the order. */
  predicate Unpaid(o: Order) {
    o.state == PendingPayment || o.state == Expired || o.payment == PayPending || o.payment == PayExpired
  }

  /**
   * Everything fulfillment, refunds and delivery ever do to an order row, seen from the payment
   * protocol: a paid order stays paid-for, and never becomes a freshly paid one again.
   */
  predicate FulfillmentMayWrite(before: Order, after: Order) {
    && !Unpaid(before)
    && after.productCode == before.productCode
    && after.catalogVersion == before.catalogVersion
    && after.email == before.email
    && after.state in {FulfillmentInProgress, Fulfilled, AttentionRequired, Refunded}
    && after.payment in {PayPaid, RefundPending, PayRefunded, RefundFailed}
  }
}
