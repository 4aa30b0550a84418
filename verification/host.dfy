/** The entities of the hosting shop that the return view reads and writes: the
    payment record and the order status. The shop owns them; only the parts the view
    touches are modelled. */
module Host {

  /** Lifecycle states of a shop payment record. */
  datatype PaymentState = Created | Pending | Confirmed | Canceled | Failed | Refunded

  /** Status of the order a payment belongs to. */
  datatype OrderStatus = OrderPending | OrderPaid | OrderExpired | OrderCanceled

  /** The payment's free-form info dictionary, restricted to string values. */
  type Info = map<string, string>

  /** One payment record, as stored. */
  datatype Payment = Payment(state: PaymentState, info: Info)

  /** The local states from which a payment may still be settled or failed. */
  predicate PendingOrCreated(s: PaymentState) {
    s == Pending || s == Created
  }

  /** The shop's payment-failure call. It only acts on a created or pending payment
      (any other is left alone as a lost race), and it replaces the info only when it is
      given a non-empty one. */
  function FailPayment(p: Payment, info: Info): (q: Payment)
    ensures PendingOrCreated(p.state) ==> q.state == Failed
    ensures PendingOrCreated(p.state) && info != map[] ==> q.info == info
    ensures info == map[] || !PendingOrCreated(p.state) ==> q.info == p.info
    ensures !PendingOrCreated(p.state) ==> q == p
  {
    if !PendingOrCreated(p.state) then p
    else if info == map[] then p.(state := Failed)
    else Payment(Failed, info)
  }
}
