/** The browser-return view: it reads the `result` path segment and the query
    parameters, settles the stored payment against the gateway's status code and
    redirects the customer to the order page.

    The status code and the three status sets the decision consults are parameters
    (Env, StatusSets): the view refers to them without defining them. The shop's
    confirmation and the order refresh after it are modelled by their observable
    answers, also carried in Env; the capture call is assumed to return normally. */
module Views {
  import opened Host
  import Constants

  /** The status code the view tests, before the status sets, to request a capture. */
  const CaptureStatus := "5"

  /** Suffix of the order-page URL when the order is paid. */
  const PaidMarker := "?paid=yes"

  // ---------------------------------------------------------------------------
  // Query parameters
  // ---------------------------------------------------------------------------

  /** One `name=value` pair of the query string, in the order the browser sent it. */
  datatype Param = Param(name: string, value: string)

  /** Position `i` holds the last pair with its name. */
  predicate IsLastOf(query: seq<Param>, i: int)
    requires 0 <= i < |query|
  {
    forall j | i < j < |query| :: query[j].name != query[i].name
  }

  /** The names that occur in the query string. */
  function Names(query: seq<Param>): set<string> {
    set i | 0 <= i < |query| :: query[i].name
  }

  /** The query string as a dictionary: every name sent, bound to the last value sent
      for it. */
  function QueryDict(query: seq<Param>): (d: Info)
    ensures d.Keys == Names(query)
    ensures forall i | 0 <= i < |query| && IsLastOf(query, i) ::
              query[i].name in d && d[query[i].name] == query[i].value
    decreases |query|
  {
    if query == [] then map[]
    else
      var n := |query| - 1;
      NamesOfSnoc(query);
      LastOfPrefix(query);
      QueryDict(query[..n])[query[n].name := query[n].value]
  }

  /** The names of a query are those of all but its last pair, plus the last name. */
  lemma NamesOfSnoc(query: seq<Param>)
    requires |query| > 0
    ensures Names(query) == Names(query[..|query| - 1]) + {query[|query| - 1].name}
  {
  }

  /** A pair that is the last of its name in the whole query, other than the final one,
      is the last of its name in the query without its final pair, and its name differs
      from the final pair's. */
  lemma LastOfPrefix(query: seq<Param>)
    requires |query| > 0
    ensures forall i | 0 <= i < |query| - 1 && IsLastOf(query, i) ::
              IsLastOf(query[..|query| - 1], i) && query[i].name != query[|query| - 1].name
  {
  }

  /** The stored info updated by the query parameters, the query winning on a clash. */
  function MergeInfo(info: Info, params: Info): (merged: Info)
    ensures merged.Keys == info.Keys + params.Keys
    ensures forall k | k in params :: merged[k] == params[k]
    ensures forall k | k in info && k !in params :: merged[k] == info[k]
  {
    info + params
  }

  // ---------------------------------------------------------------------------
  // Settling the payment
  // ---------------------------------------------------------------------------

  /** The gateway codes that mean pending, canceled and successful. */
  datatype StatusSets = StatusSets(pending: set<string>, canceled: set<string>, success: set<string>)

  /** The sets read from the gateway's status lists: pending codes, failure codes as
      the canceled set, success codes. This pairing is an assumption of the model. */
  function NaturalStatusSets(): (sets: StatusSets)
    ensures forall code ::
      && (code in sets.pending <==> Constants.Classify(code) == Constants.Pending)
      && (code in sets.canceled <==> Constants.Classify(code) == Constants.Fail)
      && (code in sets.success <==> Constants.Classify(code) == Constants.Success)
  {
    StatusSets(
      set code | code in Constants.StatusPending,
      set code | code in Constants.StatusFails,
      set code | code in Constants.StatusSuccess)
  }

  /** Everything the view consults besides the payment and the query: the gateway's
      status code, the status sets, whether the shop's quota check lets a confirmation
      through, and the order status the shop reports after a confirmation. */
  datatype Env = Env(status: string, sets: StatusSets, quotaAvailable: bool, orderAfterConfirm: OrderStatus)

  datatype Error = PaymentError | QuotaExceeded

  /** What one settlement does. */
  datatype Action = NoOp | Capture | SetPending | SetCanceled | Confirm | Raise(error: Error)

  /** The payment and order after a settlement, and the action taken. */
  datatype Processed = Processed(payment: Payment, order: OrderStatus, action: Action)

  /** The branch chosen for a payment that is not confirmed: the tests are tried in
      order and the first that holds wins. */
  function Branch(state: PaymentState, status: string, sets: StatusSets): (a: Action)
    ensures !PendingOrCreated(state) ==> a == Raise(PaymentError)
    ensures PendingOrCreated(state) ==>
      && (a == Capture <==> status == CaptureStatus)
      && (a == SetPending <==> status != CaptureStatus && status in sets.pending)
      && (a == SetCanceled <==>
            status != CaptureStatus && status !in sets.pending && status in sets.canceled)
      && (a == Confirm <==>
            status != CaptureStatus && status !in sets.pending && status !in sets.canceled
            && status in sets.success)
      && (a == Raise(PaymentError) <==>
            status != CaptureStatus && status !in sets.pending && status !in sets.canceled
            && status !in sets.success)
  {
    if status == CaptureStatus && PendingOrCreated(state) then Capture
    else if status in sets.pending && PendingOrCreated(state) then SetPending
    else if status in sets.canceled && PendingOrCreated(state) then SetCanceled
    else if status in sets.success && PendingOrCreated(state) then Confirm
    else Raise(PaymentError)
  }

  /** Settling the freshly re-read, locked payment. The whole step is one database
      transaction: when it raises, the info merge is rolled back with it. */
  function ProcessResult(params: Info, stored: Payment, order: OrderStatus, env: Env): (r: Processed)
    // re-entry after confirmation changes nothing
    ensures stored.state == Confirmed ==> r == Processed(stored, order, NoOp)
    // a payment that is neither pending nor created always raises
    ensures stored.state != Confirmed && !PendingOrCreated(stored.state) ==>
              r.action == Raise(PaymentError)
    // a raise leaves payment and order as they were
    ensures r.action.Raise? ==> r.payment == stored && r.order == order
    // a quota failure can only come from the confirmation branch
    ensures r.action == Raise(QuotaExceeded) <==>
              Branch(stored.state, env.status, env.sets) == Confirm && !env.quotaAvailable
              && stored.state != Confirmed
    // every action that completes has merged the query into the info
    ensures r.action in {Capture, SetPending, SetCanceled, Confirm} ==>
              r.payment.info == MergeInfo(stored.info, params)
    // the state moves only as the action says
    ensures r.action == SetPending ==> r.payment.state == Pending
    ensures r.action == SetCanceled ==> r.payment.state == Canceled
    ensures r.action == Confirm ==> r.payment.state == Confirmed && r.order == env.orderAfterConfirm
    ensures r.action !in {SetPending, SetCanceled, Confirm} ==>
              r.payment.state == stored.state && r.order == order
    // only a confirmation refreshes the order
    ensures r.action != Confirm ==> r.order == order
    ensures r.action == Confirm <==>
              stored.state != Confirmed && env.quotaAvailable
              && Branch(stored.state, env.status, env.sets) == Confirm
    // every other branch is taken as chosen: capture, pending, canceled or a payment error
    ensures stored.state != Confirmed && Branch(stored.state, env.status, env.sets) != Confirm ==>
              r.action == Branch(stored.state, env.status, env.sets)
  {
    if stored.state == Confirmed then Processed(stored, order, NoOp)
    else
      var merged := stored.(info := MergeInfo(stored.info, params));
      match Branch(stored.state, env.status, env.sets)
      case Capture => Processed(merged, order, Capture)
      case SetPending => Processed(merged.(state := Pending), order, SetPending)
      case SetCanceled => Processed(merged.(state := Canceled), order, SetCanceled)
      case Confirm =>
        if env.quotaAvailable then Processed(merged.(state := Confirmed), env.orderAfterConfirm, Confirm)
        else Processed(stored, order, Raise(QuotaExceeded))
      case _ => Processed(stored, order, Raise(PaymentError))
  }

  /** The settlement as the view's code is written: the pending and canceled states are
      assigned to a fresh copy of the payment that is discarded, and the copy saved
      afterwards is another fresh read, so those two state writes never reach the
      stored record. Everything else is as in ProcessResult. */
  function ProcessResultAsWritten(params: Info, stored: Payment, order: OrderStatus, env: Env): (r: Processed)
    ensures r.action == ProcessResult(params, stored, order, env).action
    ensures r.order == ProcessResult(params, stored, order, env).order
    ensures r.payment.info == ProcessResult(params, stored, order, env).payment.info
    ensures r.action in {SetPending, SetCanceled} ==> r.payment.state == stored.state
    ensures r.action !in {SetPending, SetCanceled} ==> r == ProcessResult(params, stored, order, env)
  {
    var fixed := ProcessResult(params, stored, order, env);
    if fixed.action in {SetPending, SetCanceled} then fixed.(payment := fixed.payment.(state := stored.state))
    else fixed
  }

  // ---------------------------------------------------------------------------
  // The return request
  // ---------------------------------------------------------------------------

  /** The message shown on the order page. */
  datatype Notice = NoNotice | PaymentFailedNotice | QuotaNotice

  /** Which way the request went: failed on its `result` segment, or settled. */
  datatype Route = FailedByResult | Settled(action: Action)

  /** Everything a return request leaves behind. `failCalled` records that the
      shop's payment-failure call was made. */
  datatype Response = Response(payment: Payment, order: OrderStatus, route: Route, failCalled: bool,
                               notice: Notice, location: string)

  /** The order-page URL, with the paid marker appended when the order is paid. */
  function RedirectToOrder(orderUrl: string, status: OrderStatus): (location: string)
    ensures orderUrl <= location
    ensures status == OrderPaid ==> location[|orderUrl|..] == PaidMarker
    ensures status != OrderPaid ==> location == orderUrl
  {
    orderUrl + (if status == OrderPaid then PaidMarker else "")
  }

  predicate EndsWith(s: string, suffix: string) {
    |suffix| <= |s| && s[|s| - |suffix|..] == suffix
  }

  /** For an order URL that does not already end in the marker, the redirect ends in
      the marker exactly when the order is paid. */
  lemma PaidMarkerExactlyWhenPaid(orderUrl: string, status: OrderStatus)
    requires !EndsWith(orderUrl, PaidMarker)
    ensures EndsWith(RedirectToOrder(orderUrl, status), PaidMarker) <==> status == OrderPaid
  {
  }

  /** A failed return: the shop is asked to fail the payment with the query as its info. */
  function FailByResult(params: Info, stored: Payment, order: OrderStatus, orderUrl: string): (resp: Response)
    ensures PendingOrCreated(stored.state) ==>
              resp.payment.state == Failed
              && resp.payment.info == (if params == map[] then stored.info else params)
    ensures !PendingOrCreated(stored.state) ==> resp.payment == stored
    ensures resp.failCalled && resp.order == order && resp.route == FailedByResult
    ensures resp.notice == PaymentFailedNotice
  {
    Response(FailPayment(stored, params), order, FailedByResult, true, PaymentFailedNotice,
             RedirectToOrder(orderUrl, order))
  }

  /** The return view on its `result` segment and the query dictionary. */
  function Handle(result: string, params: Info, stored: Payment, order: OrderStatus, orderUrl: string,
                  env: Env): (resp: Response)
    // anything but "ok" asks the shop to fail the payment with the query as info, without settling
    ensures result != "ok" ==>
              resp == FailByResult(params, stored, order, orderUrl)
    // "ok" settles exactly once, and the redirect sees the order the settlement left
    ensures result == "ok" ==>
              resp.route == Settled(ProcessResult(params, stored, order, env).action)
    ensures result == "ok" ==>
              resp.order == ProcessResult(params, stored, order, env).order
    // a payment error fails the payment only if it is still pending or created
    ensures result == "ok" ==>
              (resp.failCalled <==> resp.route.action == Raise(PaymentError) && PendingOrCreated(stored.state))
    // a quota failure never fails the payment and leaves it as stored
    ensures resp.route == Settled(Raise(QuotaExceeded)) ==>
              !resp.failCalled && resp.payment == stored && resp.notice == QuotaNotice
    ensures resp.route == Settled(Raise(PaymentError)) ==>
              resp.notice == PaymentFailedNotice
              && resp.payment == (if resp.failCalled then stored.(state := Failed) else stored)
    ensures resp.route.Settled? && !resp.route.action.Raise? ==>
              resp.notice == NoNotice && !resp.failCalled
              && resp.payment == ProcessResult(params, stored, order, env).payment
    ensures resp.failCalled && PendingOrCreated(stored.state) ==> resp.payment.state == Failed
    ensures resp.failCalled && !PendingOrCreated(stored.state) ==> resp.payment == stored
    ensures resp.location == RedirectToOrder(orderUrl, resp.order)
  {
    if result == "ko" then FailByResult(params, stored, order, orderUrl)
    else if result == "ok" then
      var r := ProcessResult(params, stored, order, env);
      match r.action
      case Raise(QuotaExceeded) =>
        Response(r.payment, r.order, Settled(r.action), false, QuotaNotice, RedirectToOrder(orderUrl, r.order))
      case Raise(PaymentError) =>
        var fail := PendingOrCreated(r.payment.state);
        var p := if fail then FailPayment(r.payment, map[]) else r.payment;
        Response(p, r.order, Settled(r.action), fail, PaymentFailedNotice, RedirectToOrder(orderUrl, r.order))
      case _ =>
        Response(r.payment, r.order, Settled(r.action), false, NoNotice, RedirectToOrder(orderUrl, r.order))
    else FailByResult(params, stored, order, orderUrl)
  }

  /** The GET entry point: the query string becomes a dictionary, then the request is
      handled. When a failed return fails a pending or created payment with a non-empty
      query, the payment's info holds exactly the names sent, each with the last value
      sent for it. */
  function Get(result: string, query: seq<Param>, stored: Payment, order: OrderStatus, orderUrl: string,
               env: Env): (resp: Response)
    ensures resp == Handle(result, QueryDict(query), stored, order, orderUrl, env)
    ensures result != "ok" && PendingOrCreated(stored.state) && |query| > 0 ==>
              && resp.payment.state == Failed
              && resp.payment.info.Keys == Names(query)
              && (forall i | 0 <= i < |query| && IsLastOf(query, i) ::
                    resp.payment.info[query[i].name] == query[i].value)
  {
    Handle(result, QueryDict(query), stored, order, orderUrl, env)
  }
}
