/** Properties of the return view over the gateway's own status lists and over
    sequences of return requests for one payment. */
module ReturnFlow {
  import opened Host
  import opened Views
  import Constants

  /** With the gateway's status lists as the status sets, a pending or created payment
      is settled by the class of the gateway code: pending codes set it pending,
      failure codes cancel it, the success code confirms it, and the capture code and
      unlisted codes go their own ways. */
  lemma NaturalBranchTable(state: PaymentState, code: string)
    requires PendingOrCreated(state)
    ensures var a := Branch(state, code, NaturalStatusSets());
      && (code == CaptureStatus ==> a == Capture)
      && (code == "PEN" ==> a == SetPending)
      && (code in {"KO", "ANNULLO", "ERRORE"} ==> a == SetCanceled)
      && (code == "OK" ==> a == Confirm)
      && (code != CaptureStatus && Constants.Classify(code) == Constants.Unlisted ==> a == Raise(PaymentError))
  {
  }

  /** One browser return: its `result` segment, its query dictionary, and what the
      gateway and the shop answer while it is handled. */
  datatype Return = Return(result: string, params: Info, env: Env)

  /** The routes taken by a sequence of visits handled one after the other, each on
      the payment and order the previous one left behind. */
  function Replay(p: Payment, order: OrderStatus, orderUrl: string, visits: seq<Return>): (routes: seq<Route>)
    ensures |routes| == |visits|
    decreases |visits|
  {
    if visits == [] then []
    else
      var r := visits[0];
      var resp := Handle(r.result, r.params, p, order, orderUrl, r.env);
      [resp.route] + Replay(resp.payment, resp.order, orderUrl, visits[1..])
  }

  /** How many routes confirmed the payment. */
  function Confirms(routes: seq<Route>): nat {
    if routes == [] then 0
    else (if routes[0] == Settled(Confirm) then 1 else 0) + Confirms(routes[1..])
  }

  /** A payment that is neither pending nor created stays so under any return, and no
      return confirms it. */
  lemma SettledStaysSettled(p: Payment, order: OrderStatus, orderUrl: string, r: Return)
    requires !PendingOrCreated(p.state)
    ensures var resp := Handle(r.result, r.params, p, order, orderUrl, r.env);
      && !PendingOrCreated(resp.payment.state)
      && resp.route != Settled(Confirm)
  {
  }

  /** However many visits arrive for one payment, in whatever order and with whatever
      statuses, at most one of them confirms it, and none does once it has left the
      pending and created states. */
  lemma {:induction false} ConfirmsAtMostOnce(p: Payment, order: OrderStatus, orderUrl: string,
                                              visits: seq<Return>)
    ensures Confirms(Replay(p, order, orderUrl, visits)) <= (if PendingOrCreated(p.state) then 1 else 0)
    decreases |visits|
  {
    if visits != [] {
      var r := visits[0];
      var resp := Handle(r.result, r.params, p, order, orderUrl, r.env);
      var routes := Replay(p, order, orderUrl, visits);
      assert routes == [resp.route] + Replay(resp.payment, resp.order, orderUrl, visits[1..]);
      assert routes[1..] == Replay(resp.payment, resp.order, orderUrl, visits[1..]);
      ConfirmsAtMostOnce(resp.payment, resp.order, orderUrl, visits[1..]);
      if !PendingOrCreated(p.state) {
        SettledStaysSettled(p, order, orderUrl, r);
      } else if resp.route == Settled(Confirm) {
        assert resp.payment.state == Confirmed;
      }
    }
  }

  /** A second "ok" return after one that confirmed changes nothing. */
  lemma ReturnAfterConfirmIsNoOp(params1: Info, params2: Info, stored: Payment, order: OrderStatus,
                                 orderUrl: string, env1: Env, env2: Env)
    requires Handle("ok", params1, stored, order, orderUrl, env1).route == Settled(Confirm)
    ensures var first := Handle("ok", params1, stored, order, orderUrl, env1);
      var second := Handle("ok", params2, first.payment, first.order, orderUrl, env2);
      && second.route == Settled(NoOp)
      && second.payment == first.payment
      && second.order == first.order
      && !second.failCalled
  {
  }

  /** A failed return on a payment the shop no longer lets fail (for instance one
      already confirmed) changes nothing, whatever the query holds. */
  lemma FailedReturnOnSettledPaymentIsNoOp(result: string, params: Info, stored: Payment,
                                           order: OrderStatus, orderUrl: string, env: Env)
    requires result != "ok" && !PendingOrCreated(stored.state)
    ensures var resp := Handle(result, params, stored, order, orderUrl, env);
      && resp.payment == stored
      && resp.order == order
      && resp.failCalled
  {
  }

  /** An "ok" return that does not confirm leaves the order as it was, so its redirect
      carries the paid marker only if the order was already paid. */
  lemma UnconfirmedReturnKeepsRedirect(params: Info, stored: Payment, order: OrderStatus,
                                       orderUrl: string, env: Env)
    requires Handle("ok", params, stored, order, orderUrl, env).route != Settled(Confirm)
    ensures var resp := Handle("ok", params, stored, order, orderUrl, env);
      && resp.order == order
      && resp.location == RedirectToOrder(orderUrl, order)
  {
  }

  /** Nothing local guards the capture: a pending or created payment that receives the
      capture code twice is captured twice. */
  lemma CaptureRepeats(p: Payment, order: OrderStatus, orderUrl: string, params: Info, env: Env)
    requires PendingOrCreated(p.state) && env.status == CaptureStatus
    ensures Replay(p, order, orderUrl, [Return("ok", params, env), Return("ok", params, env)])
         == [Settled(Capture), Settled(Capture)]
  {
  }

  /** The lost state write: with the code as written a created payment that receives the
      pending code stays created; the single-record settlement makes it pending. */
  lemma LostStateWrite()
    ensures var stored, env := Payment(Created, map[]), Env("PEN", NaturalStatusSets(), true, OrderPending);
      && ProcessResultAsWritten(map[], stored, OrderPending, env).action == SetPending
      && ProcessResultAsWritten(map[], stored, OrderPending, env).payment.state == Created
      && ProcessResult(map[], stored, OrderPending, env).payment.state == Pending
  {
  }
}
