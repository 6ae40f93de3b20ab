/** How the tiers fit together: what the checkout view sends reaches the
    gateway call, the create endpoint's answer drives the checkout view,
    and the stored status drives the polling and the return view. */
module EndToEnd {
  import opened Wrappers
  import opened Text
  import Cart
  import opened Web
  import opened PaymentApi
  import Checkout
  import Processing
  import ReturnView
  import opened PaymentEntity
  import opened PaymentStore
  import Controller

  // ---------------------------------------------------------------------
  // Checkout to create endpoint
  // ---------------------------------------------------------------------

  /** The front end's request, once turned into the gateway's create call,
      asks the gateway to come back to the return view of this very order,
      with the chosen wallet and the cart's amount in cents. */
  lemma CreateCallForCheckout(items: seq<Cart.Item>, wallet: Checkout.Wallet, now: nat, origin: string, tx: string)
    ensures var req := Checkout.PaymentRequestFor(items, wallet, now, origin);
            var call := Controller.CreateRequestFor(req, tx);
            && call.returnUrl == origin + ReturnRoute(Checkout.OrderNumber(now))
            && call.walletBrandName == Checkout.WalletCode(wallet)
            && call.totAmount == Some(Cart.TotalAmount(items))
            && call.shopOrderNo == Some(Checkout.OrderNumber(now))
  {
    var req := Checkout.PaymentRequestFor(items, wallet, now, origin);
    var o := Checkout.OrderNumber(now);
    calc {
      Controller.CreateRequestFor(req, tx).returnUrl;
      (origin + "/payment/return") + "?orderNo=" + o;
      { assert (origin + "/payment/return") + "?orderNo=" == origin + "/payment/return?orderNo="; }
      origin + ("/payment/return?orderNo=" + o);
    }
  }

  /** The return URL the create endpoint hands the gateway leads back to
      the request's order: read as the return view reads its location, its
      `orderNo` parameter is the request's order number. */
  lemma GatewayReturnCarriesOrderNo(req: PaymentRequest, tx: string)
    requires req.returnUrl.Some? && '?' !in req.returnUrl.value && '#' !in req.returnUrl.value
    requires req.orderNo.Some? && '&' !in req.orderNo.value && '#' !in req.orderNo.value
    ensures ReturnView.OrderNoParam(Controller.CreateRequestFor(req, tx).returnUrl) == req.orderNo
  {
    ReturnView.OrderNoAfterPath(req.returnUrl.value, req.orderNo.value);
  }

  /** So a payment started from the checkout view comes back, through the
      gateway, to the return view of the same order number. */
  lemma CheckoutReturnsToOrder(items: seq<Cart.Item>, wallet: Checkout.Wallet, now: nat, origin: string, tx: string)
    requires '?' !in origin && '#' !in origin
    ensures var req := Checkout.PaymentRequestFor(items, wallet, now, origin);
            ReturnView.OrderNoParam(Controller.CreateRequestFor(req, tx).returnUrl) == Some(Checkout.OrderNumber(now))
  {
    var req := Checkout.PaymentRequestFor(items, wallet, now, origin);
    var o := Checkout.OrderNumber(now);
    forall i | 0 <= i < |o| ensures o[i] != '&' && o[i] != '#' {
      if i < 3 {
        assert o[i] == o[..3][i];
      }
    }
    assert '?' !in "/payment/return" && '#' !in "/payment/return";
    GatewayReturnCarriesOrderNo(req, tx);
  }

  /** For a request from the checkout view, the record is stored exactly
      when the gateway names a `pgCno` and no stored record already holds
      the order number: the order number is always present and every
      wallet code fits its column. */
  lemma CheckoutRecordAdmissible(items: seq<Cart.Item>, wallet: Checkout.Wallet, now: nat, origin: string,
                                 tx: string, body: map<string, string>, saveTime: Timestamp,
                                 rows: map<nat, PaymentRow>, nextId: nat)
    ensures var req := Checkout.PaymentRequestFor(items, wallet, now, origin);
            Admissible(rows, nextId, Controller.SavedRecord(req, tx, body, saveTime, nextId)) <==>
              Get(body, "pgCno").Some?
              && forall k :: k in rows && k != nextId ==> rows[k].orderNo != Some(Checkout.OrderNumber(now))
  {
    var req := Checkout.PaymentRequestFor(items, wallet, now, origin);
    var row := Controller.SavedRecord(req, tx, body, saveTime, nextId);
    assert row.walletBrandName == Some(Checkout.WalletCode(wallet));
    assert row.orderNo == Some(Checkout.OrderNumber(now));
  }

  /** The create endpoint's JSON as `handlePayment` reads it. A 500 carries
      `error` "Payment processing failed" and a non-ok status. */
  function AsSubmitReply(r: Controller.CreateResult): Checkout.SubmitReply
  {
    match r
    case Initiated(paymentUrl, _, transactionId, _) => Checkout.Answered(true, true, paymentUrl, Some(transactionId), None)
    case Declined(error) => Checkout.Answered(true, false, None, None, error)
    case CreateFailed => Checkout.Answered(false, false, None, None, Some(Controller.ProcessingFailed))
  }

  /** The checkout view moves to the processing view exactly when the
      record was stored and the gateway gave a non-empty payment page. */
  lemma CheckoutFollowsCreate(r: Controller.CreateResult)
    ensures Checkout.SubmissionOutcome(AsSubmitReply(r)).ToProcessing? <==> r.Initiated? && Truthy(r.paymentUrl)
  {
    var reply := AsSubmitReply(r);
    assert Checkout.Accepted(reply) <==> r.Initiated?;
  }

  /** Every other answer ends in an alert: a refusal shows the gateway's
      message, and a 500 always shows the same text. */
  lemma CheckoutAlertsOnFailure(r: Controller.CreateResult)
    ensures r.CreateFailed? ==>
              Checkout.SubmissionOutcome(AsSubmitReply(r)) == Checkout.Notice("Payment failed: " + Controller.ProcessingFailed)
    ensures r.Declined? ==>
              Checkout.SubmissionOutcome(AsSubmitReply(r)) == Checkout.Notice("Payment failed: " + OrElse(r.error, "Unknown error"))
  {
    if r.CreateFailed? {
      assert OrElse(Some(Controller.ProcessingFailed), "Unknown error") == Controller.ProcessingFailed;
    }
  }

  // ---------------------------------------------------------------------
  // Status endpoint to processing and return views
  // ---------------------------------------------------------------------

  /** The status endpoint's answer as the processing view's poll reads it:
      a 404 body has no `status`. */
  function AsPollReply(r: Controller.StatusResult): Processing.PollReply
  {
    match r
    case StatusFound(record, _) => Processing.Polled(true, record.status)
    case PaymentNotFound(_) => Processing.Polled(false, None)
  }

  /** The status endpoint's answer as the return view reads it. An
      exception's message that the model does not know is left absent. */
  function AsReturnReply(r: Controller.StatusResult): ReturnView.ReturnReply
  {
    match r
    case StatusFound(record, _) =>
      ReturnView.Fetched(true, ReturnView.StatusBody(record.status, record.resultMessage, None, None))
    case PaymentNotFound(message) =>
      ReturnView.Fetched(false, ReturnView.StatusBody(None, None, message, Some("Payment not found")))
  }

  /** An order number from the checkout view survives the trip through
      the return route. */
  lemma OrderNumberHandOver(now: nat)
    ensures ReturnView.OrderNoParam(ReturnRoute(Checkout.OrderNumber(now))) == Some(Checkout.OrderNumber(now))
  {
    var o := Checkout.OrderNumber(now);
    assert '&' !in o && '#' !in o by {
      forall i | 0 <= i < |o| ensures o[i] != '&' && o[i] != '#' {
        if i < 3 {
          assert o[i] == "ORD"[i];
        }
      }
    }
    ReturnView.ReturnRouteRoundTrip(o);
  }

  /** The poll leaves the processing view exactly when the stored record
      is settled. */
  lemma PollFollowsRecord(orderNo: string, r: Controller.StatusResult)
    ensures Processing.PollDecision(orderNo, AsPollReply(r)).Leave? <==>
              r.StatusFound? && Processing.Settled(r.record.status)
  {
  }

  /** After the poll's navigation, the return view shows success exactly
      when the status endpoint reports a SUCCESS record for the order, and
      failure exactly when it reports a FAILED record or no record at all. */
  lemma ReturnFollowsRecord(now: nat, r: Controller.StatusResult)
    ensures var view := ReturnView.Resolve(ReturnView.OrderNoParam(ReturnRoute(Checkout.OrderNumber(now))), AsReturnReply(r));
            && (view.status == ReturnView.Success <==> r.StatusFound? && r.record.status == Some("SUCCESS"))
            && (view.status == ReturnView.Failed <==>
                  r.PaymentNotFound? || r.record.status == Some("FAILED"))
            && (view.status == ReturnView.Pending <==> r.StatusFound? && !Processing.Settled(r.record.status))
  {
    OrderNumberHandOver(now);
  }
}
