/** The processing view (`PaymentProcessing` in frontend/src/App.js): it
    takes the payment handle left in session storage, sends the browser to
    the gateway, and polls the status endpoint until the payment is
    settled. */
module Processing {
  import opened Wrappers
  import opened Web

  /** What one poll gets back: the response's `ok` flag and `data.status`,
      or an exception from `fetch` or `response.json()`. */
  datatype PollReply = Polled(ok: bool, status: Option<string>) | PollThrew

  /** What the view does after one poll. */
  datatype PollStep = KeepPolling | Leave(route: string)

  /** The settled statuses that end the polling. */
  predicate Settled(status: Option<string>)
  {
    status == Some("SUCCESS") || status == Some("FAILED")
  }

  /** The decision of `checkPaymentStatus` on the reply. */
  function PollDecision(orderNo: string, reply: PollReply): (step: PollStep)
    ensures step.Leave? <==> reply.Polled? && reply.ok && Settled(reply.status)
    ensures step.Leave? ==> step.route == ReturnRoute(orderNo)
  {
    match reply
    case PollThrew => KeepPolling
    case Polled(ok, status) =>
      if ok && status == Some("SUCCESS") then Leave(ReturnRoute(orderNo))
      else if ok && status == Some("FAILED") then Leave(ReturnRoute(orderNo))
      else KeepPolling
  }

  /** The view's `status` state: the heading it shows. */
  datatype Phase = Redirecting | Waiting

  class ProcessingView {
    var paymentUrl: string
    var orderNo: string
    var phase: Phase
    var checkingStatus: bool
    var redirected: bool
    /** The two-second redirect timer is pending. */
    var timerArmed: bool
    /** The view is still on screen; leaving it clears the poll interval. */
    var mounted: bool

    predicate Valid()
      reads this
    {
      && (redirected ==> phase == Waiting && !timerArmed)
      && (!redirected ==> phase == Redirecting)
      && (timerArmed ==> paymentUrl != "" && orderNo != "")
      && (redirected ==> paymentUrl != "" && orderNo != "")
      && !checkingStatus
    }

    /** The mount effect: read the handle and, when both parts are present,
        arm the redirect timer. */
    constructor (browser: Browser)
      ensures Valid() && mounted && !redirected && phase == Redirecting
      ensures timerArmed <==> HasHandle(browser.storage)
      ensures timerArmed ==>
                paymentUrl == browser.storage[PaymentUrlKey] && orderNo == browser.storage[OrderNoKey]
      ensures !timerArmed ==> paymentUrl == "" && orderNo == ""
    {
      var url := Get(browser.storage, PaymentUrlKey);
      var storedOrderNo := Get(browser.storage, OrderNoKey);
      paymentUrl := "";
      orderNo := "";
      phase := Redirecting;
      checkingStatus := false;
      redirected := false;
      timerArmed := false;
      mounted := true;
      if Truthy(url) && Truthy(storedOrderNo) {
        paymentUrl := url.value;
        orderNo := storedOrderNo.value;
        timerArmed := true;
      }
    }

    /** The redirect timer fires: the browser goes to the gateway's page. */
    method RedirectTimerFires(browser: Browser)
      requires Valid() && timerArmed
      modifies this`redirected, this`phase, this`timerArmed, browser`location
      ensures Valid() && redirected && phase == Waiting && !timerArmed
      ensures browser.location == Some(paymentUrl)
    {
      redirected := true;
      phase := Waiting;
      timerArmed := false;
      browser.location := Some(paymentUrl);
    }

    /** One run of `checkPaymentStatus` with the reply it gets. It does
        nothing before the redirect, without an order number, while another
        check is running, or once the view is gone. */
    method CheckPaymentStatus(browser: Browser, reply: PollReply)
      requires Valid()
      modifies this`mounted, this`checkingStatus, browser`storage, browser`route, browser`fetched
      ensures Valid()
      ensures var acts := old(mounted) && redirected && orderNo != "" && !checkingStatus;
              && (!acts ==> browser.fetched == old(browser.fetched)
                            && browser.storage == old(browser.storage)
                            && browser.route == old(browser.route)
                            && mounted == old(mounted))
              && (acts ==> browser.fetched == old(browser.fetched) + [StatusUrl(orderNo)])
              && (acts ==> match PollDecision(orderNo, reply)
                           case KeepPolling =>
                             browser.storage == old(browser.storage)
                             && browser.route == old(browser.route) && mounted
                           case Leave(route) =>
                             browser.storage == old(browser.storage) - {PaymentUrlKey, OrderNoKey}
                             && browser.route == route && !mounted)
    {
      if !mounted || !redirected || orderNo == "" || checkingStatus {
        return;
      }
      checkingStatus := true;
      browser.fetched := browser.fetched + [StatusUrl(orderNo)];
      match reply {
        case PollThrew =>
        case Polled(ok, status) =>
          if ok {
            if status == Some("SUCCESS") {
              browser.storage := browser.storage - {PaymentUrlKey};
              browser.storage := browser.storage - {OrderNoKey};
              browser.route := ReturnRoute(orderNo);
              mounted := false;
            } else if status == Some("FAILED") {
              browser.storage := browser.storage - {PaymentUrlKey};
              browser.storage := browser.storage - {OrderNoKey};
              browser.route := ReturnRoute(orderNo);
              mounted := false;
            }
          }
      }
      checkingStatus := false;
    }
  }

  /** Once the polling leaves, the handle is gone from session storage, so a
      later visit to the processing view arms no redirect. */
  lemma LeavingClearsHandle(storage: map<string, string>)
    ensures !HasHandle(storage - {PaymentUrlKey, OrderNoKey})
  {
    assert PaymentUrlKey !in storage - {PaymentUrlKey, OrderNoKey};
  }
}
