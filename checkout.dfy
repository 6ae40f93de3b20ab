/** The checkout view (`Alipay` in frontend/src/App.js): the wallet choice,
    the payment request built from the cart, and what a submission does to
    the browser. */
module Checkout {
  import opened Wrappers
  import opened Text
  import Cart
  import opened Web
  import opened PaymentApi

  /** The eight options of the wallet selector. */
  datatype Wallet = AlipayCn | AlipayHk | ConnectWallet | TrueMoney | Tng | GCash | Dana | KakaoPay

  /** The option's value, sent as `walletBrandName`. */
  function WalletCode(w: Wallet): (r: string)
    ensures 0 < |r| <= 50
  {
    match w
    case AlipayCn => "ALIPAY_CN"
    case AlipayHk => "ALIPAY_HK"
    case ConnectWallet => "CONNECT_WALLET"
    case TrueMoney => "TRUEMONEY"
    case Tng => "TNG"
    case GCash => "GCASH"
    case Dana => "DANA"
    case KakaoPay => "KAKAOPAY"
  }

  /** The option whose value is `code`, if there is one. */
  function WalletFromCode(code: string): (r: Option<Wallet>)
    ensures r.Some? ==> WalletCode(r.value) == code
    ensures r.None? ==> forall w :: WalletCode(w) != code
  {
    if code == "ALIPAY_CN" then Some(AlipayCn)
    else if code == "ALIPAY_HK" then Some(AlipayHk)
    else if code == "CONNECT_WALLET" then Some(ConnectWallet)
    else if code == "TRUEMONEY" then Some(TrueMoney)
    else if code == "TNG" then Some(Tng)
    else if code == "GCASH" then Some(GCash)
    else if code == "DANA" then Some(Dana)
    else if code == "KAKAOPAY" then Some(KakaoPay)
    else None
  }

  /** Every wallet is found again from its code: the eight codes are distinct. */
  lemma WalletCodeRoundTrip(w: Wallet)
    ensures WalletFromCode(WalletCode(w)) == Some(w)
  {
    match w
    case AlipayCn =>
    case AlipayHk =>
    case ConnectWallet =>
    case TrueMoney =>
    case Tng =>
    case GCash =>
    case Dana =>
    case KakaoPay =>
  }

  /** `ORD${Date.now()}`, the clock reading given as `now`. */
  function OrderNumber(now: nat): (r: string)
    ensures |r| > 3 && r[..3] == "ORD"
    ensures forall i :: 3 <= i < |r| ==> IsDigit(r[i])
  {
    "ORD" + NatToDecimal(now)
  }

  /** Two submissions get the same order number only at the same millisecond. */
  lemma OrderNumberInjective(t1: nat, t2: nat)
    requires OrderNumber(t1) == OrderNumber(t2)
    ensures t1 == t2
  {
    assert OrderNumber(t1)[3..] == NatToDecimal(t1);
    assert OrderNumber(t2)[3..] == NatToDecimal(t2);
    NatToDecimalInjective(t1, t2);
  }

  function Names(items: seq<Cart.Item>): seq<string>
  {
    seq(|items|, i requires 0 <= i < |items| => items[i].name)
  }

  /** `${item.name} x ${item.quantity}`. */
  function Detail(item: Cart.Item): string
  {
    item.name + " x " + IntToDecimal(item.quantity)
  }

  function Details(items: seq<Cart.Item>): seq<string>
  {
    seq(|items|, i requires 0 <= i < |items| => Detail(items[i]))
  }

  /** The names joined with ", ", cut to 50 characters. */
  function GoodsName(items: seq<Cart.Item>): (r: string)
    ensures |r| <= 50 && r <= Join(Names(items), ", ")
    ensures |Join(Names(items), ", ")| <= 50 ==> r == Join(Names(items), ", ")
    ensures |Join(Names(items), ", ")| >= 50 ==> |r| == 50
  {
    Prefix(Join(Names(items), ", "), 50)
  }

  /** The "name x quantity" entries joined with ", ", cut to 100 characters. */
  function GoodsDetail(items: seq<Cart.Item>): (r: string)
    ensures |r| <= 100 && r <= Join(Details(items), ", ")
    ensures |Join(Details(items), ", ")| <= 100 ==> r == Join(Details(items), ", ")
    ensures |Join(Details(items), ", ")| >= 100 ==> |r| == 100
  {
    Prefix(Join(Details(items), ", "), 100)
  }

  /** The request body `handlePayment` sends for the current cart. */
  function PaymentRequestFor(items: seq<Cart.Item>, wallet: Wallet, now: nat, origin: string): (r: PaymentRequest)
    ensures r.orderNo == Some(OrderNumber(now)) && r.currency == Some("USD")
    ensures r.returnUrl == Some(origin + "/payment/return")
    ensures r.notifyUrl == Some(origin + "/api/payment/notify")
    ensures r.goodsName.Some? && |r.goodsName.value| <= 50
    ensures r.goodsDetail.Some? && |r.goodsDetail.value| <= 100
    ensures r.goodsName == Some(GoodsName(items)) && r.goodsDetail == Some(GoodsDetail(items))
    ensures r.totalAmount.Some?
    ensures r.totalAmount.value as real - 0.5 <= Cart.Total(items) * 100.0 < r.totalAmount.value as real + 0.5
    ensures r.walletBrandName.Some? && WalletFromCode(r.walletBrandName.value) == Some(wallet)
  {
    WalletCodeRoundTrip(wallet);
    PaymentRequest(
      orderNo := Some(OrderNumber(now)),
      goodsName := Some(GoodsName(items)),
      goodsDetail := Some(GoodsDetail(items)),
      returnUrl := Some(origin + "/payment/return"),
      notifyUrl := Some(origin + "/api/payment/notify"),
      currency := Some("USD"),
      totalAmount := Some(Cart.TotalAmount(items)),
      walletBrandName := Some(WalletCode(wallet)))
  }

  /** The starting cart is sent with 20350 cents and every field present. */
  lemma InitialRequest(wallet: Wallet, now: nat, origin: string)
    ensures var r := PaymentRequestFor(Cart.InitialCart(), wallet, now, origin);
            r.totalAmount == Some(20350) && r.currency == Some("USD")
            && r.orderNo == Some(OrderNumber(now)) && r.walletBrandName == Some(WalletCode(wallet))
  {
    Cart.InitialCartAmounts();
  }

  /** What `handlePayment` gets back from `fetch` and `response.json()`:
      the response's `ok` flag and the fields it reads, or an exception. */
  datatype SubmitReply =
    | Answered(ok: bool, success: bool, paymentUrl: Option<string>,
               transactionId: Option<string>, error: Option<string>)
    | SubmitThrew(message: string)

  /** What the user sees after a submission: the processing view, or an alert. */
  datatype SubmitOutcome = ToProcessing(paymentUrl: string) | Notice(text: string)

  predicate Accepted(reply: SubmitReply)
  {
    reply.Answered? && reply.ok && reply.success
  }

  /** The decision of `handlePayment` on the reply. */
  function SubmissionOutcome(reply: SubmitReply): (o: SubmitOutcome)
    ensures o.ToProcessing? <==> Accepted(reply) && Truthy(reply.paymentUrl)
    ensures o.ToProcessing? ==> o.paymentUrl == reply.paymentUrl.value && o.paymentUrl != ""
    ensures Accepted(reply) && !Truthy(reply.paymentUrl) ==>
              o == Notice("Payment initiated! Transaction ID: " + OrElse(reply.transactionId, "N/A"))
    ensures reply.Answered? && !Accepted(reply) ==>
              o == Notice("Payment failed: " + OrElse(reply.error, "Unknown error"))
    ensures reply.SubmitThrew? ==> o == Notice("Error processing payment: " + reply.message)
  {
    match reply
    case SubmitThrew(message) => Notice("Error processing payment: " + message)
    case Answered(ok, success, paymentUrl, transactionId, error) =>
      if ok && success then
        if Truthy(paymentUrl) then ToProcessing(paymentUrl.value)
        else Notice("Payment initiated! Transaction ID: " + OrElse(transactionId, "N/A"))
      else Notice("Payment failed: " + OrElse(error, "Unknown error"))
  }

  class CheckoutView {
    var cart: seq<Cart.Item>
    var loading: bool
    var walletType: Wallet

    constructor ()
      ensures cart == Cart.InitialCart() && !loading && walletType == AlipayCn
      ensures Cart.ValidCart(cart)
    {
      cart := Cart.InitialCart();
      loading := false;
      walletType := AlipayCn;
      Cart.InitialCartAmounts();
    }

    /** The "-" and "+" buttons. */
    method UpdateQuantity(id: int, delta: int)
      modifies this`cart
      ensures cart == Cart.UpdateQuantity(old(cart), id, delta)
      ensures Cart.ValidCart(old(cart)) ==> Cart.ValidCart(cart)
    {
      if Cart.ValidCart(cart) {
        Cart.UpdateQuantityKeepsValid(cart, id, delta);
      }
      cart := Cart.UpdateQuantity(cart, id, delta);
    }

    /** The "Remove" button. */
    method RemoveItem(id: int)
      modifies this`cart
      ensures cart == Cart.RemoveItem(old(cart), id)
      ensures Cart.ValidCart(old(cart)) ==> Cart.ValidCart(cart)
    {
      if Cart.ValidCart(cart) {
        Cart.RemoveItemKeepsValid(cart, id);
      }
      cart := Cart.RemoveItem(cart, id);
    }

    /** The wallet selector. */
    method SelectWallet(w: Wallet)
      modifies this`walletType
      ensures walletType == w
    {
      walletType := w;
    }

    /** `handlePayment`: build the request, send it, and act on the reply.
        `now` is the clock, `origin` the page origin and `reply` what the
        server answered. */
    method HandlePayment(browser: Browser, now: nat, origin: string, reply: SubmitReply)
      returns (request: PaymentRequest)
      modifies this`loading, browser
      ensures request == PaymentRequestFor(cart, walletType, now, origin)
      ensures !loading
      ensures browser.fetched == old(browser.fetched) + ["/api/payment/alipay"]
      ensures browser.location == old(browser.location)
      ensures match SubmissionOutcome(reply)
              case ToProcessing(url) =>
                && browser.storage == old(browser.storage)[PaymentUrlKey := url][OrderNoKey := OrderNumber(now)]
                && browser.route == ProcessingRoute
                && browser.alerts == old(browser.alerts)
              case Notice(text) =>
                && browser.storage == old(browser.storage)
                && browser.route == old(browser.route)
                && browser.alerts == old(browser.alerts) + [text]
    {
      loading := true;
      var orderNo := OrderNumber(now);
      request := PaymentRequestFor(cart, walletType, now, origin);
      browser.fetched := browser.fetched + ["/api/payment/alipay"];
      match reply {
        case SubmitThrew(message) =>
          browser.alerts := browser.alerts + ["Error processing payment: " + message];
        case Answered(ok, success, paymentUrl, transactionId, error) =>
          if ok && success {
            if Truthy(paymentUrl) {
              browser.storage := browser.storage[PaymentUrlKey := paymentUrl.value];
              browser.storage := browser.storage[OrderNoKey := orderNo];
              browser.route := ProcessingRoute;
            } else {
              browser.alerts := browser.alerts + ["Payment initiated! Transaction ID: " + OrElse(transactionId, "N/A")];
            }
          } else {
            browser.alerts := browser.alerts + ["Payment failed: " + OrElse(error, "Unknown error")];
          }
      }
      loading := false;
    }
  }
}
