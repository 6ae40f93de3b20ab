/** The body of `POST /api/payment/alipay`, as the front end sends it and as
    the back end's `PaymentRequest` reads it. Every field may be missing
    (null) on the back end's side; `walletBrandName` is read by the
    controller although the request class does not declare it, so it is
    an optional field here. */
module PaymentApi {
  import opened Wrappers

  datatype PaymentRequest = PaymentRequest(
    orderNo: Option<string>,
    goodsName: Option<string>,
    goodsDetail: Option<string>,
    returnUrl: Option<string>,
    notifyUrl: Option<string>,
    currency: Option<string>,
    totalAmount: Option<int>,
    walletBrandName: Option<string>)
}
