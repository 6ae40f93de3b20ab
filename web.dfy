/** The browser state that the checkout views share: session storage, the
    router location, the page location, and what the user and the network
    have seen. */
module Web {
  import opened Wrappers

  /** JavaScript truthiness of a string that may be null or undefined. */
  predicate Truthy(v: Option<string>) { v.Some? && v.value != "" }

  /** `v || fallback`. */
  function OrElse(v: Option<string>, fallback: string): string
  {
    if Truthy(v) then v.value else fallback
  }

  const PaymentUrlKey := "paymentUrl"
  const OrderNoKey := "orderNo"
  const ProcessingRoute := "/payment/processing"

  /** The route of the return view for one order. */
  function ReturnRoute(orderNo: string): string { "/payment/return?orderNo=" + orderNo }

  /** The status endpoint for one order. */
  function StatusUrl(orderNo: string): string { "/api/payment/status/" + orderNo }

  /** A pending payment handle is stored: both keys hold non-empty strings. */
  predicate HasHandle(storage: map<string, string>)
  {
    Truthy(Get(storage, PaymentUrlKey)) && Truthy(Get(storage, OrderNoKey))
  }

  class Browser {
    /** `sessionStorage`. */
    var storage: map<string, string>
    /** The router location, path and query. */
    var route: string
    /** `window.location.href` once a view assigned it. */
    var location: Option<string>
    /** The messages shown with `alert`, in order. */
    var alerts: seq<string>
    /** The URLs requested with `fetch`, in order. */
    var fetched: seq<string>

    constructor (storage: map<string, string>, route: string)
      ensures this.storage == storage && this.route == route
      ensures location == None && alerts == [] && fetched == []
    {
      this.storage := storage;
      this.route := route;
      location := None;
      alerts := [];
      fetched := [];
    }
  }
}
