/** The return view (`PaymentReturn` in frontend/src/App.js): it reads the
    order number from the query string, asks the status endpoint once, and
    shows the outcome. */
module ReturnView {
  import opened Wrappers
  import opened Text
  import opened Web

  /** The query string of a location (`location.search` without its `?`):
      the fragment from the first `#` on is cut off first, then the query is
      what follows the first `?` of what remains. */
  function QueryOf(url: string): (r: string)
    ensures '#' !in r
    ensures '?' !in url[..IndexOf(url, '#')] ==> r == ""
    ensures '?' !in url ==> r == ""
    ensures forall x :: x in r ==> x in url
  {
    var u := url[..IndexOf(url, '#')];
    var q := IndexOf(u, '?');
    if q == |u| then "" else
    var r := u[q + 1..];
    assert forall x :: x in r ==> x in u;
    assert forall x :: x in u ==> x in url;
    r
  }

  /** The name of a `name=value` pair: everything before its first `=`. */
  function PairName(pair: string): (r: string)
    ensures r <= pair && '=' !in r
  {
    pair[..IndexOf(pair, '=')]
  }

  /** The value of a pair: everything after its first `=`, or empty without one. */
  function PairValue(pair: string): (r: string)
    ensures forall x :: x in r ==> x in pair
  {
    var eq := IndexOf(pair, '=');
    if eq < |pair| then pair[eq + 1..] else ""
  }

  /** `URLSearchParams.get(key)` on a query string, scanning it pair by pair:
      the value of the first `&`-separated pair whose name is `key`
      (percent-decoding aside). */
  function ParamIn(query: string, key: string): (r: Option<string>)
    ensures r.Some? ==> '&' !in r.value
    ensures r.Some? ==> forall x :: x in r.value ==> x in query
    decreases |query|
  {
    var amp := IndexOf(query, '&');
    var pair := query[..amp];
    assert forall x :: x in pair ==> x in query;
    if PairName(pair) == key then Some(PairValue(pair))
    else if amp < |query| then
      var rest := query[amp + 1..];
      assert forall x :: x in rest ==> x in query;
      ParamIn(rest, key)
    else None
  }

  /** The position of the first pair named `key`, or `|pairs|` when none is. */
  function FirstNamed(pairs: seq<string>, key: string): (i: nat)
    ensures i <= |pairs|
    ensures i < |pairs| ==> PairName(pairs[i]) == key
    ensures forall j :: 0 <= j < i ==> PairName(pairs[j]) != key
  {
    if pairs == [] then 0
    else if PairName(pairs[0]) == key then 0
    else 1 + FirstNamed(pairs[1..], key)
  }

  /** The scan agrees with splitting the query on `&` and taking the first
      pair with the name: it gives that pair's value, and nothing exactly
      when no pair has the name. */
  lemma {:induction false} ParamInPairs(query: string, key: string)
    ensures var pairs := Split(query, '&');
            var i := FirstNamed(pairs, key);
            ParamIn(query, key) == (if i < |pairs| then Some(PairValue(pairs[i])) else None)
    ensures ParamIn(query, key).None? <==>
              forall j :: 0 <= j < |Split(query, '&')| ==> PairName(Split(query, '&')[j]) != key
    decreases |query|
  {
    var amp := IndexOf(query, '&');
    var pairs := Split(query, '&');
    if amp < |query| {
      var rest := query[amp + 1..];
      SplitStep(query, '&');
      assert pairs[0] == query[..amp] && pairs[1..] == Split(rest, '&');
      if PairName(query[..amp]) != key {
        ParamInPairs(rest, key);
        assert FirstNamed(pairs, key) == 1 + FirstNamed(Split(rest, '&'), key);
      }
    } else {
      assert pairs == [query] && query[..amp] == query;
      assert pairs[1..] == [];
    }
  }

  /** With the name first, `key=value&rest` gives `value` whatever follows. */
  lemma FirstPairWins(key: string, value: string, rest: string)
    requires '=' !in key && '&' !in key && '&' !in value
    ensures ParamIn(key + "=" + value + "&" + rest, key) == Some(value)
  {
    var pair := key + ("=" + value);
    assert key + "=" + value == pair;
    var query := pair + ("&" + rest);
    assert key + "=" + value + "&" + rest == query;
    NotInJoined(key, value, '&');
    IndexOfAbsent(pair, '&');
    IndexOfFirst(pair, "&" + rest, '&');
    FirstParam(key, value);
    assert IndexOf(pair, '&') == |pair| && pair[..|pair|] == pair;
  }

  /** The `orderNo` query parameter of the current location. */
  function OrderNoParam(route: string): (r: Option<string>)
    ensures r.Some? ==> '&' !in r.value && '#' !in r.value
    ensures '?' !in route ==> r.None? || r.value == ""
  {
    ParamIn(QueryOf(route), OrderNoKey)
  }

  /** The processing view's navigation hands the order number over: the
      return view reads back exactly the number the route was built from,
      for any number without the separators `&` and `#`. */
  lemma ReturnRouteRoundTrip(orderNo: string)
    requires '&' !in orderNo && '#' !in orderNo
    ensures OrderNoParam(ReturnRoute(orderNo)) == Some(orderNo)
  {
    QueryOfReturnRoute(orderNo);
    FirstParam(OrderNoKey, orderNo);
  }

  /** Any location `path?orderNo=o` gives back `o`, for a path without `?` or `#`. */
  lemma OrderNoAfterPath(path: string, orderNo: string)
    requires '?' !in path && '#' !in path && '&' !in orderNo && '#' !in orderNo
    ensures OrderNoParam(path + "?orderNo=" + orderNo) == Some(orderNo)
  {
    var query := OrderNoKey + "=" + orderNo;
    assert path + "?orderNo=" + orderNo == path + "?" + query;
    NoHashInRest(orderNo);
    QueryAfterPath(path, query);
    FirstParam(OrderNoKey, orderNo);
  }

  lemma QueryOfReturnRoute(orderNo: string)
    requires '#' !in orderNo
    ensures QueryOf(ReturnRoute(orderNo)) == OrderNoKey + "=" + orderNo
  {
    NoHashInRest(orderNo);
    var path := "/payment/return";
    assert '?' !in path && '#' !in path;
    assert ReturnRoute(orderNo) == path + "?" + (OrderNoKey + "=" + orderNo);
    QueryAfterPath(path, OrderNoKey + "=" + orderNo);
  }

  /** The query of `path?rest` is `rest` when the path has neither `?` nor `#` and the
      rest no `#`. */
  lemma QueryAfterPath(path: string, rest: string)
    requires '?' !in path && '#' !in path && '#' !in rest
    ensures QueryOf(path + "?" + rest) == rest
  {
    var url := path + ("?" + rest);
    assert path + "?" + rest == url;
    assert '#' !in url;
    IndexOfAbsent(url, '#');
    assert url[..|url|] == url;
    IndexOfAbsent(path, '?');
    IndexOfFirst(path, "?" + rest, '?');
    assert url[|path| + 1..] == rest;
    IndexOfAbsent(rest, '#');
    assert rest[..|rest|] == rest;
  }

  lemma NoHashInRest(orderNo: string)
    requires '#' !in orderNo
    ensures '#' !in OrderNoKey + "=" + orderNo
  {
    var rest := OrderNoKey + "=" + orderNo;
    forall i | 0 <= i < |rest| ensures rest[i] != '#' {
      if i >= |OrderNoKey| + 1 {
        assert rest[i] == orderNo[i - |OrderNoKey| - 1];
      }
    }
  }

  /** In `key=value` with no `&` in the value, the first pair is the whole
      string and names `key`. */
  lemma FirstParam(key: string, value: string)
    requires '=' !in key && '&' !in key && '&' !in value
    ensures ParamIn(key + "=" + value, key) == Some(value)
  {
    var query := key + ("=" + value);
    assert key + "=" + value == query;
    NotInJoined(key, value, '&');
    IndexOfAbsent(query, '&');
    var pair := query[..IndexOf(query, '&')];
    assert pair == query;
    IndexOfAbsent(key, '=');
    IndexOfFirst(key, "=" + value, '=');
    var eq := IndexOf(pair, '=');
    assert eq == |key| && eq < |pair|;
    assert pair[..eq] == key;
    assert pair[eq + 1..] == value;
  }

  /** `key=value` holds a character other than `=` only where its parts do. */
  lemma NotInJoined(key: string, value: string, c: char)
    requires c != '=' && c !in key && c !in value
    ensures c !in key + "=" + value
  {
  }

  /** A `c` right after a prefix free of `c` is the first one. */
  lemma IndexOfFirst(pre: string, post: string, c: char)
    requires IndexOf(pre, c) == |pre| && |post| > 0 && post[0] == c
    ensures IndexOf(pre + post, c) == |pre|
    ensures (pre + post)[..|pre|] == pre
  {
    if pre != [] {
      assert (pre + post)[1..] == pre[1..] + post;
      IndexOfFirst(pre[1..], post, c);
    }
  }

  /** The fields of the status endpoint's body the view reads; each may be
      missing. */
  datatype StatusBody = StatusBody(
    status: Option<string>,
    resultMessage: Option<string>,
    message: Option<string>,
    error: Option<string>)

  /** What the one status request gets back: the response's `ok` flag and
      its body, or an exception from `fetch` or `response.json()`. */
  datatype ReturnReply = Fetched(ok: bool, body: StatusBody) | FetchThrew(message: string)

  /** The messages the return view shows. */
  const NoOrderNumber := "No order number found in URL"
  const PaidMessage := "Payment successful!"
  const StillProcessing := "Payment is still being processed. Please wait..."
  const CheckBackLater := "Payment status is being verified. Please check back later."
  const FetchFailed := "Unable to fetch payment status"

  /** The view's `status` state. */
  datatype ViewStatus = Processing | Success | Failed | Pending

  /** What the view shows once the request is settled. */
  datatype Resolution = Resolution(status: ViewStatus, message: string, details: Option<StatusBody>)

  /** The decision of `fetchPaymentStatus` for the order number in the
      query and the reply to its request. */
  function Resolve(orderNo: Option<string>, reply: ReturnReply): (r: Resolution)
    ensures r.status != Processing
    ensures !Truthy(orderNo) ==> r == Resolution(Failed, NoOrderNumber, None)
    ensures Truthy(orderNo) && reply.FetchThrew? ==> r == Resolution(Failed, "Error: " + reply.message, None)
    ensures Truthy(orderNo) && reply.Fetched? && !reply.ok ==>
              r == Resolution(Failed, "Error: " + OrElse(reply.body.message, OrElse(reply.body.error, FetchFailed)), None)
    ensures r.details.Some? <==> Truthy(orderNo) && reply.Fetched? && reply.ok
    ensures r.details.Some? ==> r.details.value == reply.body
    ensures r.status == Success <==>
              Truthy(orderNo) && reply.Fetched? && reply.ok && reply.body.status == Some("SUCCESS")
    ensures r.status == Pending <==>
              Truthy(orderNo) && reply.Fetched? && reply.ok
              && reply.body.status != Some("SUCCESS") && reply.body.status != Some("FAILED")
    ensures r.status == Success ==> r.message == PaidMessage
    ensures r.details.Some? && reply.body.status == Some("FAILED") ==>
              r == Resolution(Failed, "Payment failed: " + OrElse(reply.body.resultMessage, "Unknown error"), Some(reply.body))
    ensures r.status == Pending ==>
              r.message == (if reply.body.status == Some("PENDING")
                            then StillProcessing
                            else CheckBackLater)
  {
    if !Truthy(orderNo) then Resolution(Failed, NoOrderNumber, None)
    else match reply
      case FetchThrew(message) => Resolution(Failed, "Error: " + message, None)
      case Fetched(ok, body) =>
        if !ok then
          Resolution(Failed, "Error: " + OrElse(body.message, OrElse(body.error, FetchFailed)), None)
        else if body.status == Some("SUCCESS") then Resolution(Success, PaidMessage, Some(body))
        else if body.status == Some("FAILED") then
          Resolution(Failed, "Payment failed: " + OrElse(body.resultMessage, "Unknown error"), Some(body))
        else if body.status == Some("PENDING") then
          Resolution(Pending, StillProcessing, Some(body))
        else Resolution(Pending, CheckBackLater, Some(body))
  }

  /** `getStatusColor`. */
  function StatusColor(s: ViewStatus): (r: string)
    ensures r == "#52c41a" <==> s == Success
    ensures r == "#ff4d4f" <==> s == Failed
    ensures r == "#1677ff" <==> s == Processing || s == Pending
  {
    match s
    case Success => "#52c41a"
    case Failed => "#ff4d4f"
    case _ => "#1677ff"
  }

  /** `getStatusIcon`. */
  function StatusIcon(s: ViewStatus): (r: string)
    ensures r == "✓" <==> s == Success
    ensures r == "✗" <==> s == Failed
    ensures r == "⟳" <==> s == Processing || s == Pending
  {
    match s
    case Success => "✓"
    case Failed => "✗"
    case _ => "⟳"
  }

  /** Colour and icon tell the same story: green with a tick exactly for a
      success, red with a cross exactly for a failure, and blue with the
      spinner for anything still open. */
  lemma ColorMatchesIcon(s: ViewStatus)
    ensures StatusColor(s) == "#52c41a" <==> StatusIcon(s) == "✓"
    ensures StatusColor(s) == "#ff4d4f" <==> StatusIcon(s) == "✗"
    ensures StatusColor(s) == "#1677ff" <==> StatusIcon(s) == "⟳"
    ensures StatusIcon(s) == "✓" <==> s == Success
    ensures StatusIcon(s) == "✗" <==> s == Failed
  {
  }

  class ReturnView {
    var status: ViewStatus
    var message: string
    var orderDetails: Option<StatusBody>
    var loading: bool

    constructor ()
      ensures status == Processing && message == "Verifying payment..."
      ensures orderDetails == None && loading
    {
      status := Processing;
      message := "Verifying payment...";
      orderDetails := None;
      loading := true;
    }

    /** `fetchPaymentStatus`, run once after mounting, with the reply the
        status request gets. */
    method FetchPaymentStatus(browser: Browser, reply: ReturnReply)
      modifies this, browser`fetched
      ensures var orderNo := OrderNoParam(browser.route);
              var r := Resolve(orderNo, reply);
              && status == r.status && message == r.message
              && orderDetails == (if r.details.Some? then r.details else old(orderDetails))
              && (Truthy(orderNo) ==> browser.fetched == old(browser.fetched) + [StatusUrl(orderNo.value)])
              && (!Truthy(orderNo) ==> browser.fetched == old(browser.fetched))
      ensures !loading
    {
      var orderNo := OrderNoParam(browser.route);
      if !Truthy(orderNo) {
        status := Failed;
        message := NoOrderNumber;
        loading := false;
        return;
      }
      browser.fetched := browser.fetched + [StatusUrl(orderNo.value)];
      match reply {
        case FetchThrew(m) =>
          status := Failed;
          message := "Error: " + m;
        case Fetched(ok, body) =>
          if ok {
            orderDetails := Some(body);
            if body.status == Some("SUCCESS") {
              status := Success;
              message := PaidMessage;
            } else if body.status == Some("FAILED") {
              status := Failed;
              message := "Payment failed: " + OrElse(body.resultMessage, "Unknown error");
            } else if body.status == Some("PENDING") {
              status := Pending;
              message := StillProcessing;
            } else {
              status := Pending;
              message := CheckBackLater;
            }
          } else {
            status := Failed;
            message := "Error: " + OrElse(body.message, OrElse(body.error, FetchFailed));
          }
      }
      loading := false;
    }
  }
}
