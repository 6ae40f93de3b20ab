/** `PaymentController` (backend/src/java/com/example/payment/controller/PaymentController.java):
    the create, notify and status endpoints over the payments table, with
    the gateway's replies given as inputs. */
module Controller {
  import opened Wrappers
  import opened Text
  import opened PaymentApi
  import opened PaymentEntity
  import opened PaymentStore

  const MallId := "T0001995"
  const DefaultWallet := "ALIPAY_CN"
  /** The `error` of the create endpoint's 500 body. */
  const ProcessingFailed := "Payment processing failed"

  /** What `restTemplate.exchange` yields: a response whose JSON body may be
      null, read as a map from key to string (a missing key and a JSON null
      are both `get` = null), or an exception from the call. */
  datatype GatewayReply = Replied(body: Option<map<string, string>>) | Unreachable

  /** The gateway accepted the call: the body is present and its `resCd`
      is "0000". */
  predicate Accepted(reply: GatewayReply)
  {
    reply.Replied? && reply.body.Some? && Get(reply.body.value, "resCd") == Some("0000")
  }

  // ---------------------------------------------------------------------
  // Building the create call
  // ---------------------------------------------------------------------

  predicate IsHex(c: char) { '0' <= c <= '9' || 'a' <= c <= 'f' }

  /** The text of a `java.util.UUID`: 32 lower-case hex digits in groups of
      8-4-4-4-12 joined by hyphens. */
  predicate IsUuid(u: string)
  {
    && |u| == 36
    && forall i :: 0 <= i < |u| ==>
         if i == 8 || i == 13 || i == 18 || i == 23 then u[i] == '-' else IsHex(u[i])
  }

  /** `uuid.replace("-", "").substring(0, 10)`: the first eight digits and
      the two after the first hyphen. */
  function ShopTransactionId(uuid: string): (r: string)
    requires IsUuid(uuid)
    ensures |r| == 10 && '-' !in r
    ensures r == uuid[..8] + uuid[9..11]
    ensures forall i :: 0 <= i < |r| ==> IsHex(r[i])
  {
    DashesRemoved(uuid);
    RemoveChar(uuid, '-')[..10]
  }

  /** Removing the hyphens from a UUID: the first group, then the second,
      then whatever the rest leaves. */
  lemma DashesRemoved(uuid: string)
    requires IsUuid(uuid)
    ensures RemoveChar(uuid, '-') == uuid[..8] + uuid[9..13] + Filter(uuid[13..], Other('-'))
  {
    var head, mid := uuid[..8], uuid[9..13];
    assert uuid == head + [uuid[8]] + mid + uuid[13..];
    assert forall i :: 0 <= i < |head| ==> IsHex(head[i]) by {
      forall i | 0 <= i < |head| ensures IsHex(head[i]) {
        assert head[i] == uuid[i];
      }
    }
    assert forall i :: 0 <= i < |mid| ==> IsHex(mid[i]) by {
      forall i | 0 <= i < |mid| ensures IsHex(mid[i]) {
        assert mid[i] == uuid[9 + i];
      }
    }
    HexKeptWhole(head);
    HexKeptWhole(mid);
    FilterSkipsOne(head, uuid[8], mid, uuid[13..], Other('-'));
  }

  /** Hex digits hold no hyphen, so removing hyphens keeps them all. */
  lemma HexKeptWhole(s: string)
    requires forall i :: 0 <= i < |s| ==> IsHex(s[i])
    ensures Filter(s, Other('-')) == s
  {
    FilterKeepsAll(s, Other('-'));
  }

  /** Filtering `a + [d] + b + c` when `d` is dropped. */
  lemma FilterSkipsOne(a: string, d: char, b: string, c: string, keep: char -> bool)
    requires !keep(d)
    ensures Filter(a + [d] + b + c, keep) == Filter(a, keep) + Filter(b, keep) + Filter(c, keep)
  {
    FilterAppend(a + [d] + b, c, keep);
    FilterAppend(a + [d], b, keep);
    FilterAppend(a, [d], keep);
    assert Filter([d], keep) == [] by {
      assert [d][1..] == [];
    }
  }

  /** Java string concatenation of a possibly null reference. */
  function JavaString(s: Option<string>): string
  {
    match s
    case Some(v) => v
    case None => "null"
  }

  /** The wallet given in the request, or ALIPAY_CN when it is null. */
  function WalletOrDefault(w: Option<string>): (r: string)
    ensures w.Some? ==> r == w.value
    ensures w.None? ==> r == DefaultWallet
  {
    if w.Some? then w.value else DefaultWallet
  }

  /** The body of the create call to the gateway. */
  datatype GatewayCreateRequest = GatewayCreateRequest(
    mallId: string,
    shopTransactionId: string,
    shopOrderNo: Option<string>,
    goodsName: Option<string>,
    goodsDetail: Option<string>,
    returnUrl: string,
    notifyUrl: Option<string>,
    walletBrandName: string,
    terminalType: string,
    currency: Option<string>,
    totAmount: Option<int>)

  function CreateRequestFor(req: PaymentRequest, shopTransactionId: string): (g: GatewayCreateRequest)
    ensures g.mallId == MallId && g.terminalType == "WEB"
    ensures g.shopTransactionId == shopTransactionId && g.shopOrderNo == req.orderNo
    ensures g.returnUrl == JavaString(req.returnUrl) + "?orderNo=" + JavaString(req.orderNo)
    ensures g.walletBrandName == WalletOrDefault(req.walletBrandName)
    ensures g.currency == req.currency && g.totAmount == req.totalAmount
  {
    GatewayCreateRequest(
      mallId := MallId,
      shopTransactionId := shopTransactionId,
      shopOrderNo := req.orderNo,
      goodsName := req.goodsName,
      goodsDetail := req.goodsDetail,
      returnUrl := JavaString(req.returnUrl) + "?orderNo=" + JavaString(req.orderNo),
      notifyUrl := req.notifyUrl,
      walletBrandName := WalletOrDefault(req.walletBrandName),
      terminalType := "WEB",
      currency := req.currency,
      totAmount := req.totalAmount)
  }

  /** The record the create endpoint fills through the setters before
      saving it. */
  function NewRecord(req: PaymentRequest, shopTransactionId: string, body: map<string, string>): PaymentRow
  {
    EmptyRow.(
      orderNo := req.orderNo,
      shopTransactionId := Some(shopTransactionId),
      pgCno := Get(body, "pgCno"),
      goodsName := req.goodsName,
      goodsDetail := req.goodsDetail,
      currency := req.currency,
      totalAmount := req.totalAmount,
      paymentUrl := Get(body, "paymentPageUrl"),
      walletBrandName := Some(WalletOrDefault(req.walletBrandName)),
      status := Some("PENDING"))
  }

  /** The row a successful create stores under `key`. */
  function SavedRecord(req: PaymentRequest, shopTransactionId: string, body: map<string, string>,
                       now: Timestamp, key: nat): (r: PaymentRow)
    ensures r.id == Some(key) && r.status == Some("PENDING") && r.createdAt == Some(now)
    ensures r.orderNo == req.orderNo && r.shopTransactionId == Some(shopTransactionId)
    ensures r.goodsName == req.goodsName && r.goodsDetail == req.goodsDetail
    ensures r.currency == req.currency && r.totalAmount == req.totalAmount
    ensures r.walletBrandName == Some(WalletOrDefault(req.walletBrandName))
    ensures r.pgCno == Get(body, "pgCno") && r.paymentUrl == Get(body, "paymentPageUrl")
    ensures r.resultCode.None? && r.resultMessage.None? && r.statusCode.None?
    ensures r.approvalDate.None? && r.updatedAt.None?
  {
    Created(NewRecord(req, shopTransactionId, body), now).(id := Some(key))
  }

  /** The answer of the create endpoint: 200 with `success: true` and the
      gateway's links, 200 with `success: false` and an error, or 500 when
      anything on the way threw. */
  datatype CreateResult =
    | Initiated(paymentUrl: Option<string>, normalUrl: Option<string>, transactionId: string, pgCno: Option<string>)
    | Declined(error: Option<string>)
    | CreateFailed

  /** The create endpoint's decision, given the table it saves into. */
  function CreateOutcome(req: PaymentRequest, shopTransactionId: string, reply: GatewayReply,
                         rows: map<nat, PaymentRow>, nextId: nat, now: Timestamp): (r: CreateResult)
    ensures r.Initiated? <==>
              Accepted(reply) && req.totalAmount.Some?
              && Admissible(rows, nextId, SavedRecord(req, shopTransactionId, reply.body.value, now, nextId))
    ensures r.Initiated? ==>
              r.transactionId == shopTransactionId
              && r.paymentUrl == Get(reply.body.value, "paymentPageUrl")
              && r.normalUrl == Get(reply.body.value, "normalUrl")
              && r.pgCno == Get(reply.body.value, "pgCno")
    ensures r.Declined? <==> reply.Replied? && !Accepted(reply)
    ensures r.Declined? ==> r.error == (if reply.body.None? then Some("Unknown error") else Get(reply.body.value, "resMsg"))
  {
    match reply
    case Unreachable => CreateFailed
    case Replied(body) =>
      if !Accepted(reply) then
        Declined(if body.None? then Some("Unknown error") else Get(body.value, "resMsg"))
      else if req.totalAmount.None? then CreateFailed
      else if !Admissible(rows, nextId, SavedRecord(req, shopTransactionId, body.value, now, nextId)) then CreateFailed
      else Initiated(Get(body.value, "paymentPageUrl"), Get(body.value, "normalUrl"), shopTransactionId, Get(body.value, "pgCno"))
  }

  // ---------------------------------------------------------------------
  // Statuses
  // ---------------------------------------------------------------------

  /** The three statuses a record takes. */
  predicate KnownStatus(s: Option<string>)
  {
    s == Some("PENDING") || s == Some("SUCCESS") || s == Some("FAILED")
  }

  ghost predicate StatusesKnown(rows: map<nat, PaymentRow>)
  {
    forall k :: k in rows ==> KnownStatus(rows[k].status)
  }

  /** The notify webhook's verdict on the gateway's result code. */
  function StatusForResult(resultCode: Option<string>): (r: string)
    ensures KnownStatus(Some(r)) && r != "PENDING"
    ensures r == "SUCCESS" <==> resultCode == Some("0000")
  {
    if resultCode == Some("0000") then "SUCCESS" else "FAILED"
  }

  /** A record after a notification: its result code and message replaced,
      its status decided by the code. */
  function Notified(row: PaymentRow, resultCode: Option<string>, resultMessage: Option<string>): (r: PaymentRow)
    ensures r.status == Some(StatusForResult(resultCode))
    ensures r.resultCode == resultCode && r.resultMessage == resultMessage
    ensures r.(status := row.status, resultCode := row.resultCode, resultMessage := row.resultMessage) == row
  {
    row.(resultCode := resultCode, resultMessage := resultMessage, status := Some(StatusForResult(resultCode)))
  }

  /** `statusCd.trim().replace(" ", "")`. */
  function NormalisedStatusCode(s: string): (r: string)
    ensures ' ' !in r
    ensures r == [] || (!Blank(r[0]) && !Blank(r[|r| - 1]))
  {
    var t := Trim(s);
    FilterEnds(t, Other(' '));
    RemoveChar(t, ' ')
  }

  /** When the first and last elements are kept, they stay first and last. */
  lemma FilterEnds(s: string, keep: char -> bool)
    requires s != [] ==> keep(s[0]) && keep(s[|s| - 1])
    ensures var r := Filter(s, keep);
            s != [] ==> r != [] && r[0] == s[0] && r[|r| - 1] == s[|s| - 1]
  {
    if s != [] {
      assert s == s[..|s| - 1] + [s[|s| - 1]];
      FilterAppend(s[..|s| - 1], [s[|s| - 1]], keep);
      assert Filter([s[|s| - 1]], keep) == [s[|s| - 1]];
    }
  }

  /** Normalising a normalised code changes nothing. */
  lemma NormalisedStatusCodeIdempotent(s: string)
    ensures NormalisedStatusCode(NormalisedStatusCode(s)) == NormalisedStatusCode(s)
  {
    var r := NormalisedStatusCode(s);
    TrimUnchanged(r);
    FilterKeepsAll(r, Other(' '));
  }

  /** When the only blanks in a code are spaces, `trim` removes nothing that
      `replace(" ", "")` would keep: the normalised code is the code with
      every space taken out, wherever it stood. */
  lemma NormalisedSpacedCode(s: string)
    requires forall i :: 0 <= i < |s| && Blank(s[i]) ==> s[i] == ' '
    ensures NormalisedStatusCode(s) == RemoveChar(s, ' ')
  {
    var pre, post := TrimSplits(s);
    forall i | 0 <= i < |pre| ensures !Other(' ')(pre[i]) {
      assert pre[i] == s[i];
    }
    forall i | 0 <= i < |post| ensures !Other(' ')(post[i]) {
      assert post[i] == s[|pre| + |Trim(s)| + i];
    }
    FilterBetween(pre, Trim(s), post, Other(' '));
  }


  /** The record status for a normalised `statusCd`. */
  function StatusForCode(code: string): (r: string)
    ensures KnownStatus(Some(r))
    ensures r == "SUCCESS" <==> code == "TS01"
    ensures r == "PENDING" <==> code == "TS00"
  {
    if code == "TS01" then "SUCCESS" else if code == "TS00" then "PENDING" else "FAILED"
  }

  /** The approval date in a find reply: "approvalDate", else "approval Date". */
  function ApprovalDateIn(body: map<string, string>): Option<string>
  {
    if Get(body, "approvalDate").Some? then Get(body, "approvalDate") else Get(body, "approval Date")
  }

  /** A record after an accepted find reply. */
  function Refreshed(row: PaymentRow, body: map<string, string>): (r: PaymentRow)
    ensures r.resultCode == Get(body, "resCd") && r.resultMessage == Get(body, "resMsg")
    ensures Get(body, "statusCd").Some? ==>
              var code := NormalisedStatusCode(Get(body, "statusCd").value);
              r.statusCode == Some(code) && r.status == Some(StatusForCode(code))
    ensures Get(body, "statusCd").None? ==> r.status == row.status && r.statusCode == row.statusCode
    ensures r.approvalDate == (if ApprovalDateIn(body).Some? then ApprovalDateIn(body) else row.approvalDate)
    ensures r.walletBrandName == (if Get(body, "walletBrandName").Some? then Get(body, "walletBrandName") else row.walletBrandName)
    ensures r.(resultCode := row.resultCode, resultMessage := row.resultMessage, status := row.status,
               statusCode := row.statusCode, approvalDate := row.approvalDate,
               walletBrandName := row.walletBrandName) == row
  {
    var withResult := row.(resultCode := Get(body, "resCd"), resultMessage := Get(body, "resMsg"));
    var withStatus :=
      match Get(body, "statusCd")
      case None => withResult
      case Some(raw) =>
        var code := NormalisedStatusCode(raw);
        withResult.(status := Some(StatusForCode(code)), statusCode := Some(code));
    var withDate := if ApprovalDateIn(body).Some? then withStatus.(approvalDate := ApprovalDateIn(body)) else withStatus;
    match Get(body, "walletBrandName")
    case None => withDate
    case Some(w) => withDate.(walletBrandName := Some(w))
  }

  /** A stored record whose status is known keeps a known status through a
      refresh and through a notification. */
  lemma UpdatesKeepStatusKnown(row: PaymentRow, body: map<string, string>, code: Option<string>, msg: Option<string>, now: Timestamp)
    requires KnownStatus(row.status)
    ensures KnownStatus(Flushed(row, Refreshed(row, body), now).status)
    ensures KnownStatus(Flushed(row, Notified(row, code, msg), now).status)
  {
  }

  /** A refresh or a notification leaves the identifying columns alone, so
      saving it can only fail on the wallet name's length. */
  lemma {:induction false} UpdateAdmissible(rows: map<nat, PaymentRow>, nextId: nat, key: nat, row: PaymentRow)
    requires TableValid(rows, nextId) && key in rows
    requires row.id == rows[key].id && row.orderNo == rows[key].orderNo
    requires row.shopTransactionId == rows[key].shopTransactionId && row.pgCno == rows[key].pgCno
    requires row.createdAt == rows[key].createdAt && row.status.Some?
    ensures Admissible(rows, key, row) <==>
              (row.walletBrandName.Some? ==> |row.walletBrandName.value| <= 50)
  {
  }

  /** Storing a row with a known status keeps every status known. */
  lemma StoreKeepsKnown(rows: map<nat, PaymentRow>, key: nat, row: PaymentRow)
    requires StatusesKnown(rows) && KnownStatus(row.status)
    ensures StatusesKnown(rows[key := row])
  {
  }

  // ---------------------------------------------------------------------
  // Replies
  // ---------------------------------------------------------------------

  /** The webhook's answer: 200 "0000"/"OK", or 500 "9999"/"Error". */
  datatype NotifyAck = NotifyAck(httpStatus: int, resCd: string, resMsg: string)

  const NotifyOk := NotifyAck(200, "0000", "OK")
  const NotifyError := NotifyAck(500, "9999", "Error")

  /** The status endpoint's answer: 200 with the record and the gateway's
      reply, or 404 "Payment not found" with the exception's message (known
      only when the order has no record). */
  datatype StatusResult =
    | StatusFound(record: PaymentRow, gateway: Option<map<string, string>>)
    | PaymentNotFound(message: Option<string>)

  class PaymentController {
    const repo: PaymentRepository

    ghost predicate Valid()
      reads this, repo
    {
      repo.Valid() && StatusesKnown(repo.rows)
    }

    constructor (repo: PaymentRepository)
      requires repo.Valid() && StatusesKnown(repo.rows)
      ensures this.repo == repo && Valid()
    {
      this.repo := repo;
    }

    /** The setter calls that fill a new record from the request and the
        gateway's reply. */
    method NewPayment(req: PaymentRequest, shopTransactionId: string, body: map<string, string>)
      returns (payment: Payment)
      ensures fresh(payment) && payment.Snapshot() == NewRecord(req, shopTransactionId, body)
    {
      payment := new Payment();
      payment.SetOrderNo(req.orderNo);
      payment.SetShopTransactionId(Some(shopTransactionId));
      payment.SetPgCno(Get(body, "pgCno"));
      payment.SetGoodsName(req.goodsName);
      payment.SetGoodsDetail(req.goodsDetail);
      payment.SetCurrency(req.currency);
      payment.SetTotalAmount(req.totalAmount);
      payment.SetPaymentUrl(Get(body, "paymentPageUrl"));
      payment.SetWalletBrandName(Some(WalletOrDefault(req.walletBrandName)));
      payment.SetStatus(Some("PENDING"));
    }

    /** The setter calls that copy an accepted find reply onto a record. */
    method ApplyFindReply(payment: Payment, data: map<string, string>)
      modifies payment
      ensures payment.Snapshot() == Refreshed(old(payment.Snapshot()), data)
    {
      payment.SetResultCode(Get(data, "resCd"));
      payment.SetResultMessage(Get(data, "resMsg"));
      var statusCode := Get(data, "statusCd");
      if statusCode.Some? {
        var code := NormalisedStatusCode(statusCode.value);
        if code == "TS01" {
          payment.SetStatus(Some("SUCCESS"));
        } else if code == "TS00" {
          payment.SetStatus(Some("PENDING"));
        } else {
          payment.SetStatus(Some("FAILED"));
        }
        payment.SetStatusCode(Some(code));
      }
      var approvalDate := Get(data, "approvalDate");
      if approvalDate.None? {
        approvalDate := Get(data, "approval Date");
      }
      if approvalDate.Some? {
        payment.SetApprovalDate(approvalDate);
      }
      var walletBrandName := Get(data, "walletBrandName");
      if walletBrandName.Some? {
        payment.SetWalletBrandName(walletBrandName);
      }
    }

    /** `POST /api/payment/alipay`. `uuid` is the value of
        `UUID.randomUUID()`, `reply` the gateway's answer to the create
        call built here, `now` the clock. */
    method ProcessAlipayPayment(req: PaymentRequest, uuid: string, reply: GatewayReply, now: Timestamp)
      returns (outgoing: GatewayCreateRequest, result: CreateResult)
      requires Valid() && IsUuid(uuid)
      modifies repo
      ensures Valid()
      ensures outgoing == CreateRequestFor(req, ShopTransactionId(uuid))
      ensures result == CreateOutcome(req, ShopTransactionId(uuid), reply, old(repo.rows), old(repo.nextId), now)
      ensures result.Initiated? ==>
                repo.rows == old(repo.rows)[old(repo.nextId) :=
                  SavedRecord(req, ShopTransactionId(uuid), reply.body.value, now, old(repo.nextId))]
      ensures !result.Initiated? ==> repo.rows == old(repo.rows)
    {
      var shopTransactionId := ShopTransactionId(uuid);
      outgoing := CreateRequestFor(req, shopTransactionId);
      if reply.Unreachable? {
        return outgoing, CreateFailed;
      }
      var body := reply.body;
      if body.Some? && Get(body.value, "resCd") == Some("0000") {
        if req.totalAmount.None? {
          return outgoing, CreateFailed;
        }
        var payment := NewPayment(req, shopTransactionId, body.value);
        ghost var saved := SavedRecord(req, shopTransactionId, body.value, now, repo.nextId);
        assert Created(payment.Snapshot(), now).(id := Some(repo.nextId)) == saved;
        StoreKeepsKnown(repo.rows, repo.nextId, saved);
        var ok := repo.Save(payment, now);
        if ok {
          result := Initiated(Get(body.value, "paymentPageUrl"), Get(body.value, "normalUrl"),
                              shopTransactionId, Get(body.value, "pgCno"));
        } else {
          result := CreateFailed;
        }
      } else {
        result := Declined(if body.None? then Some("Unknown error") else Get(body.value, "resMsg"));
      }
    }

    /** `POST /api/payment/notify` with the webhook's JSON body. */
    method HandlePaymentNotification(data: map<string, string>, now: Timestamp) returns (ack: NotifyAck)
      requires Valid()
      modifies repo
      ensures Valid()
      ensures var keys := KeysOfTransaction(old(repo.rows), Get(data, "shopTransactionId"));
              && (ack == NotifyError <==> |keys| >= 2)
              && (ack != NotifyError ==> ack == NotifyOk)
              && (|keys| != 1 ==> repo.rows == old(repo.rows))
              && (forall k :: keys == {k} ==>
                    repo.rows == old(repo.rows)[k := Flushed(old(repo.rows)[k],
                                   Notified(old(repo.rows)[k], Get(data, "resCd"), Get(data, "resMsg")), now)])
    {
      var shopTransactionId := Get(data, "shopTransactionId");
      var resultCode := Get(data, "resCd");
      var resultMessage := Get(data, "resMsg");
      ghost var keys := KeysOfTransaction(repo.rows, shopTransactionId);
      var payment, ambiguous := repo.FindByShopTransactionId(shopTransactionId);
      if ambiguous {
        return NotifyError;
      }
      if payment != null {
        ghost var key := payment.id.value;
        ghost var stored := repo.rows[key];
        payment.SetResultCode(resultCode);
        payment.SetResultMessage(resultMessage);
        payment.SetStatus(Some(StatusForResult(resultCode)));
        assert payment.Snapshot() == Notified(stored, resultCode, resultMessage);
        UpdatesKeepStatusKnown(stored, map[], resultCode, resultMessage, now);
        UpdateAdmissible(repo.rows, repo.nextId, key, Flushed(stored, payment.Snapshot(), now));
        StoreKeepsKnown(repo.rows, key, Flushed(stored, payment.Snapshot(), now));
        ghost var oldRows := repo.rows;
        var ok := repo.Save(payment, now);
        assert ok;
        assert keys == {key};
        forall k | keys == {k}
          ensures repo.rows == oldRows[k := Flushed(oldRows[k], Notified(oldRows[k], resultCode, resultMessage), now)]
        {
          assert k in keys;
        }
      }
      ack := NotifyOk;
    }

    /** `GET /api/payment/status/{orderNo}`. `reply` is the gateway's
        answer to the find call for the stored record. */
    method GetPaymentStatus(orderNo: string, reply: GatewayReply, now: Timestamp) returns (result: StatusResult)
      requires Valid()
      modifies repo
      ensures Valid()
      ensures KeysOfOrder(old(repo.rows), orderNo) == {} ==>
                result == PaymentNotFound(Some("Payment not found for order: " + orderNo))
                && repo.rows == old(repo.rows)
      ensures forall k :: KeysOfOrder(old(repo.rows), orderNo) == {k} ==>
                var stored := old(repo.rows)[k];
                && (reply.Unreachable? ==> result == PaymentNotFound(None) && repo.rows == old(repo.rows))
                && (reply.Replied? && !Accepted(reply) ==>
                      result == StatusFound(stored, reply.body) && repo.rows == old(repo.rows))
                && (Accepted(reply) ==>
                      var row := Flushed(stored, Refreshed(stored, reply.body.value), now);
                      if row.walletBrandName.Some? ==> |row.walletBrandName.value| <= 50
                      then result == StatusFound(row, reply.body) && repo.rows == old(repo.rows)[k := row]
                      else result == PaymentNotFound(None) && repo.rows == old(repo.rows))
    {
      var payment := repo.FindByOrderNo(orderNo);
      if payment == null {
        return PaymentNotFound(Some("Payment not found for order: " + orderNo));
      }
      ghost var key := payment.id.value;
      ghost var stored := repo.rows[key];
      if reply.Unreachable? {
        return PaymentNotFound(None);
      }
      var body := reply.body;
      if body.Some? && Get(body.value, "resCd") == Some("0000") {
        var data := body.value;
        ApplyFindReply(payment, data);
        assert payment.Snapshot() == Refreshed(stored, data);
        UpdatesKeepStatusKnown(stored, data, None, None, now);
        UpdateAdmissible(repo.rows, repo.nextId, key, Flushed(stored, payment.Snapshot(), now));
        StoreKeepsKnown(repo.rows, key, Flushed(stored, payment.Snapshot(), now));
        var ok := repo.Save(payment, now);
        if !ok {
          return PaymentNotFound(None);
        }
      }
      result := StatusFound(payment.Snapshot(), body);
      forall k | KeysOfOrder(old(repo.rows), orderNo) == {k} ensures k == key {
        assert key in KeysOfOrder(old(repo.rows), orderNo);
      }
    }
  }
}
