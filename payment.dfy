/** The `Payment` entity of backend/src/java/com/example/payment/entity/Payment.java:
    a mutable record whose every column may be null in memory, the column
    constraints the table declares, and the two lifecycle hooks. */
module PaymentEntity {
  import opened Wrappers

  /** `LocalDateTime.now()`, read by the caller and passed in. */
  type Timestamp = int

  /** The value of every column of one record; `None` is Java's null. */
  datatype PaymentRow = PaymentRow(    id: Option<nat>,
    orderNo: Option<string>,
    shopTransactionId: Option<string>,
    pgCno: Option<string>,
    goodsName: Option<string>,
    goodsDetail: Option<string>,
    currency: Option<string>,
    totalAmount: Option<int>,
    status: Option<string>,
    paymentUrl: Option<string>,
    resultCode: Option<string>,
    resultMessage: Option<string>,
    approvalDate: Option<string>,
    statusCode: Option<string>,
    walletBrandName: Option<string>,
    createdAt: Option<Timestamp>,
    updatedAt: Option<Timestamp>)
  /** A record as `new Payment()` leaves it. */
  const EmptyRow := PaymentRow(None, None, None, None, None, None, None, None, None, None, None, None, None, None, None, None, None)

  /** The column constraints of the `payments` table: the non-null columns
      and the 50-character limit on `walletBrandName`. Uniqueness of
      `orderNo` is a property of the whole table (see PaymentStore). */
  predicate SatisfiesColumns(row: PaymentRow)
  {
    && row.orderNo.Some?
    && row.shopTransactionId.Some?
    && row.pgCno.Some?
    && row.status.Some?
    && row.createdAt.Some?
    && (row.walletBrandName.Some? ==> |row.walletBrandName.value| <= 50)
  }

  /** `onCreate`: the record is stamped with its creation time and forced
      to PENDING, whatever status it held. */
  function Created(row: PaymentRow, now: Timestamp): (r: PaymentRow)
    ensures r.status == Some("PENDING") && r.createdAt == Some(now)
    ensures r.(status := row.status, createdAt := row.createdAt) == row
  {
    row.(createdAt := Some(now), status := Some("PENDING"))
  }

  /** `onUpdate`: only the update time changes. */
  function Touched(row: PaymentRow, now: Timestamp): (r: PaymentRow)
    ensures r.updatedAt == Some(now)
    ensures r.(updatedAt := row.updatedAt) == row
  {
    row.(updatedAt := Some(now))
  }

  /** Touching never changes the status, nor whether the column
      constraints hold. */
  lemma TouchedKeepsColumns(row: PaymentRow, now: Timestamp)
    ensures Touched(row, now).status == row.status
    ensures SatisfiesColumns(Touched(row, now)) <==> SatisfiesColumns(row)
  {
  }

  /** A new record stamped by `onCreate` meets the constraints exactly when
      its identifying columns are set and its wallet name fits. */
  lemma CreatedColumns(row: PaymentRow, now: Timestamp)
    ensures SatisfiesColumns(Created(row, now)) <==>
              row.orderNo.Some? && row.shopTransactionId.Some? && row.pgCno.Some?
              && (row.walletBrandName.Some? ==> |row.walletBrandName.value| <= 50)
  {
  }

  class Payment {
    var id: Option<nat>
    var orderNo: Option<string>
    var shopTransactionId: Option<string>
    var pgCno: Option<string>
    var goodsName: Option<string>
    var goodsDetail: Option<string>
    var currency: Option<string>
    var totalAmount: Option<int>
    var status: Option<string>
    var paymentUrl: Option<string>
    var resultCode: Option<string>
    var resultMessage: Option<string>
    var approvalDate: Option<string>
    var statusCode: Option<string>
    var walletBrandName: Option<string>
    var createdAt: Option<Timestamp>
    var updatedAt: Option<Timestamp>

    /** The values of all columns. */
    function Snapshot(): PaymentRow
      reads this
    {
      PaymentRow(id, orderNo, shopTransactionId, pgCno, goodsName, goodsDetail, currency, totalAmount, status, paymentUrl, resultCode, resultMessage, approvalDate, statusCode, walletBrandName, createdAt, updatedAt)
    }

    /** `new Payment()`: every column null. */
    constructor ()
      ensures Snapshot() == EmptyRow
    {
      id := None;
      orderNo := None;
      shopTransactionId := None;
      pgCno := None;
      goodsName := None;
      goodsDetail := None;
      currency := None;
      totalAmount := None;
      status := None;
      paymentUrl := None;
      resultCode := None;
      resultMessage := None;
      approvalDate := None;
      statusCode := None;
      walletBrandName := None;
      createdAt := None;
      updatedAt := None;
    }

    /** The entity the persistence layer builds from a stored row. */
    constructor Hydrate(row: PaymentRow)
      ensures Snapshot() == row
    {
      id := row.id;
      orderNo := row.orderNo;
      shopTransactionId := row.shopTransactionId;
      pgCno := row.pgCno;
      goodsName := row.goodsName;
      goodsDetail := row.goodsDetail;
      currency := row.currency;
      totalAmount := row.totalAmount;
      status := row.status;
      paymentUrl := row.paymentUrl;
      resultCode := row.resultCode;
      resultMessage := row.resultMessage;
      approvalDate := row.approvalDate;
      statusCode := row.statusCode;
      walletBrandName := row.walletBrandName;
      createdAt := row.createdAt;
      updatedAt := row.updatedAt;
    }

    /** `@PrePersist onCreate`. */
    method OnCreate(now: Timestamp)
      modifies this
      ensures Snapshot() == Created(old(Snapshot()), now)
    {
      createdAt := Some(now);
      status := Some("PENDING");
    }

    /** `@PreUpdate onUpdate`. */
    method OnUpdate(now: Timestamp)
      modifies this
      ensures Snapshot() == Touched(old(Snapshot()), now)
    {
      updatedAt := Some(now);
    }

    function GetId(): Option<nat>
      reads this
    {
      id
    }

    /** Sets `id` and nothing else; the getter then returns the value. */
    method SetId(v: Option<nat>)
      modifies this
      ensures Snapshot() == old(Snapshot()).(id := v)
      ensures GetId() == v
    {
      id := v;
    }

    function GetOrderNo(): Option<string>
      reads this
    {
      orderNo
    }

    /** Sets `orderNo` and nothing else; the getter then returns the value. */
    method SetOrderNo(v: Option<string>)
      modifies this
      ensures Snapshot() == old(Snapshot()).(orderNo := v)
      ensures GetOrderNo() == v
    {
      orderNo := v;
    }

    function GetShopTransactionId(): Option<string>
      reads this
    {
      shopTransactionId
    }

    /** Sets `shopTransactionId` and nothing else; the getter then returns the value. */
    method SetShopTransactionId(v: Option<string>)
      modifies this
      ensures Snapshot() == old(Snapshot()).(shopTransactionId := v)
      ensures GetShopTransactionId() == v
    {
      shopTransactionId := v;
    }

    function GetPgCno(): Option<string>
      reads this
    {
      pgCno
    }

    /** Sets `pgCno` and nothing else; the getter then returns the value. */
    method SetPgCno(v: Option<string>)
      modifies this
      ensures Snapshot() == old(Snapshot()).(pgCno := v)
      ensures GetPgCno() == v
    {
      pgCno := v;
    }

    function GetGoodsName(): Option<string>
      reads this
    {
      goodsName
    }

    /** Sets `goodsName` and nothing else; the getter then returns the value. */
    method SetGoodsName(v: Option<string>)
      modifies this
      ensures Snapshot() == old(Snapshot()).(goodsName := v)
      ensures GetGoodsName() == v
    {
      goodsName := v;
    }

    function GetGoodsDetail(): Option<string>
      reads this
    {
      goodsDetail
    }

    /** Sets `goodsDetail` and nothing else; the getter then returns the value. */
    method SetGoodsDetail(v: Option<string>)
      modifies this
      ensures Snapshot() == old(Snapshot()).(goodsDetail := v)
      ensures GetGoodsDetail() == v
    {
      goodsDetail := v;
    }

    function GetCurrency(): Option<string>
      reads this
    {
      currency
    }

    /** Sets `currency` and nothing else; the getter then returns the value. */
    method SetCurrency(v: Option<string>)
      modifies this
      ensures Snapshot() == old(Snapshot()).(currency := v)
      ensures GetCurrency() == v
    {
      currency := v;
    }

    function GetTotalAmount(): Option<int>
      reads this
    {
      totalAmount
    }

    /** Sets `totalAmount` and nothing else; the getter then returns the value. */
    method SetTotalAmount(v: Option<int>)
      modifies this
      ensures Snapshot() == old(Snapshot()).(totalAmount := v)
      ensures GetTotalAmount() == v
    {
      totalAmount := v;
    }

    function GetStatus(): Option<string>
      reads this
    {
      status
    }

    /** Sets `status` and nothing else; the getter then returns the value. */
    method SetStatus(v: Option<string>)
      modifies this
      ensures Snapshot() == old(Snapshot()).(status := v)
      ensures GetStatus() == v
    {
      status := v;
    }

    function GetPaymentUrl(): Option<string>
      reads this
    {
      paymentUrl
    }

    /** Sets `paymentUrl` and nothing else; the getter then returns the value. */
    method SetPaymentUrl(v: Option<string>)
      modifies this
      ensures Snapshot() == old(Snapshot()).(paymentUrl := v)
      ensures GetPaymentUrl() == v
    {
      paymentUrl := v;
    }

    function GetResultCode(): Option<string>
      reads this
    {
      resultCode
    }

    /** Sets `resultCode` and nothing else; the getter then returns the value. */
    method SetResultCode(v: Option<string>)
      modifies this
      ensures Snapshot() == old(Snapshot()).(resultCode := v)
      ensures GetResultCode() == v
    {
      resultCode := v;
    }

    function GetResultMessage(): Option<string>
      reads this
    {
      resultMessage
    }

    /** Sets `resultMessage` and nothing else; the getter then returns the value. */
    method SetResultMessage(v: Option<string>)
      modifies this
      ensures Snapshot() == old(Snapshot()).(resultMessage := v)
      ensures GetResultMessage() == v
    {
      resultMessage := v;
    }

    function GetApprovalDate(): Option<string>
      reads this
    {
      approvalDate
    }

    /** Sets `approvalDate` and nothing else; the getter then returns the value. */
    method SetApprovalDate(v: Option<string>)
      modifies this
      ensures Snapshot() == old(Snapshot()).(approvalDate := v)
      ensures GetApprovalDate() == v
    {
      approvalDate := v;
    }

    function GetStatusCode(): Option<string>
      reads this
    {
      statusCode
    }

    /** Sets `statusCode` and nothing else; the getter then returns the value. */
    method SetStatusCode(v: Option<string>)
      modifies this
      ensures Snapshot() == old(Snapshot()).(statusCode := v)
      ensures GetStatusCode() == v
    {
      statusCode := v;
    }

    function GetWalletBrandName(): Option<string>
      reads this
    {
      walletBrandName
    }

    /** Sets `walletBrandName` and nothing else; the getter then returns the value. */
    method SetWalletBrandName(v: Option<string>)
      modifies this
      ensures Snapshot() == old(Snapshot()).(walletBrandName := v)
      ensures GetWalletBrandName() == v
    {
      walletBrandName := v;
    }

    function GetCreatedAt(): Option<Timestamp>
      reads this
    {
      createdAt
    }

    /** Sets `createdAt` and nothing else; the getter then returns the value. */
    method SetCreatedAt(v: Option<Timestamp>)
      modifies this
      ensures Snapshot() == old(Snapshot()).(createdAt := v)
      ensures GetCreatedAt() == v
    {
      createdAt := v;
    }

    function GetUpdatedAt(): Option<Timestamp>
      reads this
    {
      updatedAt
    }

    /** Sets `updatedAt` and nothing else; the getter then returns the value. */
    method SetUpdatedAt(v: Option<Timestamp>)
      modifies this
      ensures Snapshot() == old(Snapshot()).(updatedAt := v)
      ensures GetUpdatedAt() == v
    {
      updatedAt := v;
    }
  }
}
