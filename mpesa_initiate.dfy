/** Starting an M-Pesa payment for an existing sale: the sale's total and number are sent
    to the gateway, and the checkout request id it hands back is stored on the sale so the
    later callback can find it. */
module MpesaInitiate {
  import opened Schema
  import opened MpesaLib

  /** The request body; a field that is missing or not a string is `None`. */
  datatype InitiateRequest = InitiateRequest(saleId: Option<string>, phoneNumber: Option<string>)

  /** `InvalidRequest` is the schema failure, which the handler's catch-all turns into a 500. */
  datatype InitiateError = Unauthorized | InvalidRequest | SaleNotFound | PaymentFailed(message: string)

  function StatusCode(e: InitiateError): (code: int)
    ensures code == 401 <==> e.Unauthorized?
    ensures code == 404 <==> e.SaleNotFound?
    ensures code == 500 <==> e.InvalidRequest? || e.PaymentFailed?
  {
    match e
    case Unauthorized => 401
    case SaleNotFound => 404
    case InvalidRequest => 500
    case PaymentFailed(_) => 500
  }

  /** The success reply: the checkout request id and the gateway's message to the customer. */
  datatype Initiated = Initiated(checkoutRequestId: Option<string>, message: Option<string>)

  /** The request schema: a sale id, and a phone number of at least ten characters. */
  predicate RequestValid(req: InitiateRequest) {
    req.saleId.Some? && req.phoneNumber.Some? && |req.phoneNumber.value| >= 10
  }

  function Description(saleNumber: string): string {
    "Payment for " + saleNumber
  }

  /** The sale after the gateway accepted a push: its payment code becomes the checkout
      request id. An absent id leaves the stored code as it was (the update then names no
      value for the column). */
  function AwaitingCallback(sale: Sale, checkoutRequestId: Option<string>): (s: Sale)
    ensures s.mpesaCode == if checkoutRequestId.Some? then checkoutRequestId else sale.mpesaCode
    ensures s.(mpesaCode := sale.mpesaCode) == sale
  {
    if checkoutRequestId.Some? then sale.(mpesaCode := checkoutRequestId) else sale
  }

  /** Nothing about the sale's current state is checked: a cash sale that is already
      completed, with its receipt number stored, has that receipt replaced by the checkout
      request id while staying completed. */
  lemma CompletedSaleLosesReceipt(sale: Sale, receipt: string, checkoutRequestId: string)
    requires sale.paymentMethod == Cash && sale.paymentStatus == Completed
    requires sale.mpesaCode == Some(receipt) && receipt != checkoutRequestId
    ensures AwaitingCallback(sale, Some(checkoutRequestId)).paymentStatus == Completed
    ensures AwaitingCallback(sale, Some(checkoutRequestId)).mpesaCode != Some(receipt)
  {
  }

  /** POST /api/mpesa/initiate. The gateway is reached through `send` after the OAuth token
      request (`tokenIssued`); `nowIso` is the current instant. */
  method Initiate(db: Db, authorized: bool, req: InitiateRequest, cfg: MpesaConfig, tokenIssued: bool,
                  nowIso: string, send: StkPushPayload -> GatewayReply<StkPushResponse>)
    returns (r: Result<Initiated, InitiateError>)
    requires db.Valid()
    modifies db`sales
    ensures db.Valid()
    ensures r.Err? ==> db.sales == old(db.sales)
    ensures !authorized ==> r == Err(Unauthorized)
    ensures authorized && !RequestValid(req) ==> r == Err(InvalidRequest)
    ensures authorized && RequestValid(req) && FindSale(old(db.sales), req.saleId.value).None? ==>
      r == Err(SaleNotFound)
    ensures authorized && RequestValid(req) && FindSale(old(db.sales), req.saleId.value).Some? ==>
      var k := FindSale(old(db.sales), req.saleId.value).value;
      var sale := old(db.sales)[k];
      var payment := InitiatePayment(cfg, tokenIssued, nowIso, req.phoneNumber.value, sale.total,
                                     sale.saleNumber, Description(sale.saleNumber), send);
      && (payment.Err? ==> r == Err(PaymentFailed(payment.error)))
      && (payment.Ok? ==>
            && r == Ok(Initiated(payment.value.checkoutRequestId, payment.value.customerMessage))
            && db.sales == old(db.sales)[k := AwaitingCallback(sale, payment.value.checkoutRequestId)])
  {
    if !authorized {
      return Err(Unauthorized);
    }
    if !RequestValid(req) {
      return Err(InvalidRequest);
    }
    var found := FindSale(db.sales, req.saleId.value);
    if found.None? {
      return Err(SaleNotFound);
    }
    var k := found.value;
    var sale := db.sales[k];
    var payment := InitiatePayment(cfg, tokenIssued, nowIso, req.phoneNumber.value, sale.total,
                                   sale.saleNumber, Description(sale.saleNumber), send);
    if payment.Err? {
      return Err(PaymentFailed(payment.error));
    }
    var updated := AwaitingCallback(sale, payment.value.checkoutRequestId);
    ReplaceSaleKeepsInvariant(db.products, db.sales, k, updated);
    db.sales := db.sales[k := updated];
    r := Ok(Initiated(payment.value.checkoutRequestId, payment.value.customerMessage));
  }

  /** The push sent for a sale carries the sale's total and number, and the customer's phone
      number in normal form. */
  lemma PushCarriesSale(cfg: MpesaConfig, nowIso: string, phone: string, sale: Sale)
    ensures var p := StkPush(cfg, nowIso, phone, sale.total, sale.saleNumber, Description(sale.saleNumber));
      && p.amount == sale.total && p.accountReference == sale.saleNumber
      && p.transactionDesc == "Payment for " + sale.saleNumber
      && p.phoneNumber == p.partyA == FormatPhoneNumber(phone)
  {
  }
}
