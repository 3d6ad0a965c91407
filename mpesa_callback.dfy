/** The gateway's STK callback: the sale whose payment code equals one of the request ids
    is marked completed (its code becoming the receipt number) or failed. Whatever happens
    past the shape check, the gateway is told the callback was received. */
module MpesaCallback {
  import opened Schema

  datatype MetadataItem = MetadataItem(name: string, value: Option<string>)

  /** `Body.stkCallback`. `resultCode` is `Some(n)` only for a JSON number; `metadata` is
      `CallbackMetadata.Item`. */
  datatype StkCallback = StkCallback(
    merchantRequestId: string,
    checkoutRequestId: string,
    resultCode: Option<int>,
    resultDesc: string,
    metadata: Option<seq<MetadataItem>>)

  /** The request body: not JSON at all, or JSON with or without a `Body.stkCallback`. */
  datatype CallbackBody = Unparsable | Parsed(stkCallback: Option<StkCallback>)

  datatype Reply = Acknowledged | InvalidCallback

  function StatusCode(reply: Reply): (code: int)
    ensures code == 400 <==> reply.InvalidCallback?
    ensures code == 200 <==> reply.Acknowledged?
  {
    if reply.InvalidCallback? then 400 else 200
  }

  /** The first metadata item with the given name. */
  function FindItem(items: seq<MetadataItem>, name: string): (r: Option<nat>)
    ensures r.Some? ==> r.value < |items| && items[r.value].name == name
    ensures r.Some? ==> forall i :: 0 <= i < r.value ==> items[i].name != name
    ensures r.None? <==> forall i :: 0 <= i < |items| ==> items[i].name != name
  {
    if items == [] then None
    else if items[0].name == name then Some(0)
    else match FindItem(items[1..], name)
      case None => None
      case Some(i) => Some(i + 1)
  }

  /** The `Value` of the first item named MpesaReceiptNumber, if it has one. */
  function ReceiptNumber(metadata: Option<seq<MetadataItem>>): (r: Option<string>)
    ensures r.Some? ==>
      && metadata.Some?
      && exists i :: 0 <= i < |metadata.value| && metadata.value[i].name == "MpesaReceiptNumber"
                     && metadata.value[i].value == r
    ensures metadata.None? ==> r.None?
    ensures metadata.Some? ==>
      var found := FindItem(metadata.value, "MpesaReceiptNumber");
      && (found.None? ==> r.None?)
      && (found.Some? ==> r == metadata.value[found.value].value)
  {
    if metadata.None? then None
    else match FindItem(metadata.value, "MpesaReceiptNumber")
      case None => None
      case Some(i) => metadata.value[i].value
  }

  /** Does the sale's payment code equal one of the callback's request ids? */
  predicate Matches(sale: Sale, cb: StkCallback) {
    sale.mpesaCode == Some(cb.merchantRequestId) || sale.mpesaCode == Some(cb.checkoutRequestId)
  }

  /** The first sale the callback matches. */
  function FindMatch(sales: seq<Sale>, cb: StkCallback): (r: Option<nat>)
    ensures r.Some? ==> r.value < |sales| && Matches(sales[r.value], cb)
    ensures r.Some? ==> forall i :: 0 <= i < r.value ==> !Matches(sales[i], cb)
    ensures r.None? <==> forall i :: 0 <= i < |sales| ==> !Matches(sales[i], cb)
  {
    if sales == [] then None
    else if Matches(sales[0], cb) then Some(0)
    else match FindMatch(sales[1..], cb)
      case None => None
      case Some(i) => Some(i + 1)
  }

  predicate Succeeded(cb: StkCallback) {
    cb.resultCode == Some(0)
  }

  /** The matched sale after the callback: completed with the receipt number (or, without
      one, the checkout request id) as its code, or failed with its code kept. Nothing
      about its current status is consulted. */
  function Settled(sale: Sale, cb: StkCallback): (s: Sale)
    ensures s.paymentStatus == if Succeeded(cb) then Completed else Failed
    ensures Succeeded(cb) ==> s.mpesaCode == Some(OrElse(ReceiptNumber(cb.metadata), cb.checkoutRequestId))
    ensures !Succeeded(cb) ==> s.mpesaCode == sale.mpesaCode
    ensures s.(paymentStatus := sale.paymentStatus, mpesaCode := sale.mpesaCode) == sale
  {
    if Succeeded(cb) then
      sale.(paymentStatus := Completed, mpesaCode := Some(OrElse(ReceiptNumber(cb.metadata), cb.checkoutRequestId)))
    else
      sale.(paymentStatus := Failed)
  }

  datatype Outcome = Outcome(reply: Reply, sales: seq<Sale>)

  /** What a callback does to the sale table, as one function of the table and the body. */
  function Apply(sales: seq<Sale>, body: CallbackBody): (o: Outcome)
    ensures o.reply == InvalidCallback <==> body == Parsed(None)
    ensures |o.sales| == |sales|
    ensures forall i :: 0 <= i < |sales| && o.sales[i] != sales[i] ==>
      body.Parsed? && body.stkCallback.Some? && FindMatch(sales, body.stkCallback.value) == Some(i)
  {
    match body
    case Unparsable => Outcome(Acknowledged, sales)
    case Parsed(None) => Outcome(InvalidCallback, sales)
    case Parsed(Some(cb)) =>
      match FindMatch(sales, cb)
      case None => Outcome(Acknowledged, sales)
      case Some(k) => Outcome(Acknowledged, sales[k := Settled(sales[k], cb)])
  }

  /** POST /api/mpesa/callback. */
  method HandleCallback(db: Db, body: CallbackBody) returns (reply: Reply)
    requires db.Valid()
    modifies db`sales
    ensures db.Valid()
    ensures reply == Apply(old(db.sales), body).reply
    ensures db.sales == Apply(old(db.sales), body).sales
  {
    if body.Unparsable? {
      return Acknowledged;
    }
    if body.stkCallback.None? {
      return InvalidCallback;
    }
    var cb := body.stkCallback.value;
    var found := FindMatch(db.sales, cb);
    if found.None? {
      return Acknowledged;
    }
    var k := found.value;
    var updated := Settled(db.sales[k], cb);
    ReplaceSaleKeepsInvariant(db.products, db.sales, k, updated);
    db.sales := db.sales[k := updated];
    reply := Acknowledged;
  }

  /** A successful payment completes the first matching sale; its code becomes the receipt
      number, or the checkout request id when the metadata has none. No other sale changes. */
  lemma SuccessCompletes(sales: seq<Sale>, cb: StkCallback, k: nat)
    requires Succeeded(cb) && FindMatch(sales, cb) == Some(k)
    ensures var after := Apply(sales, Parsed(Some(cb))).sales;
      && after[k].paymentStatus == Completed
      && (ReceiptNumber(cb.metadata).Some? && ReceiptNumber(cb.metadata).value != "" ==>
            after[k].mpesaCode == ReceiptNumber(cb.metadata))
      && (ReceiptNumber(cb.metadata).None? ==> after[k].mpesaCode == Some(cb.checkoutRequestId))
      && forall i :: 0 <= i < |sales| && i != k ==> after[i] == sales[i]
  {
  }

  /** Any other result code fails the first matching sale and keeps its code. */
  lemma FailureFails(sales: seq<Sale>, cb: StkCallback, k: nat)
    requires !Succeeded(cb) && FindMatch(sales, cb) == Some(k)
    ensures var after := Apply(sales, Parsed(Some(cb))).sales;
      && after[k].paymentStatus == Failed && after[k].mpesaCode == sales[k].mpesaCode
      && forall i :: 0 <= i < |sales| && i != k ==> after[i] == sales[i]
  {
  }

  /** A callback that matches no sale, or that is not JSON, is acknowledged and changes nothing. */
  lemma UnmatchedIsAcknowledged(sales: seq<Sale>, body: CallbackBody)
    requires body.Unparsable? || (body.Parsed? && body.stkCallback.Some? && FindMatch(sales, body.stkCallback.value).None?)
    ensures Apply(sales, body) == Outcome(Acknowledged, sales)
  {
  }

  /** A sale that already completed is marked failed by a later failure callback for it:
      there is no terminal state. */
  lemma CompletedCanBecomeFailed(sale: Sale, cb: StkCallback)
    requires sale.paymentStatus == Completed && Matches(sale, cb) && !Succeeded(cb)
    ensures Apply([sale], Parsed(Some(cb))).sales == [sale.(paymentStatus := Failed)]
  {
  }

  /** At most one sale carries either of the callback's request ids. */
  predicate UniqueMatch(sales: seq<Sale>, cb: StkCallback) {
    forall i, j :: 0 <= i < |sales| && 0 <= j < |sales| && Matches(sales[i], cb) && Matches(sales[j], cb) ==> i == j
  }

  /** Settling a sale twice with the same callback settles it once. */
  lemma SettledIdempotent(sale: Sale, cb: StkCallback)
    ensures Settled(Settled(sale, cb), cb) == Settled(sale, cb)
  {
  }

  /** Delivering the same callback twice leaves the sales as delivering it once, when at
      most one sale carries either request id. */
  lemma RedeliveryIsHarmless(sales: seq<Sale>, cb: StkCallback)
    requires UniqueMatch(sales, cb)
    ensures var once := Apply(sales, Parsed(Some(cb))).sales;
      Apply(once, Parsed(Some(cb))).sales == once
  {
    var body := Parsed(Some(cb));
    var once := Apply(sales, body).sales;
    match FindMatch(sales, cb)
    case None =>
    case Some(k) =>
      var settled := Settled(sales[k], cb);
      assert once == sales[k := settled];
      match FindMatch(once, cb)
      case None =>
      case Some(j) =>
        assert j == k;
        SettledIdempotent(sales[k], cb);
  }

  /** Distinct payment codes are not enough for redelivery to be harmless. When one sale's
      code is the checkout request id and a later sale's code is the merchant request id, the
      first delivery completes the first sale and the second delivery completes the other:
      both end up completed under the same receipt number. */
  lemma DistinctCodesAreNotEnough(sales: seq<Sale>, cb: StkCallback, receipt: string)
    requires |sales| == 2 && cb.merchantRequestId != cb.checkoutRequestId
    requires sales[0].mpesaCode == Some(cb.checkoutRequestId)
    requires sales[1].mpesaCode == Some(cb.merchantRequestId) && sales[1].paymentStatus == Pending
    requires Succeeded(cb) && ReceiptNumber(cb.metadata) == Some(receipt)
    requires receipt != "" && receipt != cb.merchantRequestId && receipt != cb.checkoutRequestId
    ensures sales[0].mpesaCode != sales[1].mpesaCode
    ensures var once := Apply(sales, Parsed(Some(cb))).sales;
      var twice := Apply(once, Parsed(Some(cb))).sales;
      && twice != once
      && twice[0].paymentStatus == twice[1].paymentStatus == Completed
      && twice[0].mpesaCode == twice[1].mpesaCode == Some(receipt)
  {
    var once := Apply(sales, Parsed(Some(cb))).sales;
    assert FindMatch(sales, cb) == Some(0);
    assert once == [Settled(sales[0], cb), sales[1]];
    assert FindMatch(once, cb) == Some(1) by {
      assert !Matches(once[0], cb);
    }
  }
}
