/**
 * The payment service: recording the payment gateway's order id on a stored
 * order, and confirming a payment by checking the gateway's signature over
 * "gateway order id|payment id". HMAC-SHA256 keyed with the merchant secret
 * (RFC 2104) is not computed here: it is the parameter `hmac`, applied to the
 * message and the secret, about which nothing is assumed.
 */
module PaymentService {
  import opened Shop
  import opened Repository
  import OrderService

  /** The text the gateway signs: the gateway order id, a bar, the payment id. */
  function SignedMessage(gatewayOrderId: string, paymentId: string): (msg: string)
    ensures |msg| == |gatewayOrderId| + 1 + |paymentId|
    ensures msg[..|gatewayOrderId|] == gatewayOrderId
    ensures msg[|gatewayOrderId|] == '|'
    ensures msg[|gatewayOrderId| + 1..] == paymentId
  {
    gatewayOrderId + "|" + paymentId
  }

  /**
   * When gateway order ids contain no bar, the signed message determines both
   * ids, so a signature over it binds the payment to that one gateway order.
   */
  lemma SignedMessageDeterminesIds(g1: string, p1: string, g2: string, p2: string)
    requires '|' !in g1 && '|' !in g2
    requires SignedMessage(g1, p1) == SignedMessage(g2, p2)
    ensures g1 == g2 && p1 == p2
  {
    if |g1| < |g2| {
      assert false;
    } else if |g2| < |g1| {
      assert false;
    }
  }

  /** The keys of the stored orders mapped to gateway order `gatewayOrderId`. */
  function OrdersMappedTo(orders: map<int, Order>, gatewayOrderId: string): (ks: set<int>)
    ensures forall k :: k in ks <==> k in orders && orders[k].razorpayOrderId == Some(gatewayOrderId)
  {
    set k | k in orders && orders[k].razorpayOrderId == Some(gatewayOrderId)
  }

  /** The order once paid: status PAID and the payment id recorded, whatever it was before. */
  function MarkPaid(o: Order, paymentId: string): (p: Order)
    ensures p.status == PAID && p.razorpayPaymentId == Some(paymentId)
    ensures p.(status := o.status, razorpayPaymentId := o.razorpayPaymentId) == o
  {
    o.(status := PAID, razorpayPaymentId := Some(paymentId))
  }

  /**
   * verifyPayment on the order table. A signature other than `hmac` of the
   * signed message yields false and no change. A matching one with no mapped
   * order fails; with several it fails as the single-result lookup does; with
   * exactly one it yields true and that order is paid, every other order unchanged.
   */
  function CheckPayment(orders: map<int, Order>, gatewayOrderId: string, paymentId: string,
                        signature: string, secret: string, hmac: (string, string) -> string)
    : (r: Result<(bool, map<int, Order>)>)
    ensures hmac(SignedMessage(gatewayOrderId, paymentId), secret) != signature ==> r == Ok((false, orders))
    ensures hmac(SignedMessage(gatewayOrderId, paymentId), secret) == signature ==>
      (OrdersMappedTo(orders, gatewayOrderId) == {} <==> r == Err(GatewayOrderNotFound))
    ensures (hmac(SignedMessage(gatewayOrderId, paymentId), secret) == signature &&
             |OrdersMappedTo(orders, gatewayOrderId)| > 1) ==> r == Err(NonUniqueGatewayOrder)
    ensures r.Ok? && !r.value.0 ==> hmac(SignedMessage(gatewayOrderId, paymentId), secret) != signature
    ensures r.Ok? && r.value.0 ==>
      hmac(SignedMessage(gatewayOrderId, paymentId), secret) == signature &&
      |OrdersMappedTo(orders, gatewayOrderId)| == 1 &&
      r.value.1.Keys == orders.Keys &&
      forall k :: k in orders ==>
        r.value.1[k] == if k in OrdersMappedTo(orders, gatewayOrderId) then MarkPaid(orders[k], paymentId) else orders[k]
  {
    if hmac(SignedMessage(gatewayOrderId, paymentId), secret) != signature then Ok((false, orders))
    else
      var mapped := OrdersMappedTo(orders, gatewayOrderId);
      if mapped == {} then Err(GatewayOrderNotFound)
      else if |mapped| > 1 then Err(NonUniqueGatewayOrder)
      else Ok((true, map k | k in orders :: if k in mapped then MarkPaid(orders[k], paymentId) else orders[k]))
  }

  /** A matching signature for the one order mapped to the gateway order pays exactly that order. */
  lemma CheckPaymentPaysMappedOrder(orders: map<int, Order>, k: int, gatewayOrderId: string, paymentId: string,
                                    secret: string, hmac: (string, string) -> string)
    requires OrdersMappedTo(orders, gatewayOrderId) == {k}
    ensures k in orders
    ensures CheckPayment(orders, gatewayOrderId, paymentId, hmac(SignedMessage(gatewayOrderId, paymentId), secret), secret, hmac)
         == Ok((true, orders[k := MarkPaid(orders[k], paymentId)]))
  {
    assert k in OrdersMappedTo(orders, gatewayOrderId);
    var r := CheckPayment(orders, gatewayOrderId, paymentId, hmac(SignedMessage(gatewayOrderId, paymentId), secret), secret, hmac);
    assert r.value.1 == orders[k := MarkPaid(orders[k], paymentId)];
  }

  /** The prior status of the paid order does not matter: the outcome is the same whatever it was. */
  lemma PaidRegardlessOfPriorStatus(orders: map<int, Order>, k: int, status: string, gatewayOrderId: string,
                                    paymentId: string, secret: string, hmac: (string, string) -> string)
    requires OrdersMappedTo(orders, gatewayOrderId) == {k}
    ensures k in orders
    ensures var signature := hmac(SignedMessage(gatewayOrderId, paymentId), secret);
      CheckPayment(orders[k := orders[k].(status := status)], gatewayOrderId, paymentId, signature, secret, hmac)
      == CheckPayment(orders, gatewayOrderId, paymentId, signature, secret, hmac)
  {
    assert k in OrdersMappedTo(orders, gatewayOrderId);
    var other := orders[k := orders[k].(status := status)];
    assert OrdersMappedTo(other, gatewayOrderId) == {k};
    CheckPaymentPaysMappedOrder(orders, k, gatewayOrderId, paymentId, secret, hmac);
    CheckPaymentPaysMappedOrder(other, k, gatewayOrderId, paymentId, secret, hmac);
    assert other[k := MarkPaid(other[k], paymentId)] == orders[k := MarkPaid(orders[k], paymentId)];
  }

  /**
   * createOrder's database half: an unknown order fails; otherwise the order
   * records the gateway order id and takes the status CREATED, nothing else changing.
   */
  function RecordGatewayOrder(orders: map<int, Order>, dbOrderId: int, gatewayOrderId: string)
    : (r: Result<map<int, Order>>)
    ensures dbOrderId !in orders <==> r == Err(OrderNotFound)
    ensures r.Ok? ==>
      r.value.Keys == orders.Keys &&
      r.value[dbOrderId].status == CREATED &&
      r.value[dbOrderId].razorpayOrderId == Some(gatewayOrderId) &&
      r.value[dbOrderId].(status := orders[dbOrderId].status, razorpayOrderId := orders[dbOrderId].razorpayOrderId)
        == orders[dbOrderId] &&
      forall k :: k in orders && k != dbOrderId ==> r.value[k] == orders[k]
  {
    if dbOrderId !in orders then Err(OrderNotFound)
    else Ok(orders[dbOrderId := orders[dbOrderId].(razorpayOrderId := Some(gatewayOrderId), status := CREATED)])
  }

  /**
   * The payment flow on one order: once its gateway order is recorded, and no
   * other order maps to that gateway order, a correctly signed confirmation
   * marks it PAID with the payment id.
   */
  lemma PaymentFlow(orders: map<int, Order>, k: int, gatewayOrderId: string, paymentId: string,
                    secret: string, hmac: (string, string) -> string)
    requires k in orders
    requires forall j :: j in orders && j != k ==> orders[j].razorpayOrderId != Some(gatewayOrderId)
    ensures RecordGatewayOrder(orders, k, gatewayOrderId).Ok?
    ensures var mapped := RecordGatewayOrder(orders, k, gatewayOrderId).value;
      CheckPayment(mapped, gatewayOrderId, paymentId, hmac(SignedMessage(gatewayOrderId, paymentId), secret), secret, hmac)
        == Ok((true, orders[k := MarkPaid(mapped[k], paymentId)]))
  {
    var mapped := RecordGatewayOrder(orders, k, gatewayOrderId).value;
    assert OrdersMappedTo(mapped, gatewayOrderId) == {k};
    CheckPaymentPaysMappedOrder(mapped, k, gatewayOrderId, paymentId, secret, hmac);
    assert mapped[k := MarkPaid(mapped[k], paymentId)] == orders[k := MarkPaid(mapped[k], paymentId)];
  }

  /**
   * Recording a gateway order for an order that is already PAID, SHIPPED or
   * DELIVERED sets it back to CREATED, so its total leaves the revenue until
   * it is paid again: nothing guards createOrder against a completed order.
   */
  lemma RecordOnPaidDropsRevenue(orders: map<int, Order>, k: int, gatewayOrderId: string)
    requires k in orders && OrderService.IsRevenueStatus(orders[k].status)
    ensures RecordGatewayOrder(orders, k, gatewayOrderId).Ok?
    ensures var mapped := RecordGatewayOrder(orders, k, gatewayOrderId).value;
      k !in OrderService.Completed(mapped) &&
      OrderService.SumTotals(OrderService.Completed(mapped))
        == OrderService.SumTotals(OrderService.Completed(orders)) - orders[k].totalPrice
  {
    var mapped := RecordGatewayOrder(orders, k, gatewayOrderId).value;
    OrderService.StatusSpellings();
    assert mapped == orders[k := mapped[k]];
    OrderService.RevenueAfterReplace(orders, k, mapped[k]);
  }

  /**
   * Between the two steps the order is in the gateway's CREATED state, which is
   * not a valid order status and is counted under none of the statuses; paying
   * it then adds its total to the revenue.
   */
  lemma PaymentRevenue(orders: map<int, Order>, k: int, gatewayOrderId: string, paymentId: string)
    requires k in orders
    ensures RecordGatewayOrder(orders, k, gatewayOrderId).Ok?
    ensures var mapped := RecordGatewayOrder(orders, k, gatewayOrderId).value;
      !OrderService.IsValidOrderStatus(mapped[k].status) &&
      k in OrderService.Unlisted(mapped) &&
      OrderService.SumTotals(OrderService.Completed(orders[k := MarkPaid(mapped[k], paymentId)]))
        == OrderService.SumTotals(OrderService.Completed(orders))
         - (if OrderService.IsRevenueStatus(orders[k].status) then orders[k].totalPrice else 0)
         + orders[k].totalPrice
  {
    var mapped := RecordGatewayOrder(orders, k, gatewayOrderId).value;
    OrderService.StatusSpellings();
    OrderService.RevenueAfterReplace(orders, k, MarkPaid(mapped[k], paymentId));
  }

  /**
   * createOrder, after the gateway has issued `gatewayOrderId`: an unknown order
   * fails and changes nothing; otherwise the stored order is updated as
   * RecordGatewayOrder says and the gateway order id is returned.
   */
  method CreateOrder(db: Db, dbOrderId: int, gatewayOrderId: string) returns (r: Result<string>)
    requires db.Valid()
    modifies db`orders
    ensures db.Valid()
    ensures dbOrderId !in old(db.orders) ==> r == Err(OrderNotFound) && unchanged(db)
    ensures dbOrderId in old(db.orders) ==>
      r == Ok(gatewayOrderId) &&
      db.orders == RecordGatewayOrder(old(db.orders), dbOrderId, gatewayOrderId).value
  {
    var recorded := RecordGatewayOrder(db.orders, dbOrderId, gatewayOrderId);
    if recorded.Err? {
      return Err(recorded.error);
    }
    db.orders := recorded.value;
    r := Ok(gatewayOrderId);
  }

  /**
   * verifyPayment: compares `hmac` of the signed message with the supplied
   * signature; a mismatch returns false and changes nothing; a match pays the
   * mapped order and returns true, or fails, changing nothing, when no single
   * order is mapped to the gateway order.
   */
  method VerifyPayment(db: Db, gatewayOrderId: string, paymentId: string, signature: string,
                       secret: string, hmac: (string, string) -> string) returns (r: Result<bool>)
    requires db.Valid()
    modifies db`orders
    ensures db.Valid()
    ensures var outcome := CheckPayment(old(db.orders), gatewayOrderId, paymentId, signature, secret, hmac);
      (outcome.Err? ==> r == Err(outcome.error) && unchanged(db)) &&
      (outcome.Ok? ==> r == Ok(outcome.value.0) && db.orders == outcome.value.1)
  {
    var outcome := CheckPayment(db.orders, gatewayOrderId, paymentId, signature, secret, hmac);
    if outcome.Err? {
      return Err(outcome.error);
    }
    db.orders := outcome.value.1;
    r := Ok(outcome.value.0);
  }
}
