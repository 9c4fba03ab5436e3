/** Single-artwork purchases (payments/models.py `Order`, `Payment`, and
    `checkout`, `payment` in payments/views.py). */
module Orders {
  import opened Common

  /** The three `Order.STATUS_CHOICES`. */
  datatype OrderStatus = Pending | Completed | Cancelled

  /** An `Order` row. `artwork` is nullable. */
  datatype Order = Order(id: OrderId, buyer: UserId, artwork: Option<ArtworkId>, amount: Cents, status: OrderStatus)

  /** A `Payment` row. `isSuccessful` defaults to false. */
  datatype Payment = Payment(id: nat, order: OrderId, payMethod: string, paymentId: string,
                             amountPaid: Cents, isSuccessful: bool)

  /** The payment reference used when none is posted: `test_<order id>`. */
  function DefaultPaymentId(order: OrderId): (pid: string)
    ensures |pid| > 5 && pid[..5] == "test_" && pid[5..] == NatToString(order)
  {
    "test_" + NatToString(order)
  }

  /** Default references of different orders never collide. */
  lemma DefaultPaymentIdsDistinct(a: OrderId, b: OrderId)
    requires a != b
    ensures DefaultPaymentId(a) != DefaultPaymentId(b)
  {
    if DefaultPaymentId(a) == DefaultPaymentId(b) {
      assert NatToString(a) == DefaultPaymentId(a)[5..];
      NatToStringInjective(a, b);
    }
  }

  /** Whether some payment row belongs to `order`. */
  predicate HasPayment(payments: seq<Payment>, order: OrderId) {
    exists p :: p in payments && p.order == order
  }

  predicate PaymentIdUsed(payments: seq<Payment>, pid: string) {
    exists p :: p in payments && p.paymentId == pid
  }

  /** The payment a successful POST to `payment` records: the posted
      method and reference (`stripe` and `test_<id>` by default), the
      order's amount, and success. */
  function PaymentFor(id: nat, o: Order, payMethod: Option<string>, paymentId: Option<string>): (p: Payment)
    ensures p.order == o.id && p.amountPaid == o.amount && p.isSuccessful
    ensures payMethod.Some? ==> p.payMethod == payMethod.value
    ensures payMethod.None? ==> p.payMethod == "stripe"
    ensures paymentId.Some? ==> p.paymentId == paymentId.value
    ensures paymentId.None? ==> p.paymentId == DefaultPaymentId(o.id)
  {
    Payment(id, o.id, payMethod.GetOr("stripe"), paymentId.GetOr(DefaultPaymentId(o.id)), o.amount, true)
  }

  /** What the two views answer. `PaymentConflict` stands for the
      integrity error raised when the one-per-order or unique-reference
      constraint refuses the new payment row. */
  datatype OrderResponse =
    | OrderNotFound
    | CheckoutPage(artwork: ArtworkId)
    | RedirectPayment(orderPk: OrderId)
    | PaymentPage(order: Order)
    | RedirectPaymentSuccess(pk: OrderId)
    | PaymentConflict

  /** The `Order` and `Payment` tables. Rows are never deleted, so the row
      at index `i` has primary key `i + 1`. */
  class OrderLedger {
    var orders: seq<Order>
    var payments: seq<Payment>

    ghost predicate Valid()
      reads this
    {
      Ledger(orders, payments)
    }

    constructor ()
      ensures Valid() && orders == [] && payments == []
    {
      orders := [];
      payments := [];
    }

    /** `checkout`: an unknown artwork is not found; a GET shows the page;
        a POST creates one pending order for the caller whose amount is the
        artwork's price, 0 when it has none, and goes on to payment. */
    method Checkout(user: UserId, artwork: ArtworkId, isPost: bool, prices: Prices) returns (r: OrderResponse)
      requires Valid()
      modifies this
      ensures Valid() && payments == old(payments)
      ensures artwork !in prices ==> r == OrderNotFound && orders == old(orders)
      ensures artwork in prices && !isPost ==> r == CheckoutPage(artwork) && orders == old(orders)
      ensures artwork in prices && isPost ==>
        && orders == old(orders) + [Order(|old(orders)| + 1, user, Some(artwork), PriceOf(prices, artwork), Pending)]
        && r == RedirectPayment(|old(orders)| + 1)
    {
      if artwork !in prices {
        return OrderNotFound;
      }
      if !isPost {
        return CheckoutPage(artwork);
      }
      var pk := |orders| + 1;
      orders := orders + [Order(pk, user, Some(artwork), PriceOf(prices, artwork), Pending)];
      r := RedirectPayment(pk);
    }

    /** `payment`: only the order's buyer finds it; a GET shows it; a POST
        records `PaymentFor` the order and completes it. A payment the
        table's constraints refuse (the order is already paid, or the
        reference is taken) changes nothing. */
    method Pay(pk: OrderId, user: UserId, isPost: bool, payMethod: Option<string>, paymentId: Option<string>)
      returns (r: OrderResponse)
      requires Valid()
      modifies this
      ensures Valid()
      ensures !(1 <= pk <= |old(orders)| && old(orders)[pk - 1].buyer == user) ==>
        r == OrderNotFound && orders == old(orders) && payments == old(payments)
      ensures 1 <= pk <= |old(orders)| && old(orders)[pk - 1].buyer == user && !isPost ==>
        r == PaymentPage(old(orders)[pk - 1]) && orders == old(orders) && payments == old(payments)
      ensures 1 <= pk <= |old(orders)| && old(orders)[pk - 1].buyer == user && isPost ==>
        var p := PaymentFor(|old(payments)| + 1, old(orders)[pk - 1], payMethod, paymentId);
        if HasPayment(old(payments), pk) || PaymentIdUsed(old(payments), p.paymentId) then
          r == PaymentConflict && orders == old(orders) && payments == old(payments)
        else
          && r == RedirectPaymentSuccess(pk)
          && payments == old(payments) + [p]
          && orders == old(orders)[pk - 1 := old(orders)[pk - 1].(status := Completed)]
    {
      if !(1 <= pk <= |orders| && orders[pk - 1].buyer == user) {
        return OrderNotFound;
      }
      if !isPost {
        return PaymentPage(orders[pk - 1]);
      }
      var p := PaymentFor(|payments| + 1, orders[pk - 1], payMethod, paymentId);
      if HasPayment(payments, pk) || PaymentIdUsed(payments, p.paymentId) {
        return PaymentConflict;
      }
      PaidKeepsLedger(orders, payments, pk, p);
      payments := payments + [p];
      orders := orders[pk - 1 := orders[pk - 1].(status := Completed)];
      r := RedirectPaymentSuccess(pk);
    }
  }

  /** What the two tables keep: rows are numbered; each payment belongs
      to an existing order, no order has two payments and no reference is
      used twice; a payment is successful and for its order's amount; and
      an order is completed exactly when it has been paid (nothing cancels
      one). */
  ghost predicate Ledger(orders: seq<Order>, payments: seq<Payment>) {
    && (forall i :: 0 <= i < |orders| ==> orders[i].id == i + 1 && orders[i].status != Cancelled)
    && (forall i :: 0 <= i < |payments| ==>
          && payments[i].id == i + 1
          && 1 <= payments[i].order <= |orders|
          && payments[i].isSuccessful
          && payments[i].amountPaid == orders[payments[i].order - 1].amount)
    && (forall i, j :: 0 <= i < j < |payments| ==>
          payments[i].order != payments[j].order && payments[i].paymentId != payments[j].paymentId)
    && (forall i :: 0 <= i < |orders| ==> (orders[i].status == Completed <==> HasPayment(payments, i + 1)))
  }

  /** Paying an unpaid order with a fresh reference keeps the invariant. */
  lemma PaidKeepsLedger(orders: seq<Order>, payments: seq<Payment>, pk: OrderId, p: Payment)
    requires Ledger(orders, payments)
    requires 1 <= pk <= |orders| && !HasPayment(payments, pk) && !PaymentIdUsed(payments, p.paymentId)
    requires p.id == |payments| + 1 && p.order == pk && p.isSuccessful && p.amountPaid == orders[pk - 1].amount
    ensures Ledger(orders[pk - 1 := orders[pk - 1].(status := Completed)], payments + [p])
  {
  }

  /** In the ledger a completed order has exactly one payment, which is
      successful and for the order's full amount. */
  lemma CompletedOrderPaidOnce(orders: seq<Order>, payments: seq<Payment>, i: nat)
    requires Ledger(orders, payments) && i < |orders| && orders[i].status == Completed
    ensures exists k :: (0 <= k < |payments| && payments[k].order == i + 1
                         && payments[k].isSuccessful && payments[k].amountPaid == orders[i].amount)
    ensures forall k, l :: (0 <= k < |payments| && 0 <= l < |payments|
                            && payments[k].order == i + 1 && payments[l].order == i + 1) ==> k == l
  {
    assert HasPayment(payments, i + 1);
    var p :| p in payments && p.order == i + 1;
    var k :| 0 <= k < |payments| && payments[k] == p;
    assert payments[k].amountPaid == orders[payments[k].order - 1].amount;
  }
}
