/**
 The bills page (client/src/pages/Bills.jsx): the fetched order list split
 into the bills still to be paid and the bills already paid, and the payment
 update each payment button sends. The update is sent to the order store's
 payment route; a refetch of the list follows it.
 */
module BillsPage {
  import opened Common
  import opened OrderModel
  import opened OrderRoutes

  /** An order listed under Unpaid Bills: served and not yet paid. */
  predicate IsUnpaidBill(o: Order) {
    o.status == Served && o.paymentStatus == PaymentPending
  }

  /** An order listed under Paid Bills: paid, whatever its status. */
  predicate IsPaidBill(o: Order) {
    o.paymentStatus == Paid
  }

  /** `unpaidOrders`: the served, unpaid orders, in fetched order. */
  function UnpaidBills(orders: seq<Order>): (r: seq<Order>)
    ensures forall o :: o in r <==> o in orders && o.status == Served && o.paymentStatus == PaymentPending
    ensures IsSubsequence(r, orders)
  {
    FilterIsSubsequence(orders, IsUnpaidBill);
    Filter(orders, IsUnpaidBill)
  }

  /** `paidOrders`: the paid orders, in fetched order. */
  function PaidBills(orders: seq<Order>): (r: seq<Order>)
    ensures forall o :: o in r <==> o in orders && o.paymentStatus == Paid
    ensures IsSubsequence(r, orders)
  {
    FilterIsSubsequence(orders, IsPaidBill);
    Filter(orders, IsPaidBill)
  }

  /** No order is listed in both sections ... */
  lemma BillListsDisjoint(orders: seq<Order>)
    ensures forall o :: o in UnpaidBills(orders) ==> o !in PaidBills(orders)
  {
  }

  /** ... so the two sections together list at most the fetched orders; an
      order that is neither served-and-unpaid nor paid is in neither. */
  lemma {:induction false} BillListsFitInOrders(orders: seq<Order>)
    ensures |UnpaidBills(orders)| + |PaidBills(orders)| <= |orders|
  {
    if orders != [] {
      BillListsFitInOrders(orders[1..]);
    }
  }

  /** Paying one unpaid bill of the list moves it from the unpaid section to
      the paid section: one fewer unpaid bill, one more paid bill. */
  lemma {:induction false} PayingMovesBill(orders: seq<Order>, i: int, m: PaymentMethod, now: int)
    requires 0 <= i < |orders| && orders[i].status == Served && orders[i].paymentStatus == PaymentPending
    ensures var after := orders[i := WithPayment(orders[i], Paid, m, now)];
      && |UnpaidBills(after)| == |UnpaidBills(orders)| - 1
      && |PaidBills(after)| == |PaidBills(orders)| + 1
  {
    var paid := WithPayment(orders[i], Paid, m, now);
    var after := orders[i := paid];
    assert after[1..] == if i == 0 then orders[1..] else orders[1..][i - 1 := paid];
    if i > 0 {
      PayingMovesBill(orders[1..], i - 1, m, now);
    }
  }

  /** The refetch after an update: the orders listed under distinct ids are
      the previous list with only the updated order's position replaced. */
  lemma RefetchReplacesOne(orders: map<string, Order>, ids: seq<string>, i: int, o: Order)
    requires forall id :: id in ids ==> id in orders
    requires 0 <= i < |ids| && forall j :: 0 <= j < |ids| && j != i ==> ids[j] != ids[i]
    ensures OrdersIn(orders[ids[i] := o], ids) == OrdersIn(orders, ids)[i := o]
  {
    var before := OrdersIn(orders, ids);
    var after := OrdersIn(orders[ids[i] := o], ids);
    assert forall j :: 0 <= j < |ids| ==> after[j] == before[i := o][j];
  }

  /** Paying an unpaid bill of the store and fetching the orders again shows
      one fewer unpaid bill and one more paid bill. */
  lemma RefetchedBillsAfterPayment(orders: map<string, Order>, ids: seq<string>, i: int, m: PaymentMethod, now: int)
    requires forall id :: id in ids ==> id in orders
    requires 0 <= i < |ids| && forall j :: 0 <= j < |ids| && j != i ==> ids[j] != ids[i]
    requires orders[ids[i]].status == Served && orders[ids[i]].paymentStatus == PaymentPending
    ensures var after := OrdersIn(orders[ids[i] := WithPayment(orders[ids[i]], Paid, m, now)], ids);
      && |UnpaidBills(after)| == |UnpaidBills(OrdersIn(orders, ids))| - 1
      && |PaidBills(after)| == |PaidBills(OrdersIn(orders, ids))| + 1
  {
    RefetchReplacesOne(orders, ids, i, WithPayment(orders[ids[i]], Paid, m, now));
    PayingMovesBill(OrdersIn(orders, ids), i, m, now);
  }

  /** The body of `PATCH /api/orders/:id/payment` a payment button sends. */
  datatype PaymentRequest = PaymentRequest(orderId: string, paymentStatus: string, paymentMethod: string)

  /** `handlePayment(orderId, paymentMethod)`: mark the order paid with the given method. */
  function PaymentFor(orderId: string, paymentMethod: string): (r: PaymentRequest)
    ensures r.orderId == orderId && r.paymentMethod == paymentMethod
    ensures ParsePaymentStatus(r.paymentStatus) == Some(Paid)
  {
    PaymentRequest(orderId, "paid", paymentMethod)
  }

  /** The Pay Cash button of an unpaid bill. */
  function CashPayment(o: Order): (r: PaymentRequest)
    ensures r.orderId == o.id
    ensures ParsePaymentStatus(r.paymentStatus) == Some(Paid) && ParseMethod(r.paymentMethod) == Some(Cash)
  {
    PaymentFor(o.id, "cash")
  }

  /** `handlePaymentSuccess`: after the card provider reports success, the
      selected order, if any, is marked paid by card; with no order selected
      nothing is sent. */
  function CardPaymentSucceeded(selected: Option<Order>): (r: Option<PaymentRequest>)
    ensures r.Some? <==> selected.Some?
    ensures r.Some? ==>
      && r.value.orderId == selected.value.id
      && ParsePaymentStatus(r.value.paymentStatus) == Some(Paid)
      && ParseMethod(r.value.paymentMethod) == Some(Card)
  {
    if selected.Some? then Some(PaymentFor(selected.value.id, "card")) else None
  }

  /** Sending the Pay Cash request: the server accepts it and the order
      becomes paid by cash, nothing else changing; an order no longer stored
      gives 404, which the page shows as an error. */
  method PayCash(store: OrderStore, o: Order, now: int) returns (r: Response)
    requires store.Valid()
    modifies store`orders
    ensures store.Valid()
    ensures o.id !in old(store.orders) ==> r == NotFound && store.orders == old(store.orders)
    ensures o.id in old(store.orders) ==>
      var paid := WithPayment(old(store.orders)[o.id], Paid, Cash, now);
      r == Ok(paid) && store.orders == old(store.orders)[o.id := paid]
  {
    var req := CashPayment(o);
    r := store.UpdatePayment(req.orderId, req.paymentStatus, req.paymentMethod, now);
  }

  /** Sending the request of a successful card payment: a selected order
      the store holds becomes paid by card, one it no longer holds gives 404;
      with none selected, nothing is sent and the store is unchanged. */
  method HandlePaymentSuccess(store: OrderStore, selected: Option<Order>, now: int) returns (r: Option<Response>)
    requires store.Valid()
    modifies store`orders
    ensures store.Valid()
    ensures selected.None? ==> r == None && store.orders == old(store.orders)
    ensures selected.Some? && selected.value.id !in old(store.orders) ==>
      r == Some(NotFound) && store.orders == old(store.orders)
    ensures selected.Some? && selected.value.id in old(store.orders) ==>
      var paid := WithPayment(old(store.orders)[selected.value.id], Paid, Card, now);
      r == Some(Ok(paid)) && store.orders == old(store.orders)[selected.value.id := paid]
  {
    var req := CardPaymentSucceeded(selected);
    if req.None? {
      return None;
    }
    var resp := store.UpdatePayment(req.value.orderId, req.value.paymentStatus, req.value.paymentMethod, now);
    r := Some(resp);
  }
}
