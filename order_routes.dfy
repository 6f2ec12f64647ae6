/**
 The order routes (server/routes/orders.js) as operations on an order store
 keyed by id. The handlers check only that the id exists and that the schema
 accepts the new values; they never look at the current status or payment
 status, so any enum value is accepted from any state.
 The clock is a parameter (`now`), as is the id the database assigns to a new order.
 */
module OrderRoutes {
  import opened Common
  import opened OrderModel

  /** The HTTP outcome of a handler: 200 with the order, 201 with the created
      order, 404, or 400 when saving fails validation. */
  datatype Response = Ok(order: Order) | Created(order: Order) | NotFound | BadRequest

  /** The orders stored under `ids`, in that order. */
  function OrdersIn(orders: map<string, Order>, ids: seq<string>): (r: seq<Order>)
    requires forall id :: id in ids ==> id in orders
    ensures |r| == |ids|
    ensures forall i :: 0 <= i < |ids| ==> r[i] == orders[ids[i]]
  {
    if ids == [] then [] else [orders[ids[0]]] + OrdersIn(orders, ids[1..])
  }

  /** The order collection: a map from id to order, and the ids in the order
      the orders were created. `find()` without a sort promises no order; the
      model lists the orders in creation order. */
  class OrderStore {
    var orders: map<string, Order>
    var ids: seq<string>

    ghost predicate Valid()
      reads this
    {
      && (forall i, j :: 0 <= i < j < |ids| ==> ids[i] != ids[j])
      && (forall id :: id in orders <==> id in ids)
      && (forall id :: id in orders ==> orders[id].id == id && ValidOrder(orders[id]))
    }

    constructor ()
      ensures Valid() && orders == map[] && ids == []
    {
      orders := map[];
      ids := [];
    }

    /** GET /: every stored order once, listed in creation order. */
    function All(): (r: seq<Order>)
      reads this
      requires Valid()
      ensures |r| == |ids| && forall o :: o in r <==> o in orders.Values
    {
      var r := OrdersIn(orders, ids);
      assert forall o :: o in orders.Values ==> exists i :: 0 <= i < |ids| && o == orders[ids[i]];
      r
    }

    /** GET /:id: the stored order, or 404 for an unknown id. */
    method Get(id: string) returns (r: Response)
      requires Valid()
      ensures id in orders ==> r == Ok(orders[id])
      ensures id !in orders ==> r == NotFound
    {
      if id in orders {
        r := Ok(orders[id]);
      } else {
        r := NotFound;
      }
    }

    /** POST /: the body is cast and validated with status and payment status
        forced to pending; a body the schema rejects, or an id already in use,
        gives 400 and stores nothing. */
    method Create(body: OrderInput, id: string, now: int) returns (r: Response)
      requires Valid()
      modifies this
      ensures Valid()
      ensures NewOrder(body, id, now).None? || id in old(orders) ==>
        r == BadRequest && orders == old(orders) && ids == old(ids)
      ensures NewOrder(body, id, now).Some? && id !in old(orders) ==>
        && r == Created(NewOrder(body, id, now).value)
        && orders == old(orders)[id := NewOrder(body, id, now).value]
        && ids == old(ids) + [id]
    {
      var o := NewOrder(body, id, now);
      if o.None? || id in orders {
        r := BadRequest;
      } else {
        orders := orders[id := o.value];
        ids := ids + [id];
        r := Created(o.value);
      }
    }

    /** PATCH /:id/status: the status is overwritten with the requested value,
        whatever the current status; a value outside the enum gives 400 and
        the stored order keeps its old value. */
    method UpdateStatus(id: string, status: string, now: int) returns (r: Response)
      requires Valid()
      modifies this`orders
      ensures Valid()
      ensures id !in old(orders) ==> r == NotFound && orders == old(orders)
      ensures id in old(orders) && ParseStatus(status).None? ==> r == BadRequest && orders == old(orders)
      ensures id in old(orders) && ParseStatus(status).Some? ==>
        && r == Ok(WithStatus(old(orders)[id], ParseStatus(status).value, now))
        && orders == old(orders)[id := WithStatus(old(orders)[id], ParseStatus(status).value, now)]
    {
      if id !in orders {
        return NotFound;
      }
      var s := ParseStatus(status);
      if s.None? {
        return BadRequest;
      }
      var updated := WithStatus(orders[id], s.value, now);
      orders := orders[id := updated];
      r := Ok(updated);
    }

    /** PATCH /:id/payment: payment status and method are overwritten with the
        requested values, whatever the current state, so paying a paid order
        again only replaces the method; a value outside either enum gives 400
        and the stored order is unchanged. */
    method UpdatePayment(id: string, paymentStatus: string, paymentMethod: string, now: int) returns (r: Response)
      requires Valid()
      modifies this`orders
      ensures Valid()
      ensures id !in old(orders) ==> r == NotFound && orders == old(orders)
      ensures id in old(orders) && (ParsePaymentStatus(paymentStatus).None? || ParseMethod(paymentMethod).None?) ==>
        r == BadRequest && orders == old(orders)
      ensures id in old(orders) && ParsePaymentStatus(paymentStatus).Some? && ParseMethod(paymentMethod).Some? ==>
        var o := WithPayment(old(orders)[id], ParsePaymentStatus(paymentStatus).value, ParseMethod(paymentMethod).value, now);
        r == Ok(o) && orders == old(orders)[id := o]
    {
      if id !in orders {
        return NotFound;
      }
      var p := ParsePaymentStatus(paymentStatus);
      var m := ParseMethod(paymentMethod);
      if p.None? || m.None? {
        return BadRequest;
      }
      var updated := WithPayment(orders[id], p.value, m.value, now);
      orders := orders[id := updated];
      r := Ok(updated);
    }
  }

  /** Last write wins: after two status updates the order is the one the second
      alone would give, except for the update time, which belongs to the last
      update that changed the status. */
  lemma StatusLastWriteWins(o: Order, s1: Status, s2: Status, t1: int, t2: int)
    ensures var r := WithStatus(WithStatus(o, s1, t1), s2, t2);
      && r.(updatedAt := o.updatedAt) == WithStatus(o, s2, t2).(updatedAt := o.updatedAt)
      && r.updatedAt == if s2 != s1 then t2 else if s1 != o.status then t1 else o.updatedAt
  {
  }

  /** Paying an order that is already paid keeps it paid and only replaces the
      method; the update time moves only when the method differs. */
  lemma RepayReplacesMethod(o: Order, m1: PaymentMethod, m2: PaymentMethod, t1: int, t2: int)
    ensures var r := WithPayment(WithPayment(o, Paid, m1, t1), Paid, m2, t2);
      && r.paymentStatus == Paid && r.paymentMethod == m2
      && r.(updatedAt := o.updatedAt) == WithPayment(o, Paid, m2, t2).(updatedAt := o.updatedAt)
      && r.updatedAt == if m2 != m1 then t2 else WithPayment(o, Paid, m1, t1).updatedAt
  {
  }

  /** Re-sending the stored status, or the stored payment status and method,
      saves nothing: the order, update time included, stays as it was. */
  lemma ResendChangesNothing(o: Order, now: int)
    ensures WithStatus(o, o.status, now) == o
    ensures WithPayment(o, o.paymentStatus, o.paymentMethod, now) == o
  {
  }
}
