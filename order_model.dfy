/**
 The order schema (server/models/Order.js): order lines with a required menu
 reference, a quantity of at least one and a required price; orders with
 required table number and aggregates, three enumerations with defaults, and
 the createdAt/updatedAt timestamps. The schema relates none of the aggregates
 to each other or to the lines.
 Line prices are whole rupees; the stored aggregates are exact reals because
 the client stores an unrounded ten-percent tax.
 */
module OrderModel {
  import opened Common

  datatype Status = Pending | Preparing | Served | Completed | Cancelled
  datatype PaymentStatus = PaymentPending | Paid
  datatype PaymentMethod = Cash | Card | Upi

  function StatusName(s: Status): string {
    match s
    case Pending => "pending"
    case Preparing => "preparing"
    case Served => "served"
    case Completed => "completed"
    case Cancelled => "cancelled"
  }

  /** The `status` enum validator. */
  function ParseStatus(s: string): (r: Option<Status>)
    ensures r.Some? ==> StatusName(r.value) == s
    ensures forall st :: StatusName(st) == s ==> r == Some(st)
  {
    if s == "pending" then Some(Pending)
    else if s == "preparing" then Some(Preparing)
    else if s == "served" then Some(Served)
    else if s == "completed" then Some(Completed)
    else if s == "cancelled" then Some(Cancelled)
    else None
  }

  function PaymentStatusName(p: PaymentStatus): string {
    match p
    case PaymentPending => "pending"
    case Paid => "paid"
  }

  /** The `paymentStatus` enum validator. */
  function ParsePaymentStatus(s: string): (r: Option<PaymentStatus>)
    ensures r.Some? ==> PaymentStatusName(r.value) == s
    ensures forall p :: PaymentStatusName(p) == s ==> r == Some(p)
  {
    if s == "pending" then Some(PaymentPending)
    else if s == "paid" then Some(Paid)
    else None
  }

  function MethodName(m: PaymentMethod): string {
    match m
    case Cash => "cash"
    case Card => "card"
    case Upi => "upi"
  }

  /** The `paymentMethod` enum validator. */
  function ParseMethod(s: string): (r: Option<PaymentMethod>)
    ensures r.Some? ==> MethodName(r.value) == s
    ensures forall m :: MethodName(m) == s ==> r == Some(m)
  {
    if s == "cash" then Some(Cash)
    else if s == "card" then Some(Card)
    else if s == "upi" then Some(Upi)
    else None
  }

  /** One line of an order; `menuItem` is the id of the referenced menu item. */
  datatype OrderLine = OrderLine(menuItem: string, quantity: int, price: int, notes: Option<string>)

  datatype Order = Order(
    id: string,
    tableNumber: int,
    items: seq<OrderLine>,
    status: Status,
    subtotal: real,
    tax: real,
    total: real,
    paymentStatus: PaymentStatus,
    paymentMethod: PaymentMethod,
    createdAt: int,
    updatedAt: int)

  /** What the schema guarantees of every stored order: each line has quantity
      at least one. Prices, the table number and the aggregates are unconstrained. */
  predicate ValidOrder(o: Order) {
    forall i :: 0 <= i < |o.items| ==> o.items[i].quantity >= 1
  }

  /** A line of a create request; `None` is a field left out. */
  datatype LineInput = LineInput(menuItem: Option<string>, quantity: Option<int>, price: Option<int>, notes: Option<string>)

  /** The body of a create request. */
  datatype OrderInput = OrderInput(
    tableNumber: Option<int>,
    items: seq<LineInput>,
    subtotal: Option<real>,
    tax: Option<real>,
    total: Option<real>,
    status: Option<string>,
    paymentStatus: Option<string>,
    paymentMethod: Option<string>)

  /** Line validation: menuItem and price are required, quantity is required and at least one. */
  function NewLine(l: LineInput): (r: Option<OrderLine>)
    ensures r.Some? <==> l.menuItem.Some? && l.quantity.Some? && l.quantity.value >= 1 && l.price.Some?
    ensures r.Some? ==> r.value == OrderLine(l.menuItem.value, l.quantity.value, l.price.value, l.notes)
  {
    if l.menuItem.Some? && l.quantity.Some? && l.quantity.value >= 1 && l.price.Some? then
      Some(OrderLine(l.menuItem.value, l.quantity.value, l.price.value, l.notes))
    else None
  }

  /** Every line of the request, in order, or nothing if any line is rejected. */
  function NewLines(ls: seq<LineInput>): (r: Option<seq<OrderLine>>)
    ensures r.Some? <==> forall i :: 0 <= i < |ls| ==> NewLine(ls[i]).Some?
    ensures r.Some? ==> |r.value| == |ls|
    ensures r.Some? ==> forall i :: 0 <= i < |ls| ==> NewLine(ls[i]) == Some(r.value[i])
  {
    if ls == [] then Some([])
    else
      var rest := NewLines(ls[1..]);
      if NewLine(ls[0]).Some? && rest.Some? then
        assert forall i :: 1 <= i < |ls| ==> ls[i] == ls[1..][i - 1];
        Some([NewLine(ls[0]).value] + rest.value)
      else
        assert forall i :: 0 <= i < |ls| - 1 ==> ls[1..][i] == ls[i + 1];
        None
  }

  /** Schema validation of a create request, apart from the lines. */
  predicate AcceptsOrderFields(body: OrderInput) {
    && body.tableNumber.Some?
    && body.subtotal.Some? && body.tax.Some? && body.total.Some?
    && (body.paymentMethod.Some? ==> ParseMethod(body.paymentMethod.value).Some?)
  }

  /** `new Order({...body, status: 'pending', paymentStatus: 'pending'})` followed
      by validation: the requested status and payment status are overridden, the
      payment method defaults to cash, and both timestamps are the creation time. */
  function NewOrder(body: OrderInput, id: string, now: int): (r: Option<Order>)
    ensures r.Some? <==> AcceptsOrderFields(body) && NewLines(body.items).Some?
    ensures r.Some? ==>
      && ValidOrder(r.value)
      && r.value.id == id
      && r.value.items == NewLines(body.items).value
      && r.value.status == Pending && r.value.paymentStatus == PaymentPending
      && r.value.createdAt == now && r.value.updatedAt == now
      && r.value.tableNumber == body.tableNumber.value
      && r.value.subtotal == body.subtotal.value
      && r.value.tax == body.tax.value
      && r.value.total == body.total.value
      && r.value.paymentMethod == (if body.paymentMethod.None? then Cash else ParseMethod(body.paymentMethod.value).value)
  {
    var lines := NewLines(body.items);
    if !AcceptsOrderFields(body) || lines.None? then None
    else
      Some(Order(
        id,
        body.tableNumber.value,
        lines.value,
        Pending,
        body.subtotal.value,
        body.tax.value,
        body.total.value,
        PaymentPending,
        if body.paymentMethod.Some? then ParseMethod(body.paymentMethod.value).value else Cash,
        now,
        now))
  }

  /** Whatever status and payment status a create request carries, the outcome is the same. */
  lemma NewOrderIgnoresRequestedState(body: OrderInput, status: Option<string>, paymentStatus: Option<string>, id: string, now: int)
    ensures NewOrder(body.(status := status, paymentStatus := paymentStatus), id, now) == NewOrder(body, id, now)
  {
  }

  /** A stored order after `order.status = s` and a save: only the status
      changes. The save refreshes the update time only when it modifies the
      document, so assigning the current status again leaves the order as it was. */
  function WithStatus(o: Order, s: Status, now: int): (r: Order)
    ensures r.status == s
    ensures r.updatedAt == if s == o.status then o.updatedAt else now
    ensures r.(status := o.status, updatedAt := o.updatedAt) == o
  {
    o.(status := s, updatedAt := if s == o.status then o.updatedAt else now)
  }

  /** A stored order after its payment status and method are assigned and it is
      saved: only those two fields change, and the update time is refreshed
      only when one of them differs from what was stored. */
  function WithPayment(o: Order, p: PaymentStatus, m: PaymentMethod, now: int): (r: Order)
    ensures r.paymentStatus == p && r.paymentMethod == m
    ensures r.updatedAt == if p == o.paymentStatus && m == o.paymentMethod then o.updatedAt else now
    ensures r.(paymentStatus := o.paymentStatus, paymentMethod := o.paymentMethod, updatedAt := o.updatedAt) == o
  {
    o.(paymentStatus := p, paymentMethod := m,
       updatedAt := if p == o.paymentStatus && m == o.paymentMethod then o.updatedAt else now)
  }
}
