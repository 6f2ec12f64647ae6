/**
 The client's order page (client/src/pages/Orders.jsx): the draft order that
 menu items are added to, its totals, the create request built from it, and
 the buttons offered for each active order. The buttons are the only place
 that enforces the order pending, preparing, served, paid, completed; the
 server accepts any status from any state.
 HTTP calls become calls on the order store; the draft's tax is the exact
 tenth of the subtotal that the page computes with `subtotal * 0.1`.
 */
module OrdersPage {
  import opened Common
  import opened MenuModel
  import opened OrderModel
  import opened OrderRoutes
  import opened BillRoutes
  import opened JsParse

  /** A line of the draft: the menu item as fetched, a quantity, and the price
      copied from the menu item when the line was first added. */
  datatype DraftLine = DraftLine(menuItem: MenuItem, quantity: int, price: int)

  /** Some line of the draft is for the menu item with this id (`items.find`). */
  predicate Contains(items: seq<DraftLine>, id: string) {
    exists i :: 0 <= i < |items| && items[i].menuItem.id == id
  }

  /** `items.map`: every line for the menu item gets one more of it. */
  function Bumped(items: seq<DraftLine>, id: string): (r: seq<DraftLine>)
    ensures |r| == |items|
    ensures forall i :: 0 <= i < |items| ==>
      r[i] == if items[i].menuItem.id == id then items[i].(quantity := items[i].quantity + 1) else items[i]
  {
    seq(|items|, i requires 0 <= i < |items| =>
      if items[i].menuItem.id == id then items[i].(quantity := items[i].quantity + 1) else items[i])
  }

  /** The new line list of `addItemToOrder`: merge by menu-item id, or append
      a line of quantity one with the menu item's price. */
  function AddedItems(items: seq<DraftLine>, m: MenuItem): (r: seq<DraftLine>)
    ensures |r| == if Contains(items, m.id) then |items| else |items| + 1
    ensures Contains(r, m.id)
  {
    if Contains(items, m.id) then
      BumpedKeepsItems(items, m.id);
      Bumped(items, m.id)
    else
      var r := items + [DraftLine(m, 1, m.price)];
      assert r[|items|].menuItem.id == m.id;
      r
  }

  /** Bumping keeps a line for every menu item the draft has a line for. */
  lemma BumpedKeepsItems(items: seq<DraftLine>, id: string)
    requires Contains(items, id)
    ensures Contains(Bumped(items, id), id)
  {
    var k :| 0 <= k < |items| && items[k].menuItem.id == id;
    assert Bumped(items, id)[k].menuItem.id == id;
  }

  /** At most one line per menu-item id. */
  predicate OneLinePerItem(items: seq<DraftLine>) {
    forall i, j :: 0 <= i < j < |items| ==> items[i].menuItem.id != items[j].menuItem.id
  }

  predicate PositiveQuantities(items: seq<DraftLine>) {
    forall i :: 0 <= i < |items| ==> items[i].quantity >= 1
  }

  /** Adding an item already in the draft raises that line's quantity by one
      and changes nothing else; the list keeps its length. */
  lemma AddExistingItem(items: seq<DraftLine>, m: MenuItem, k: int)
    requires OneLinePerItem(items)
    requires 0 <= k < |items| && items[k].menuItem.id == m.id
    ensures var r := AddedItems(items, m);
      && |r| == |items|
      && r[k] == items[k].(quantity := items[k].quantity + 1)
      && forall i :: 0 <= i < |items| && i != k ==> r[i] == items[i]
  {
  }

  /** Adding an item not yet in the draft appends one line, quantity one, at the menu price. */
  lemma AddNewItem(items: seq<DraftLine>, m: MenuItem)
    requires !Contains(items, m.id)
    ensures AddedItems(items, m) == items + [DraftLine(m, 1, m.price)]
  {
  }

  /** Adding keeps one line per menu item, positive quantities, and every
      existing line's menu item and price snapshot; the item is then in the draft. */
  lemma AddPreservesDraft(items: seq<DraftLine>, m: MenuItem)
    requires OneLinePerItem(items) && PositiveQuantities(items)
    ensures var r := AddedItems(items, m);
      && OneLinePerItem(r) && PositiveQuantities(r)
      && |items| <= |r| <= |items| + 1
      && (forall i :: 0 <= i < |items| ==> r[i].menuItem == items[i].menuItem && r[i].price == items[i].price)
      && Contains(r, m.id)
  {
  }

  /** `items.reduce((sum, item) => sum + item.price * item.quantity, 0)`. */
  function DraftSubtotal(items: seq<DraftLine>): (r: int)
    ensures (forall i :: 0 <= i < |items| ==> items[i].price >= 0 && items[i].quantity >= 0) ==> r >= 0
  {
    if items == [] then 0 else DraftSubtotal(items[..|items| - 1]) + items[|items| - 1].price * items[|items| - 1].quantity
  }

  /** `subtotal * 0.1`, kept exact and unrounded. */
  function DraftTax(subtotal: int): (t: real)
    ensures 10.0 * t == subtotal as real
  {
    (subtotal as real) / 10.0
  }

  /** The subtotal of a concatenation is the sum of the subtotals. */
  lemma {:induction false} DraftSubtotalAppend(a: seq<DraftLine>, b: seq<DraftLine>)
    ensures DraftSubtotal(a + b) == DraftSubtotal(a) + DraftSubtotal(b)
  {
    if b == [] {
      assert a + b == a;
    } else {
      assert (a + b)[..|a + b| - 1] == a + b[..|b| - 1];
      DraftSubtotalAppend(a, b[..|b| - 1]);
    }
  }

  /** Raising the quantity of line `k` by one raises the subtotal by that line's price. */
  lemma {:induction false} DraftSubtotalBump(items: seq<DraftLine>, k: int)
    requires 0 <= k < |items|
    ensures DraftSubtotal(items[k := items[k].(quantity := items[k].quantity + 1)]) == DraftSubtotal(items) + items[k].price
  {
    var n := |items| - 1;
    var bumped := items[k := items[k].(quantity := items[k].quantity + 1)];
    assert bumped[..n] == if k == n then items[..n] else items[..n][k := items[k].(quantity := items[k].quantity + 1)];
    if k < n {
      DraftSubtotalBump(items[..n], k);
    }
  }

  /** Each add raises the subtotal by the price of the line it touches: the
      existing line's snapshot price, or the menu price of the new line. */
  lemma AddedItemsSubtotal(items: seq<DraftLine>, m: MenuItem, k: int)
    requires OneLinePerItem(items)
    requires 0 <= k < |items| && items[k].menuItem.id == m.id
    ensures DraftSubtotal(AddedItems(items, m)) == DraftSubtotal(items) + items[k].price
  {
    var bumped := items[k := items[k].(quantity := items[k].quantity + 1)];
    var r := AddedItems(items, m);
    assert Contains(items, m.id);
    forall i | 0 <= i < |items| ensures r[i] == bumped[i] {
      if i < k {
        assert items[i].menuItem.id != items[k].menuItem.id;
      } else if k < i {
        assert items[k].menuItem.id != items[i].menuItem.id;
      }
    }
    assert r == bumped;
    DraftSubtotalBump(items, k);
  }

  /** A new item raises the subtotal by its menu price. */
  lemma AddedNewItemSubtotal(items: seq<DraftLine>, m: MenuItem)
    requires !Contains(items, m.id)
    ensures DraftSubtotal(AddedItems(items, m)) == DraftSubtotal(items) + m.price
  {
    DraftSubtotalAppend(items, [DraftLine(m, 1, m.price)]);
  }

  /** The create request of `handleSubmit`: the parsed table number, the lines
      as menu-item id, quantity and price, the draft's totals, and status and
      payment status pending; no payment method is sent. */
  function Payload(tableNumber: string, items: seq<DraftLine>, subtotal: int, tax: real, total: real): (p: OrderInput)
    ensures p.tableNumber == ParseInt(tableNumber)
    ensures p.status == Some("pending") && p.paymentStatus == Some("pending") && p.paymentMethod.None?
    ensures p.items == PayloadLines(items)
    ensures p.subtotal == Some(subtotal as real) && p.tax == Some(tax) && p.total == Some(total)
  {
    OrderInput(
      ParseInt(tableNumber), PayloadLines(items),
      Some(subtotal as real), Some(tax), Some(total),
      Some("pending"), Some("pending"), None)
  }

  /** The create request of a draft whose totals are the ones the page computes. */
  function DraftRequest(tableNumber: string, items: seq<DraftLine>): OrderInput {
    var subtotal := DraftSubtotal(items);
    var tax := DraftTax(subtotal);
    Payload(tableNumber, items, subtotal, tax, subtotal as real + tax)
  }

  /** `items.map(item => ({menuItem: item.menuItem._id, quantity, price}))`. */
  function PayloadLines(items: seq<DraftLine>): (r: seq<LineInput>)
    ensures |r| == |items|
    ensures forall i :: 0 <= i < |items| ==>
      r[i] == LineInput(Some(items[i].menuItem.id), Some(items[i].quantity), Some(items[i].price), None)
  {
    seq(|items|, i requires 0 <= i < |items| =>
      LineInput(Some(items[i].menuItem.id), Some(items[i].quantity), Some(items[i].price), None))
  }

  /** The order lines a draft becomes on the server. */
  function SubmittedLines(items: seq<DraftLine>): (r: seq<OrderLine>)
    ensures |r| == |items|
    ensures forall i :: 0 <= i < |items| ==> r[i] == OrderLine(items[i].menuItem.id, items[i].quantity, items[i].price, None)
  {
    seq(|items|, i requires 0 <= i < |items| => OrderLine(items[i].menuItem.id, items[i].quantity, items[i].price, None))
  }

  /** A draft with a numeric table number is accepted by the server: the new
      order is pending and unpaid, paid by cash by default, and holds the draft's
      lines in draft order and the totals the draft sent. */
  lemma PayloadAccepted(tableNumber: string, items: seq<DraftLine>, subtotal: int, tax: real, total: real, id: string, now: int)
    requires PositiveQuantities(items)
    requires ParseInt(tableNumber).Some?
    ensures var o := NewOrder(Payload(tableNumber, items, subtotal, tax, total), id, now);
      && o.Some?
      && o.value.status == Pending && o.value.paymentStatus == PaymentPending && o.value.paymentMethod == Cash
      && o.value.tableNumber == ParseInt(tableNumber).value
      && o.value.items == SubmittedLines(items)
      && o.value.subtotal == subtotal as real && o.value.tax == tax && o.value.total == total
  {
    var p := Payload(tableNumber, items, subtotal, tax, total);
    assert p.items == PayloadLines(items);
    PayloadLinesAccepted(items);
    assert NewLines(p.items) == Some(SubmittedLines(items));
    assert AcceptsOrderFields(p);
  }

  /** The server accepts every line of a draft with positive quantities, as the
      corresponding order line. */
  lemma PayloadLinesAccepted(items: seq<DraftLine>)
    requires PositiveQuantities(items)
    ensures NewLines(PayloadLines(items)) == Some(SubmittedLines(items))
  {
    var ls := PayloadLines(items);
    assert forall i :: 0 <= i < |items| ==> NewLine(ls[i]) == Some(SubmittedLines(items)[i]);
    var r := NewLines(ls);
    assert r.Some?;
    assert forall i :: 0 <= i < |items| ==> r.value[i] == SubmittedLines(items)[i];
    assert r.value == SubmittedLines(items);
  }

  /** The sum over submitted lines is the draft's subtotal. */
  lemma {:induction false} SubmittedLinesTotal(items: seq<DraftLine>)
    ensures LinesTotal(SubmittedLines(items)) == DraftSubtotal(items)
  {
    if items != [] {
      var n := |items| - 1;
      assert SubmittedLines(items)[..n] == SubmittedLines(items[..n]);
      SubmittedLinesTotal(items[..n]);
    }
  }

  /** For an order whose menu items all resolve and whose stored aggregates are
      the exact sum of its lines, a ten-percent tax and their sum, the bill shows
      the stored subtotal and differs from the stored tax and total only by the
      rounding, at most half a rupee. */
  lemma BillCloseToStored(o: Order, menu: map<string, MenuItem>)
    requires forall i :: 0 <= i < |o.items| ==> o.items[i].menuItem in menu
    requires o.subtotal == LinesTotal(o.items) as real
    requires o.tax == o.subtotal / 10.0 && o.total == o.subtotal + o.tax
    ensures var b := BillOf(o, menu);
      && |b.rows| == |o.items|
      && b.subtotal as real == o.subtotal
      && -0.5 < b.tax as real - o.tax <= 0.5
      && -0.5 < b.total as real - o.total <= 0.5
  {
    BillWithAllResolved(o, menu);
    var b := BillOf(o, menu);
    var x := b.subtotal as real;
    assert x == o.subtotal;
    assert x * 0.1 == o.tax;
    assert b.tax as real - 0.5 <= o.tax < b.tax as real + 0.5;
    assert b.total as real == x + b.tax as real;
  }

  /** For an order created from a draft whose menu items all still exist, the
      bill lists every line and shows the draft's subtotal; its tax and total
      can differ from the stored ones only by the rounding, at most half a rupee. */
  lemma BillAgreesWithDraft(tableNumber: string, items: seq<DraftLine>, id: string, now: int, menu: map<string, MenuItem>, o: Order)
    requires forall i :: 0 <= i < |items| ==> items[i].menuItem.id in menu
    requires NewOrder(DraftRequest(tableNumber, items), id, now) == Some(o)
    ensures var b := BillOf(o, menu);
      && |b.rows| == |items|
      && b.subtotal == DraftSubtotal(items)
      && -0.5 < b.tax as real - o.tax <= 0.5
      && -0.5 < b.total as real - o.total <= 0.5
  {
    CreatedFromDraft(tableNumber, items, id, now, o);
    SubmittedLinesTotal(items);
    BillCloseToStored(o, menu);
  }

  /** What an order created from a draft holds: the draft's lines and totals. */
  lemma CreatedFromDraft(tableNumber: string, items: seq<DraftLine>, id: string, now: int, o: Order)
    requires NewOrder(DraftRequest(tableNumber, items), id, now) == Some(o)
    ensures o.items == SubmittedLines(items)
    ensures o.subtotal == DraftSubtotal(items) as real
    ensures o.tax == DraftTax(DraftSubtotal(items)) && o.total == o.subtotal + o.tax
  {
    var body := DraftRequest(tableNumber, items);
    assert PositiveQuantities(items) by {
      assert forall i :: 0 <= i < |items| ==> NewLine(body.items[i]).Some?;
    }
    PayloadLinesAccepted(items);
  }

  /** A subtotal of 455 is stored with total 500.5 but billed as 501. */
  lemma StoredTotalDiffersFromBill()
    ensures DraftTax(455) == 45.5 && RoundedTax(455) == 46
  {
  }

  /** The draft order of the page: the table-number field, the lines and the totals. */
  class Draft {
    var tableNumber: string
    var items: seq<DraftLine>
    var subtotal: int
    var tax: real
    var total: real

    /** The totals always match the lines, and the lines are one per menu item. */
    ghost predicate Valid()
      reads this
    {
      && OneLinePerItem(items) && PositiveQuantities(items)
      && subtotal == DraftSubtotal(items)
      && tax == DraftTax(subtotal)
      && total == subtotal as real + tax
    }

    /** The initial state, and the state after a successful submit. */
    constructor ()
      ensures Valid() && tableNumber == "" && items == []
      ensures subtotal == 0 && tax == 0.0 && total == 0.0
    {
      tableNumber := "";
      items := [];
      subtotal := 0;
      tax := 0.0;
      total := 0.0;
    }

    /** The table-number input's `onChange`. */
    method SetTableNumber(s: string)
      requires Valid()
      modifies this`tableNumber
      ensures Valid() && tableNumber == s
    {
      tableNumber := s;
    }

    /** `updateOrderTotals`: replace the lines and recompute the totals from them. */
    method UpdateTotals(newItems: seq<DraftLine>)
      requires OneLinePerItem(newItems) && PositiveQuantities(newItems)
      modifies this`items, this`subtotal, this`tax, this`total
      ensures Valid() && items == newItems
    {
      items := newItems;
      subtotal := DraftSubtotal(newItems);
      tax := DraftTax(subtotal);
      total := subtotal as real + tax;
    }

    /** `addItemToOrder`: one click on a menu item. */
    method AddItem(m: MenuItem)
      requires Valid()
      modifies this`items, this`subtotal, this`tax, this`total
      ensures Valid() && items == AddedItems(old(items), m)
      ensures Contains(items, m.id) && |old(items)| <= |items| <= |old(items)| + 1
      ensures forall i :: 0 <= i < |old(items)| ==> items[i].menuItem == old(items)[i].menuItem && items[i].price == old(items)[i].price
    {
      AddPreservesDraft(items, m);
      UpdateTotals(AddedItems(items, m));
    }

    /** The form reset after a successful submit. */
    method Reset()
      modifies this
      ensures Valid() && tableNumber == "" && items == []
      ensures subtotal == 0 && tax == 0.0 && total == 0.0
    {
      tableNumber := "";
      items := [];
      subtotal := 0;
      tax := 0.0;
      total := 0.0;
    }

    /** `handleSubmit`: post the create request; on success reset the draft,
        on failure keep it as it was. The form is submitted only through the
        Create Order button, which is disabled while the draft has no lines,
        so the created order always has a line. */
    method Submit(store: OrderStore, id: string, now: int) returns (r: Response)
      requires Valid() && store.Valid()
      requires CreateEnabled(items)
      modifies this, store
      ensures Valid() && store.Valid()
      ensures r.Created? || r == BadRequest
      ensures var body := Payload(old(tableNumber), old(items), old(subtotal), old(tax), old(total));
        if r.Created? then
          && NewOrder(body, id, now) == Some(r.order) && id !in old(store.orders)
          && |r.order.items| == |old(items)| > 0
          && store.orders == old(store.orders)[id := r.order]
          && store.ids == old(store.ids) + [id]
          && tableNumber == "" && items == [] && subtotal == 0 && tax == 0.0 && total == 0.0
        else
          && store.orders == old(store.orders) && store.ids == old(store.ids)
          && tableNumber == old(tableNumber) && items == old(items)
          && subtotal == old(subtotal) && tax == old(tax) && total == old(total)
    {
      var body := Payload(tableNumber, items, subtotal, tax, total);
      r := store.Create(body, id, now);
      if r.Created? {
        Reset();
      }
    }
  }

  /** The Create Order button is enabled exactly when the draft has lines. */
  predicate CreateEnabled(items: seq<DraftLine>) {
    |items| > 0
  }

  /** Only a served, unpaid order shows Process Payment, in place of the kitchen buttons. */
  predicate ShowsProcessPayment(o: Order) {
    o.status == Served && o.paymentStatus == PaymentPending
  }

  /** Preparing is enabled only for a pending order. */
  predicate PreparingEnabled(o: Order) {
    o.status == Pending
  }

  /** Served is enabled only for an order being prepared. */
  predicate ServedEnabled(o: Order) {
    o.status == Preparing
  }

  /** Complete is shown only for a paid order ... */
  predicate ShowsComplete(o: Order) {
    o.paymentStatus == Paid
  }

  /** ... and enabled only once it is served. */
  predicate CompleteEnabled(o: Order) {
    o.status == Served
  }

  /** The Active Orders list: every order that is not completed, in fetched order. */
  function ActiveOrders(orders: seq<Order>): (r: seq<Order>)
    ensures forall o :: o in r <==> o in orders && o.status != Completed
    ensures IsSubsequence(r, orders)
  {
    FilterIsSubsequence(orders, (o: Order) => o.status != Completed);
    Filter(orders, (o: Order) => o.status != Completed)
  }

  /** What a user can do with an order on this page. */
  datatype Action = MarkPreparing | MarkServed | PayWith(paymentMethod: PaymentMethod) | MarkCompleted

  /** The action's button is on the page and enabled for the order. */
  predicate Offered(o: Order, a: Action) {
    && o.status != Completed
    && match a
       case MarkPreparing => !ShowsProcessPayment(o) && PreparingEnabled(o)
       case MarkServed => !ShowsProcessPayment(o) && ServedEnabled(o)
       case PayWith(_) => ShowsProcessPayment(o)
       case MarkCompleted => ShowsComplete(o) && CompleteEnabled(o)
  }

  /** The order after the server applies the request the button sends. */
  function Perform(o: Order, a: Action, now: int): (r: Order)
    ensures r.(status := o.status, paymentStatus := o.paymentStatus, paymentMethod := o.paymentMethod, updatedAt := o.updatedAt) == o
    ensures a.PayWith? ==> r.status == o.status && r.paymentStatus == Paid && r.paymentMethod == a.paymentMethod
    ensures !a.PayWith? ==> r.paymentStatus == o.paymentStatus && r.paymentMethod == o.paymentMethod
    ensures a == MarkPreparing ==> r.status == Preparing
    ensures a == MarkServed ==> r.status == Served
    ensures a == MarkCompleted ==> r.status == Completed
  {
    match a
    case MarkPreparing => WithStatus(o, Preparing, now)
    case MarkServed => WithStatus(o, Served, now)
    case PayWith(m) => WithPayment(o, Paid, m, now)
    case MarkCompleted => WithStatus(o, Completed, now)
  }

  /** The five states the buttons lead through, numbered 0 to 4. */
  function Stage(o: Order): Option<nat> {
    match (o.status, o.paymentStatus)
    case (Pending, PaymentPending) => Some(0)
    case (Preparing, PaymentPending) => Some(1)
    case (Served, PaymentPending) => Some(2)
    case (Served, Paid) => Some(3)
    case (Completed, Paid) => Some(4)
    case _ => None
  }

  /** On the buttons' path, exactly one step is offered at each stage: Preparing,
      then Served, then a payment, then Complete; nothing once completed. */
  lemma OfferedExactlyNextStep(o: Order, a: Action)
    requires Stage(o).Some?
    ensures Offered(o, a) <==>
      || (Stage(o) == Some(0) && a == MarkPreparing)
      || (Stage(o) == Some(1) && a == MarkServed)
      || (Stage(o) == Some(2) && a.PayWith?)
      || (Stage(o) == Some(3) && a == MarkCompleted)
  {
  }

  /** Every offered step moves an order on the path one stage forward. */
  lemma OfferedStepAdvances(o: Order, a: Action, now: int)
    requires Stage(o).Some? && Offered(o, a)
    ensures Stage(Perform(o, a, now)).Some? && Stage(Perform(o, a, now)).value == Stage(o).value + 1
  {
  }

  /** `actions` can be clicked one after the other, starting from `o`. */
  predicate OfferedRun(o: Order, actions: seq<Action>, now: int)
    decreases |actions|
  {
    actions == [] || (Offered(o, actions[0]) && OfferedRun(Perform(o, actions[0], now), actions[1..], now))
  }

  /** The order after the clicks. */
  function Run(o: Order, actions: seq<Action>, now: int): Order
    decreases |actions|
  {
    if actions == [] then o else Run(Perform(o, actions[0], now), actions[1..], now)
  }

  /** Any sequence of clicks on an order on the path stays on the path and moves
      one stage per click, so at most four clicks are possible in all. */
  lemma {:induction false} OfferedRunAdvances(o: Order, actions: seq<Action>, now: int)
    requires Stage(o).Some? && OfferedRun(o, actions, now)
    decreases |actions|
    ensures Stage(Run(o, actions, now)).Some?
    ensures Stage(Run(o, actions, now)).value == Stage(o).value + |actions|
  {
    if actions != [] {
      OfferedStepAdvances(o, actions[0], now);
      OfferedRunAdvances(Perform(o, actions[0], now), actions[1..], now);
    }
  }

  /** Through this page a new order is completed only after it is paid, and
      only after at most four clicks; it never reaches cancelled. */
  lemma ClicksFromNewOrder(body: OrderInput, id: string, now: int, actions: seq<Action>, later: int)
    requires NewOrder(body, id, now).Some?
    requires OfferedRun(NewOrder(body, id, now).value, actions, later)
    ensures var o := Run(NewOrder(body, id, now).value, actions, later);
      && |actions| <= 4
      && o.status != Cancelled
      && (o.status == Completed ==> o.paymentStatus == Paid && |actions| == 4)
  {
    OfferedRunAdvances(NewOrder(body, id, now).value, actions, later);
  }
}
