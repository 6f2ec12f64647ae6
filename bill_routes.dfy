/**
 The bill routes (server/routes/bills.js): the content of the printed bill for
 one order, and the daily sales report.
 The bill is recomputed from the order's lines and the menu items they
 reference; the stored subtotal, tax and total are never read. The PDF layout
 (fonts, coordinates, rules, the footer) is not modelled, only what the bill says.
 The menu is the lookup `populate` performs: a line whose menu item is no longer
 there does not resolve.
 */
module BillRoutes {
  import opened Common
  import opened MenuModel
  import opened OrderModel

  /** The characters of an item name that fit on a bill line. */
  const NameBudget: nat := 25
  /** How much of a longer name is kept before the ellipsis. */
  const NameKept: nat := 22

  /** One row of the item table: name, quantity, rate and amount. */
  datatype BillRow = BillRow(name: string, quantity: int, rate: int, amount: int)

  /** The payment information block: method, amount paid, and the order's last update time. */
  datatype PaymentInfo = PaymentInfo(paidBy: string, amountPaid: int, paidAt: int)

  datatype Bill = Bill(
    billNo: string,
    date: int,
    tableNumber: int,
    rows: seq<BillRow>,
    subtotal: int,
    tax: int,
    total: int,
    payment: Option<PaymentInfo>)

  /** The response of GET /order/:orderId: a bill or 404. */
  datatype BillResponse = BillOk(bill: Bill) | BillNotFound

  /** A name longer than the budget keeps its first 22 characters and gets "..." appended. */
  function DisplayName(name: string): (r: string)
    ensures |r| <= NameBudget
    ensures |name| <= NameBudget <==> r == name
    ensures |name| > NameBudget ==> |r| == NameBudget && r[..NameKept] == name[..NameKept] && r[NameKept..] == "..."
  {
    if |name| > NameBudget then name[..NameKept] + "..." else name
  }

  /** `toUpperCase` on one character; only ASCII letters are mapped. */
  function UpperChar(c: char): (r: char)
    ensures !('a' <= r <= 'z')
    ensures 'a' <= c <= 'z' ==> r as int == c as int - 32
    ensures !('a' <= c <= 'z') ==> r == c
  {
    if 'a' <= c <= 'z' then (c as int - 32) as char else c
  }

  /** `toUpperCase` on a string, character by character. */
  function Upper(s: string): (r: string)
    ensures |r| == |s|
    ensures forall i :: 0 <= i < |s| ==> r[i] == UpperChar(s[i])
  {
    if s == [] then [] else [UpperChar(s[0])] + Upper(s[1..])
  }

  /** Upper-casing twice is upper-casing once. */
  lemma {:induction false} UpperIdempotent(s: string)
    ensures Upper(Upper(s)) == Upper(s)
  {
    var u := Upper(s);
    assert forall i :: 0 <= i < |s| ==> Upper(u)[i] == UpperChar(u[i]) == u[i];
  }

  /** `_id.toString().slice(-8).toUpperCase()`: the last eight characters of the
      id (all of it when shorter), upper-cased. */
  function BillNumber(id: string): (r: string)
    ensures |r| == if |id| < 8 then |id| else 8
    ensures r == Upper(id[|id| - |r|..])
  {
    Upper(if |id| <= 8 then id else id[|id| - 8..])
  }

  /** `Math.round(subtotal * 0.1)`: the integer nearest to a tenth of the
      subtotal, halves rounded up. */
  function RoundedTax(subtotal: int): (t: int)
    ensures (t as real) - 0.5 <= (subtotal as real) * 0.1 < (t as real) + 0.5
    ensures subtotal >= 0 ==> t >= 0
  {
    var t := (subtotal + 5) / 10;
    assert 10 * t <= subtotal + 5 < 10 * t + 10;
    t
  }

  /** Exactly one integer lies in the rounding window, so `RoundedTax` is `Math.round`. */
  lemma RoundedTaxUnique(subtotal: int, t: int)
    requires (t as real) - 0.5 <= (subtotal as real) * 0.1 < (t as real) + 0.5
    ensures t == RoundedTax(subtotal)
  {
    var u := RoundedTax(subtotal);
    assert (10 * t) as real - 5.0 <= subtotal as real < (10 * t) as real + 5.0;
    assert (10 * u) as real - 5.0 <= subtotal as real < (10 * u) as real + 5.0;
    assert 10 * t - 5 <= subtotal < 10 * t + 5;
    assert 10 * u - 5 <= subtotal < 10 * u + 5;
  }

  /** The row printed for a line whose menu item resolved to `m`: the menu's
      current name, but the price snapshot of the line. */
  function RowFor(l: OrderLine, m: MenuItem): (r: BillRow)
    ensures r.amount == r.quantity * r.rate && |r.name| <= NameBudget
    ensures r.quantity == l.quantity && r.rate == l.price
    ensures r.name == DisplayName(m.name)
  {
    BillRow(DisplayName(m.name), l.quantity, l.price, l.quantity * l.price)
  }

  /** The lines whose menu item resolves. */
  function ResolvedLines(items: seq<OrderLine>, menu: map<string, MenuItem>): (r: seq<OrderLine>)
    ensures forall l :: l in r <==> l in items && l.menuItem in menu
  {
    Filter(items, (l: OrderLine) => l.menuItem in menu)
  }

  /** The resolved lines keep the order of the order's lines. */
  lemma ResolvedLinesInOrder(items: seq<OrderLine>, menu: map<string, MenuItem>)
    ensures IsSubsequence(ResolvedLines(items, menu), items)
  {
    FilterIsSubsequence(items, (l: OrderLine) => l.menuItem in menu);
  }

  /** A resolved line that occurs several times in the order is kept as often
      as it occurs, and so is printed and summed each time. */
  lemma ResolvedLinesKeepRepeats(items: seq<OrderLine>, menu: map<string, MenuItem>)
    ensures forall l :: multiset(ResolvedLines(items, menu))[l] == if l.menuItem in menu then multiset(items)[l] else 0
  {
    FilterMultiplicity(items, (l: OrderLine) => l.menuItem in menu);
  }

  /** The rows of the item table: one per line, unresolved lines skipped. */
  function Rows(items: seq<OrderLine>, menu: map<string, MenuItem>): (r: seq<BillRow>)
    ensures |r| <= |items|
  {
    if items == [] then []
    else
      var l := items[|items| - 1];
      Rows(items[..|items| - 1], menu) + (if l.menuItem in menu then [RowFor(l, menu[l.menuItem])] else [])
  }

  /** The sum of the rows' amounts. */
  function RowsTotal(rows: seq<BillRow>): int {
    if rows == [] then 0 else RowsTotal(rows[..|rows| - 1]) + rows[|rows| - 1].amount
  }

  /** The sum of quantity times price over some lines. */
  function LinesTotal(lines: seq<OrderLine>): int {
    if lines == [] then 0 else LinesTotal(lines[..|lines| - 1]) + lines[|lines| - 1].quantity * lines[|lines| - 1].price
  }

  /** Rows and lines that match one for one: each row is the row of its line. */
  predicate RowsMatch(rows: seq<BillRow>, lines: seq<OrderLine>, menu: map<string, MenuItem>) {
    && |rows| == |lines|
    && forall k :: 0 <= k < |rows| ==> lines[k].menuItem in menu && rows[k] == RowFor(lines[k], menu[lines[k].menuItem])
  }

  /** A resolved line added after matching rows and lines, with its row, keeps them matching. */
  lemma RowsMatchExtend(rows: seq<BillRow>, lines: seq<OrderLine>, l: OrderLine, menu: map<string, MenuItem>)
    requires RowsMatch(rows, lines, menu) && l.menuItem in menu
    ensures RowsMatch(rows + [RowFor(l, menu[l.menuItem])], lines + [l], menu)
  {
    var rs := rows + [RowFor(l, menu[l.menuItem])];
    var ls := lines + [l];
    assert forall k :: 0 <= k < |rows| ==> rs[k] == rows[k] && ls[k] == lines[k];
  }

  /** The item table has one row per resolved line, in order, and nothing else. */
  lemma {:induction false} RowsAreResolvedLines(items: seq<OrderLine>, menu: map<string, MenuItem>)
    ensures RowsMatch(Rows(items, menu), ResolvedLines(items, menu), menu)
  {
    if items != [] {
      var n := |items| - 1;
      var l := items[n];
      var pre := items[..n];
      RowsAreResolvedLines(pre, menu);
      assert items == pre + [l];
      FilterAppend(pre, [l], (l: OrderLine) => l.menuItem in menu);
      if l.menuItem in menu {
        assert Filter([l], (l: OrderLine) => l.menuItem in menu) == [l];
        RowsMatchExtend(Rows(pre, menu), ResolvedLines(pre, menu), l, menu);
      } else {
        assert Filter([l], (l: OrderLine) => l.menuItem in menu) == [];
      }
    }
  }

  /** Rows that match lines one for one add up to the lines' total. */
  lemma {:induction false} RowsTotalOfMatchingRows(rows: seq<BillRow>, lines: seq<OrderLine>, menu: map<string, MenuItem>)
    requires RowsMatch(rows, lines, menu)
    ensures RowsTotal(rows) == LinesTotal(lines)
  {
    if rows != [] {
      RowsTotalOfMatchingRows(rows[..|rows| - 1], lines[..|lines| - 1], menu);
    }
  }

  /** The bill's subtotal is the sum of quantity times price over the resolved lines only. */
  lemma BillSubtotalSkipsUnresolved(items: seq<OrderLine>, menu: map<string, MenuItem>)
    ensures RowsTotal(Rows(items, menu)) == LinesTotal(ResolvedLines(items, menu))
  {
    RowsAreResolvedLines(items, menu);
    RowsTotalOfMatchingRows(Rows(items, menu), ResolvedLines(items, menu), menu);
  }

  /** Lines filtered on a condition that every line meets are all the lines. */
  lemma FilterAll(items: seq<OrderLine>, menu: map<string, MenuItem>)
    requires forall i :: 0 <= i < |items| ==> items[i].menuItem in menu
    ensures ResolvedLines(items, menu) == items
  {
    FilterKeepsAll(items, (l: OrderLine) => l.menuItem in menu);
  }

  /** The bill of an order, given its item table and subtotal: the tax is
      rounded from the subtotal, and the payment block appears for a paid order. */
  function BillFromRows(o: Order, rows: seq<BillRow>, subtotal: int): Bill {
    var tax := RoundedTax(subtotal);
    Bill(
      BillNumber(o.id), o.createdAt, o.tableNumber, rows, subtotal, tax, subtotal + tax,
      if o.paymentStatus == Paid then Some(PaymentInfo(Upper(MethodName(o.paymentMethod)), subtotal + tax, o.updatedAt))
      else None)
  }

  /** What GET /order/:orderId prints for an order that exists. */
  function BillOf(o: Order, menu: map<string, MenuItem>): (b: Bill)
    ensures b.subtotal == LinesTotal(ResolvedLines(o.items, menu))
    ensures b.subtotal == RowsTotal(b.rows)
    ensures (b.tax as real) - 0.5 <= (b.subtotal as real) * 0.1 < (b.tax as real) + 0.5
    ensures b.total == b.subtotal + b.tax
    ensures |b.rows| == |ResolvedLines(o.items, menu)|
    ensures RowsMatch(b.rows, ResolvedLines(o.items, menu), menu)
    ensures forall k :: 0 <= k < |b.rows| ==> |b.rows[k].name| <= NameBudget
    ensures b.payment.Some? <==> o.paymentStatus == Paid
    ensures b.payment.Some? ==>
      && b.payment.value.paidBy == Upper(MethodName(o.paymentMethod))
      && b.payment.value.amountPaid == b.total
      && b.payment.value.paidAt == o.updatedAt
    ensures b.billNo == BillNumber(o.id) && b.date == o.createdAt && b.tableNumber == o.tableNumber
  {
    BillSubtotalSkipsUnresolved(o.items, menu);
    RowsAreResolvedLines(o.items, menu);
    BillFromRows(o, Rows(o.items, menu), LinesTotal(ResolvedLines(o.items, menu)))
  }

  /** The bill of an order is assembled from its item table and subtotal. */
  lemma BillOfTabulated(o: Order, menu: map<string, MenuItem>, rows: seq<BillRow>, subtotal: int)
    requires rows == Rows(o.items, menu) && subtotal == LinesTotal(ResolvedLines(o.items, menu))
    ensures BillOf(o, menu) == BillFromRows(o, rows, subtotal)
  {
  }

  /** The stored subtotal, tax and total have no influence on the bill. */
  lemma BillIgnoresStoredTotals(o: Order, menu: map<string, MenuItem>, subtotal: real, tax: real, total: real)
    ensures BillOf(o.(subtotal := subtotal, tax := tax, total := total), menu) == BillOf(o, menu)
  {
  }

  /** When every menu item still resolves, the bill lists every line and its
      subtotal is the sum over all lines. */
  lemma BillWithAllResolved(o: Order, menu: map<string, MenuItem>)
    requires forall i :: 0 <= i < |o.items| ==> o.items[i].menuItem in menu
    ensures BillOf(o, menu).subtotal == LinesTotal(o.items)
    ensures |BillOf(o, menu).rows| == |o.items|
  {
    FilterAll(o.items, menu);
  }

  /** The item loop of GET /order/:orderId: walks the lines in order, skips
      those whose menu item did not resolve, and accumulates the subtotal. */
  method TabulateItems(items: seq<OrderLine>, menu: map<string, MenuItem>) returns (rows: seq<BillRow>, subtotal: int)
    ensures rows == Rows(items, menu)
    ensures subtotal == LinesTotal(ResolvedLines(items, menu))
  {
    rows := [];
    subtotal := 0;
    for i := 0 to |items|
      invariant rows == Rows(items[..i], menu)
      invariant subtotal == RowsTotal(rows)
    {
      var item := items[i];
      assert items[..i + 1][..i] == items[..i];
      if item.menuItem !in menu {
        continue;
      }
      var name := DisplayName(menu[item.menuItem].name);
      var amount := item.quantity * item.price;
      ghost var before := rows;
      subtotal := subtotal + amount;
      rows := rows + [BillRow(name, item.quantity, item.price, amount)];
      assert rows[..|rows| - 1] == before;
    }
    assert items[..|items|] == items;
    BillSubtotalSkipsUnresolved(items, menu);
  }

  /** GET /order/:orderId: 404 for an unknown id, before any bill content is
      produced; otherwise the item table is tabulated and the bill assembled from it. */
  method GenerateBill(orders: map<string, Order>, menu: map<string, MenuItem>, orderId: string) returns (r: BillResponse)
    ensures orderId !in orders ==> r == BillNotFound
    ensures orderId in orders ==> r == BillOk(BillOf(orders[orderId], menu))
  {
    if orderId !in orders {
      return BillNotFound;
    }
    var order := orders[orderId];
    var rows, subtotal := TabulateItems(order.items, menu);
    BillOfTabulated(order, menu, rows, subtotal);
    r := BillOk(BillFromRows(order, rows, subtotal));
  }

  /** Per-method counts of the daily report. */
  datatype MethodCounts = MethodCounts(cash: nat, card: nat, upi: nat)

  /** GET /daily-report: the start of the day, the number of orders, their sales
      and the per-method counts. */
  datatype DailyReport = DailyReport(date: int, totalOrders: nat, totalSales: real, paymentMethods: MethodCounts)

  /** The query of the report: paid, and created at or after the start of the day. */
  predicate InDailyReport(o: Order, startOfDay: int) {
    o.paymentStatus == Paid && o.createdAt >= startOfDay
  }

  /** The orders the report query returns, in the order they were fetched. */
  function ReportedOrders(orders: seq<Order>, startOfDay: int): (r: seq<Order>)
    ensures forall o :: o in r <==> o in orders && InDailyReport(o, startOfDay)
  {
    Filter(orders, (o: Order) => InDailyReport(o, startOfDay))
  }

  /** `reduce((sum, order) => sum + order.total, 0)`. */
  function SalesTotal(orders: seq<Order>): (r: real)
    ensures (forall i :: 0 <= i < |orders| ==> orders[i].total >= 0.0) ==> r >= 0.0
  {
    if orders == [] then 0.0 else SalesTotal(orders[..|orders| - 1]) + orders[|orders| - 1].total
  }

  /** `filter(order => order.paymentMethod === m).length`. */
  function CountWith(orders: seq<Order>, m: PaymentMethod): (r: nat)
    ensures r <= |orders|
    ensures r == 0 <==> forall i :: 0 <= i < |orders| ==> orders[i].paymentMethod != m
  {
    var f := Filter(orders, (o: Order) => o.paymentMethod == m);
    assert f != [] ==> f[0] in f;
    assert forall i :: 0 <= i < |orders| ==> orders[i] in orders;
    |f|
  }

  /** The report over the orders the store holds; `startOfDay` is today at midnight. */
  function Report(orders: seq<Order>, startOfDay: int): (r: DailyReport)
    ensures r.date == startOfDay
    ensures r.totalOrders <= |orders|
    ensures r.totalOrders == 0 <==> forall i :: 0 <= i < |orders| ==> !InDailyReport(orders[i], startOfDay)
    ensures r.paymentMethods.cash <= r.totalOrders && r.paymentMethods.card <= r.totalOrders && r.paymentMethods.upi <= r.totalOrders
  {
    var paid := ReportedOrders(orders, startOfDay);
    DailyReport(startOfDay, |paid|, SalesTotal(paid),
      MethodCounts(CountWith(paid, Cash), CountWith(paid, Card), CountWith(paid, Upi)))
  }

  /** Every order has exactly one of the three methods, so the counts partition the orders. */
  lemma {:induction false} MethodCountsPartition(orders: seq<Order>)
    ensures CountWith(orders, Cash) + CountWith(orders, Card) + CountWith(orders, Upi) == |orders|
  {
    if orders != [] {
      MethodCountsPartition(orders[1..]);
    }
  }

  /** The per-method counts add up to the number of orders in the report. */
  lemma ReportCountsAddUp(orders: seq<Order>, startOfDay: int)
    ensures var r := Report(orders, startOfDay);
      r.paymentMethods.cash + r.paymentMethods.card + r.paymentMethods.upi == r.totalOrders
  {
    MethodCountsPartition(ReportedOrders(orders, startOfDay));
  }

  /** With no paid order from today, every field of the report is zero. */
  lemma ReportEmpty(orders: seq<Order>, startOfDay: int)
    requires forall i :: 0 <= i < |orders| ==> !InDailyReport(orders[i], startOfDay)
    ensures Report(orders, startOfDay) == DailyReport(startOfDay, 0, 0.0, MethodCounts(0, 0, 0))
  {
  }

  /** The sales total of a concatenation is the sum of the sales totals. */
  lemma {:induction false} SalesTotalAppend(a: seq<Order>, b: seq<Order>)
    ensures SalesTotal(a + b) == SalesTotal(a) + SalesTotal(b)
  {
    if b != [] {
      assert (a + b)[..|a + b| - 1] == a + b[..|b| - 1];
      SalesTotalAppend(a, b[..|b| - 1]);
    } else {
      assert a + b == a;
    }
  }

  /** One more order in the store adds to the report exactly when it is paid
      and from today: the count by one, the sales by its total, its method's count by one. */
  lemma ReportAddOrder(orders: seq<Order>, o: Order, startOfDay: int)
    ensures var before := Report(orders, startOfDay);
      var after := Report(orders + [o], startOfDay);
      if InDailyReport(o, startOfDay) then
        && after.totalOrders == before.totalOrders + 1
        && after.totalSales == before.totalSales + o.total
        && after.paymentMethods.cash == before.paymentMethods.cash + (if o.paymentMethod == Cash then 1 else 0)
        && after.paymentMethods.card == before.paymentMethods.card + (if o.paymentMethod == Card then 1 else 0)
        && after.paymentMethods.upi == before.paymentMethods.upi + (if o.paymentMethod == Upi then 1 else 0)
      else after == before
  {
    var p := (x: Order) => InDailyReport(x, startOfDay);
    FilterAppend(orders, [o], p);
    var paid := ReportedOrders(orders, startOfDay);
    if InDailyReport(o, startOfDay) {
      assert ReportedOrders(orders + [o], startOfDay) == paid + [o];
      SalesTotalAppend(paid, [o]);
      FilterAppend(paid, [o], (x: Order) => x.paymentMethod == Cash);
      FilterAppend(paid, [o], (x: Order) => x.paymentMethod == Card);
      FilterAppend(paid, [o], (x: Order) => x.paymentMethod == Upi);
    } else {
      assert ReportedOrders(orders + [o], startOfDay) == paid;
    }
  }
}
