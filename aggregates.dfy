/** The dashboard figures (calculate_totals and the net-income line of
    update_dashboard): sums over the sales and expenses tables, all-time or
    restricted to today's date, each 0 when nothing is summed. */
module Aggregates {
  import opened Records
  import opened Checkout

  /** An amount and the timestamp it is filed under: a sale's total price or
      an expense's amount. */
  datatype Entry = Entry(amount: real, stamp: Timestamp)

  function SaleEntries(s: seq<Sale>): seq<Entry> {
    seq(|s|, i requires 0 <= i < |s| => Entry(s[i].totalPrice, s[i].saleDate))
  }

  function ExpenseEntries(e: seq<Expense>): seq<Entry> {
    seq(|e|, i requires 0 <= i < |e| => Entry(e[i].amount, e[i].expenseDate))
  }

  /** The date filter `date(stamp) = day`: the date part of a
      "YYYY-MM-DD HH:MM:SS" timestamp is its first ten characters. */
  predicate OnDay(stamp: Timestamp, day: Date) {
    |stamp| >= 10 && stamp[..10] == day
  }

  /** A record stamped "YYYY-MM-DD HH:MM:SS" counts toward a day exactly when
      its "YYYY-MM-DD" part is that day, whatever its time of day. */
  lemma StampOnItsDate(date: Date, time: string, day: Date)
    requires |date| == 10
    ensures OnDay(date + " " + time, day) <==> day == date
  {
    assert (date + " " + time)[..10] == date;
  }

  /** SUM over all entries, 0 for none. */
  function Sum(es: seq<Entry>): real {
    if es == [] then 0.0 else Sum(es[..|es| - 1]) + es[|es| - 1].amount
  }

  /** SUM over the entries filed on `day`, 0 for none. */
  function SumOn(es: seq<Entry>, day: Date): real {
    if es == [] then 0.0
    else SumOn(es[..|es| - 1], day) + (if OnDay(es[|es| - 1].stamp, day) then es[|es| - 1].amount else 0.0)
  }

  /** The four figures calculate_totals returns. */
  datatype Totals = Totals(
    totalIncome: real,
    totalExpenses: real,
    todaySalesTotal: real,
    todayExpensesTotal: real)

  function CalculateTotals(sales: seq<Sale>, expenses: seq<Expense>, today: Date): (t: Totals)
    ensures sales == [] ==> t.totalIncome == 0.0 && t.todaySalesTotal == 0.0
    ensures expenses == [] ==> t.totalExpenses == 0.0 && t.todayExpensesTotal == 0.0
    ensures (forall i :: 0 <= i < |sales| ==> sales[i].totalPrice >= 0.0)
      ==> 0.0 <= t.todaySalesTotal <= t.totalIncome
    ensures (forall i :: 0 <= i < |expenses| ==> expenses[i].amount >= 0.0)
      ==> 0.0 <= t.todayExpensesTotal <= t.totalExpenses
  {
    SumOnBounded(SaleEntries(sales), today);
    SumOnBounded(ExpenseEntries(expenses), today);
    Totals(Sum(SaleEntries(sales)), Sum(ExpenseEntries(expenses)),
           SumOn(SaleEntries(sales), today), SumOn(ExpenseEntries(expenses), today))
  }

  /** The dashboard's net income: today's sales less today's expenses. */
  function NetIncome(t: Totals): (r: real)
    ensures r < 0.0 <==> t.todayExpensesTotal > t.todaySalesTotal
    ensures r == 0.0 <==> t.todayExpensesTotal == t.todaySalesTotal
  {
    t.todaySalesTotal - t.todayExpensesTotal
  }

  /** The value of a cart: captured price times quantity, summed over its lines. */
  function CartValue(lines: seq<CartLine>): real {
    if lines == [] then 0.0
    else CartValue(lines[..|lines| - 1]) + lines[|lines| - 1].price * lines[|lines| - 1].toSell as real
  }

  /** Appending records adds their sum. */
  lemma {:induction false} SumAppend(a: seq<Entry>, b: seq<Entry>)
    ensures Sum(a + b) == Sum(a) + Sum(b)
  {
    if b != [] {
      assert (a + b)[..|a + b| - 1] == a + b[..|b| - 1];
      SumAppend(a, b[..|b| - 1]);
    } else {
      assert a + b == a;
    }
  }

  /** Appending records adds the sum of those filed on the day. */
  lemma {:induction false} SumOnAppend(a: seq<Entry>, b: seq<Entry>, day: Date)
    ensures SumOn(a + b, day) == SumOn(a, day) + SumOn(b, day)
  {
    if b != [] {
      assert (a + b)[..|a + b| - 1] == a + b[..|b| - 1];
      SumOnAppend(a, b[..|b| - 1], day);
    } else {
      assert a + b == a;
    }
  }

  /** A day with no record on it sums to 0 (the `or 0` default). */
  lemma {:induction false} SumOnNoneThatDay(es: seq<Entry>, day: Date)
    requires forall i :: 0 <= i < |es| ==> !OnDay(es[i].stamp, day)
    ensures SumOn(es, day) == 0.0
  {
    if es != [] {
      SumOnNoneThatDay(es[..|es| - 1], day);
    }
  }

  /** When every record is filed on the day, today's sum is the all-time sum. */
  lemma {:induction false} SumOnAllThatDay(es: seq<Entry>, day: Date)
    requires forall i :: 0 <= i < |es| ==> OnDay(es[i].stamp, day)
    ensures SumOn(es, day) == Sum(es)
  {
    if es != [] {
      SumOnAllThatDay(es[..|es| - 1], day);
    }
  }

  /** With non-negative amounts, today's sum lies between 0 and the
      all-time sum. */
  lemma {:induction false} SumOnBounded(es: seq<Entry>, day: Date)
    ensures (forall i :: 0 <= i < |es| ==> es[i].amount >= 0.0) ==> 0.0 <= SumOn(es, day) <= Sum(es)
  {
    if es != [] {
      SumOnBounded(es[..|es| - 1], day);
    }
  }

  /** The sale records of a cart sum to the cart's value. */
  lemma {:induction false} SalesSumToCartValue(lines: seq<CartLine>, now: Timestamp)
    ensures Sum(SaleEntries(SalesFor(lines, now))) == CartValue(lines)
  {
    if lines != [] {
      var init := lines[..|lines| - 1];
      assert SaleEntries(SalesFor(lines, now))[..|lines| - 1] == SaleEntries(SalesFor(init, now));
      SalesSumToCartValue(init, now);
    }
  }

  /** A sale raises all-time income by the cart's value, and today's sales by
      the same when it is stamped today (and not at all otherwise). */
  lemma SaleRaisesIncome(sales: seq<Sale>, expenses: seq<Expense>, lines: seq<CartLine>,
                         now: Timestamp, today: Date)
    ensures var before := CalculateTotals(sales, expenses, today);
      var after := CalculateTotals(sales + SalesFor(lines, now), expenses, today);
      && after.totalIncome == before.totalIncome + CartValue(lines)
      && after.todaySalesTotal == before.todaySalesTotal + (if OnDay(now, today) then CartValue(lines) else 0.0)
      && after.totalExpenses == before.totalExpenses
      && after.todayExpensesTotal == before.todayExpensesTotal
  {
    var added := SaleEntries(SalesFor(lines, now));
    assert SaleEntries(sales + SalesFor(lines, now)) == SaleEntries(sales) + added;
    SumAppend(SaleEntries(sales), added);
    SumOnAppend(SaleEntries(sales), added, today);
    SalesSumToCartValue(lines, now);
    if OnDay(now, today) {
      SumOnAllThatDay(added, today);
    } else {
      SumOnNoneThatDay(added, today);
    }
  }

  /** An expense stamped today raises total and today's expenses by its
      amount and lowers net income by the same. */
  lemma ExpenseLowersNetIncome(sales: seq<Sale>, expenses: seq<Expense>, e: Expense, today: Date)
    requires OnDay(e.expenseDate, today)
    ensures var before := CalculateTotals(sales, expenses, today);
      var after := CalculateTotals(sales, expenses + [e], today);
      && after.totalExpenses == before.totalExpenses + e.amount
      && after.todayExpensesTotal == before.todayExpensesTotal + e.amount
      && NetIncome(after) == NetIncome(before) - e.amount
      && after.totalIncome == before.totalIncome
  {
    assert ExpenseEntries(expenses + [e])[..|expenses|] == ExpenseEntries(expenses);
  }

  /** A day without sales or expenses shows zeros; one sale of 9.99 made
      that day shows 9.99 as today's sales. */
  lemma QuietDayThenOneSale(day: Date, stamp: Timestamp)
    requires OnDay(stamp, day)
    ensures CalculateTotals([], [], day) == Totals(0.0, 0.0, 0.0, 0.0)
    ensures CalculateTotals([Sale("Widget", 1, 9.99, stamp)], [], day).todaySalesTotal == 9.99
  {
    assert SaleEntries([Sale("Widget", 1, 9.99, stamp)]) == [Entry(9.99, stamp)];
    assert [Entry(9.99, stamp)][..0] == [];
  }
}
