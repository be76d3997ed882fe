# Store inventory and point-of-sale ledger — Dafny model

This project models the state machine of a single-till store inventory
program (`main.py`). The program keeps a products table, a cart of lines
staged for sale, an append-only sales table and an append-only expenses
table. Its screens call five operations on them:

- add or restock a product (`add_or_update_product`);
- add a line to the cart (`add_to_cart`);
- remove the selected lines from the cart (`remove_from_cart`);
- sell the cart (`sell_products`);
- record an expense (`add_expense`).

The dashboard reads figures derived from the tables (`calculate_totals`
and the net-income line of `update_dashboard`).

The tables are held in memory as sequences in insertion order, which is the
order the program's `SELECT`s return them. Money is an exact `real`. Stock
quantities are unbounded integers. The current date ("YYYY-MM-DD") and
timestamp ("YYYY-MM-DD HH:MM:SS") are parameters.

Files:

- `records.dfy` (module `Records`): the table rows, the cart line and the
  outcome each handler reports.
- `catalog.dfy` (module `Catalog`): the product-table invariant (unique
  names, unique ids, positive price, non-negative stock), the lookup by
  name and the add-or-restock rule, with lemmas for both branches.
- `checkout.dfy` (module `Checkout`): the cart guard, item removal, and the
  effect of a sale on the products and sales tables.
- `aggregates.dfy` (module `Aggregates`): the all-time and today-only sums
  and net income.
- `store.dfy` (module `Store`): class `Store`. Its fields are the tables,
  the cart and the two id counters. Its methods are the five operations,
  each proved against the functions above and keeping `Valid()`.

A sale follows the code, not an idealised checkout. For each cart line, in
cart order, the product's quantity is SET to the quantity captured when
the line was added, minus the quantity sold. It is not decremented from the
current stock, and stock is not re-checked at sale time. Two consequences
are proved:

- When several lines name one product, the last of them decides its
  quantity (`Checkout.ApplyLinesLastWins`).
- Restocking between adding a line and selling it is overwritten.

The add-time guard alone keeps stock non-negative
(`Checkout.ApplyLinesNonNegative`).

## A sale does not re-check stock

The sale never re-reads a product's current stock and never refuses a line
at sale time. It writes the captured quantity minus the quantity sold.

Take Widget with stock 10. Lines for 3 and 4 units are both added while 10
is shown. The sale writes 10 − 3 and then 10 − 4, so the stock ends at 6
while 7 units are recorded as sold (`Checkout.TwoLinesOneProduct`). A
checkout that decremented the current stock would leave 3.

Removing cart lines has no error for a missing line either. The selected
lines are removed, and only an empty selection is refused.

## Model

| member | source | states |
|---|---|---|
| `Catalog.FindByName` | main.py:85-86 | The lookup by exact name returns a position holding that name with no earlier one, or None exactly when no product has the name |
| `Catalog.UpsertExisting` | main.py:85-89 | Restocking an existing name keeps the row count. That row gets quantity old + given and the new price and photo, and keeps its id, name and date added. Every other row is unchanged |
| `Catalog.UpsertNew` | main.py:90-92 | An unseen name appends exactly one product with the next id, the given price, quantity and photo, and today's date |
| `Catalog.UpsertKeepsRows` | main.py:84-92 | An upsert adds at most one row and keeps every existing row's position, id and name |
| `Catalog.UpsertKeepsValid` | main.py:84-92 | An accepted upsert keeps names unique, ids distinct and below the next id, prices positive and stock non-negative |
| `Catalog.Upserted` | main.py:84-92 | The add-or-restock result keeps the row count when the name exists and adds one row otherwise. A row with the name, the given price and the given photo is always present. Unique names stay unique |
| `Store.Store.constructor` | main.py:7-39 | A fresh database: empty tables, empty cart, ids starting at 1 |
| `Store.Store.Upsert` | main.py:72-101 | Empty name, price ≤ 0 or quantity ≤ 0 reports "all fields required" and changes nothing. Otherwise the products table becomes the add-or-restock result and the id counter advances only on insert. Cart, sales and expenses are untouched |
| `Store.Store.AddToCart` | main.py:143-163 | No selection or a quantity outside 1..shown quantity changes nothing and reports the error. Otherwise exactly one line (id, name, price, shown quantity, quantity to sell) is appended at the end. The tables are never touched |
| `Store.Store.RemoveFromCart` | main.py:166-175 | An empty selection is refused. Otherwise the selected lines are deleted one by one, the result is the cart without exactly those lines in the old order, and the tables are untouched |
| `Store.Store.DeleteItems` | main.py:172-173 | The per-item delete loop leaves exactly the lines whose item was not selected, in cart order |
| `Checkout.WithoutItems` | main.py:172-173 | A line survives removal exactly when it was in the cart and its item was not selected; the cart never grows |
| `Checkout.WithoutItemsStep` | main.py:172-173 | Deleting one more item after a set of items equals deleting the union, so the per-item delete loop removes exactly the selection in any order |
| `Checkout.WithoutNothing` | main.py:166-173 | Removing no items leaves the cart as it was |
| `Checkout.WithoutKeepsOrder` | main.py:162-173 | Removal keeps the surviving lines in cart order, so view item ids stay strictly increasing and unique |
| `Store.Store.Sell` | main.py:112-140 | An empty cart is refused with no table change. Otherwise the products table becomes the lines applied in cart order, exactly one sale per line is appended in cart order, and the cart is emptied. Expenses are untouched |
| `Checkout.ApplyLines` | main.py:118-132 | The products table after the lines are sold in cart order. Only quantities change: row count, ids, names, prices, photos and dates are kept |
| `Checkout.ApplyLinesUntouched` | main.py:118-132 | A product no cart line names is unchanged by the sale |
| `Checkout.ApplyLinesLastWins` | main.py:118-132 | A product's final quantity is the captured available quantity minus the quantity sold of the last line naming it, whatever its current stock was |
| `Checkout.ApplyLinesNonNegative` | main.py:130-132 | If every line passed the add-time guard 0 < q ≤ available, no quantity written by the sale is negative |
| `Checkout.SalesForStep` | main.py:118-134 | Selling line i after lines 0..i-1 appends exactly that line's sale after theirs |
| `Checkout.SalesFor` | main.py:129-134 | There is one sale per cart line, in cart order, with the line's name and quantity, total price = captured price × quantity, and the sale timestamp. Lines that passed the add-time guard give only sales with positive quantity and total |
| `Store.Store.SellLines` | main.py:118-134 | The sale loop, run line by line in cart order, ends with the products table equal to `ApplyLines` and the sales table extended by exactly `SalesFor` of the cart |
| `Checkout.TwoLinesOneProduct` | main.py:118-134 | Two lines of 3 and 4 units, both captured at stock 10, record sales of 15 and 20 but leave stock 6 |
| `Store.SoldStateValid` | main.py:118-134 | After a sale of a valid cart the products table still satisfies its invariant and every recorded sale has positive quantity and total |
| `Store.Store.AddExpense` | main.py:192-211 | An empty description or amount ≤ 0 changes nothing. Otherwise exactly one expense stamped with the current timestamp is appended and nothing else changes |
| `Aggregates.CalculateTotals` | main.py:43-60 | The four dashboard figures. Income figures are 0 with no sales, and expense figures are 0 with no expenses. With non-negative amounts, each today figure lies between 0 and its all-time figure |
| `Aggregates.NetIncome` | main.py:65 | Net income is negative exactly when today's expenses exceed today's sales, and zero exactly when they are equal |
| `Aggregates.StampOnItsDate` | main.py:53-57 | A record stamped "YYYY-MM-DD HH:MM:SS" (the format sales and expenses are stamped with) counts toward a day exactly when its "YYYY-MM-DD" part is that day, whatever the time |
| `Aggregates.SumAppend` | main.py:45-50 | The all-time sum of appended records is the sum of the old ones plus the sum of the new ones |
| `Aggregates.SumOnAppend` | main.py:53-58 | The same holds for today's sum |
| `Aggregates.SumOnNoneThatDay` | main.py:53-58 | With no record dated today, today's sum is 0 (the `or 0` default) |
| `Aggregates.SumOnAllThatDay` | main.py:43-58 | When every record is dated today, today's sum equals the all-time sum |
| `Aggregates.SumOnBounded` | main.py:43-58 | For non-negative amounts, 0 ≤ today's sum ≤ all-time sum |
| `Aggregates.SalesSumToCartValue` | main.py:129-134 | The sales recorded for a cart sum to its value, Σ captured price × quantity |
| `Aggregates.SaleRaisesIncome` | main.py:43-60 | A sale raises all-time income by the cart value. It raises today's sales by the same amount if stamped today, and otherwise not at all. Expense figures are unchanged |
| `Aggregates.ExpenseLowersNetIncome` | main.py:63-65 | An expense stamped today raises total and today's expenses by its amount and lowers net income (today's sales − today's expenses) by the same. Income is unchanged |
| `Aggregates.QuietDayThenOneSale` | main.py:52-54 | A day with no records gives all four figures 0. One sale of 9.99 that day gives today's sales 9.99 |

## Left out

- The user interface: windows, tree views, labels, message boxes and
  navigation. `show_product_details` is referenced but never defined. Each
  handler's message box is modelled as its returned `Outcome`.
- SQLite: the connection, table creation and commits. The tables are
  sequences. The program's early `return` inside the sale loop (an invalid
  cart value) would leave earlier uncommitted writes on the connection.
  That path cannot arise with typed cart values and is not modelled.
- Floating-point arithmetic and two-decimal formatting: money is exact.
- Parsing of the entry fields with `float()` and `int()`: the operations
  take typed values, so the "please enter a valid …" errors are not modelled.
- The clock: the date and timestamp are parameters.
- Store.Store.Sell: stamps all of a cart's sales with one timestamp. The
  program reads the clock once per line, so a sale spanning a second
  boundary could carry two timestamps.
- Store.Store.AddToCart: receives the selected product row as a value and
  requires it to be a current row of the table. The product view starts
  empty and is reloaded after every change to the products table, so a
  selected row always is one.
- Store.Store.AddToCart: does not model values round-tripping through the
  views as text. The view converts any value that looks like an integer
  with `int()`, so a product named "007", " 12" or "1_000" is staged as
  "7", "12" or "1000" (main.py:149-150). The model keeps the name exactly.
- Store.Store.Sell: records each line's name as staged in the cart. After
  the view's integer conversion (main.py:119-120), a product named "007"
  is recorded in the sales table as "7". The model records the product's
  name unchanged.
- Store.Store.constructor: models only a first run, with empty tables and
  ids starting at 1. The program reopens a database file that persists
  between runs, and `CREATE TABLE IF NOT EXISTS` keeps earlier rows and the
  AUTOINCREMENT sequence (main.py:7-38).
- Aggregates.CalculateTotals: takes one `today`. The program reads the
  clock separately for each today-sum (main.py:53, 57), so around midnight
  the two sums can use different dates.
- The `id` columns of the sales and expenses tables: nothing in the modelled
  code reads them.
- The date filter `date(x) = today`: modelled as "the first ten characters
  equal today". SQLite's validation of the timestamp format is not modelled,
  because the program only stores timestamps it formats itself.
- 64-bit limits of SQLite INTEGER columns: quantities are unbounded.
- Search filters (`filter_products`, `filter_sales`, `filter_expenses`):
  they are read-only and rely on SQLite `LIKE` matching.
- The view refreshes `update_products_view`, `update_sales_view` and
  `update_expenses_view`: they only display rows. Their running totals
  repeat today's sums of `calculate_totals`.
