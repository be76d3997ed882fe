/** The rows of the store's three tables and the transient cart line.
    Money is an exact `real` (the tables hold floating-point REAL values),
    stock quantities are unbounded integers. */
module Records {

  datatype Option<+T> = None | Some(value: T)

  /** A calendar date, "YYYY-MM-DD". */
  type Date = string

  /** A full local timestamp, "YYYY-MM-DD HH:MM:SS". */
  type Timestamp = string

  /** A row of the products table. `id` is generated by the table
      (INTEGER PRIMARY KEY AUTOINCREMENT); `dateAdded` is set on insert only. */
  datatype Product = Product(
    id: nat,
    name: string,
    price: real,
    quantity: int,
    photoPath: string,
    dateAdded: Date)

  /** A staged line of the cart view. `item` is the identifier the view gave
      the line when it was inserted; the other fields are captured from the
      product row that was selected when the line was added. */
  datatype CartLine = CartLine(
    item: nat,
    productId: nat,
    name: string,
    price: real,
    available: int,
    toSell: int)

  /** A row of the sales table (the product is kept by name, not by id). */
  datatype Sale = Sale(
    productName: string,
    quantity: int,
    totalPrice: real,
    saleDate: Timestamp)

  /** A row of the expenses table. */
  datatype Expense = Expense(
    description: string,
    amount: real,
    expenseDate: Timestamp)

  /** What an operation reports to the user: success or the error box it shows. */
  datatype Outcome =
    | Success
    | AllFieldsRequired   // upsert or expense with a missing or non-positive field
    | NothingSelected     // add to cart / remove from cart with no selected row
    | InvalidQuantity     // quantity to sell outside 1..available
    | CartEmpty           // sale of an empty cart
}
