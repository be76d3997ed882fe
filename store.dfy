/** The store session: the three tables held in memory, the cart view and
    the operations the screens call. Each method changes the state the way
    its handler in main.py does and is proved against the functions of
    Catalog, Checkout and Aggregates. */
module Store {
  import opened Records
  import opened Catalog
  import opened Checkout
  import opened Aggregates

  /** The line refers to a row of the table, by id and by name. */
  ghost predicate Names(ps: seq<Product>, l: CartLine) {
    exists k :: 0 <= k < |ps| && ps[k].id == l.productId && ps[k].name == l.name
  }

  /** Every staged line passed the add-time guard, carries a positive price,
      refers to a product of the table, and has a fresh view item. */
  ghost predicate CartValid(cart: seq<CartLine>, ps: seq<Product>, nextItem: nat) {
    && ItemsIncreasing(cart)
    && (forall i :: 0 <= i < |cart| ==>
          && cart[i].item < nextItem
          && QuantityAccepted(cart[i].toSell, cart[i].available)
          && cart[i].price > 0.0
          && Names(ps, cart[i]))
  }

  ghost predicate SalesValid(sales: seq<Sale>) {
    forall i :: 0 <= i < |sales| ==> sales[i].quantity > 0 && sales[i].totalPrice > 0.0
  }

  ghost predicate ExpensesValid(expenses: seq<Expense>) {
    forall i :: 0 <= i < |expenses| ==> expenses[i].description != [] && expenses[i].amount > 0.0
  }

  /** Rows that keep their position, id and name keep every line's reference. */
  lemma KeepsReferences(cart: seq<CartLine>, ps: seq<Product>, ps': seq<Product>, nextItem: nat)
    requires CartValid(cart, ps, nextItem)
    requires |ps| <= |ps'|
    requires forall k :: 0 <= k < |ps| ==> ps'[k].id == ps[k].id && ps'[k].name == ps[k].name
    ensures CartValid(cart, ps', nextItem)
  {
    forall i | 0 <= i < |cart| ensures Names(ps', cart[i]) {
      assert Names(ps, cart[i]);
      var k :| 0 <= k < |ps| && ps[k].id == cart[i].productId && ps[k].name == cart[i].name;
      assert ps'[k].id == cart[i].productId;
    }
  }

  /** An accepted upsert keeps the table invariant and every cart line's
      reference to its product. */
  lemma UpsertedStateValid(ps: seq<Product>, nextId: nat, cart: seq<CartLine>, nextItem: nat,
                           name: string, price: real, quantity: int, photo: string, today: Date)
    requires CatalogValid(ps, nextId) && CartValid(cart, ps, nextItem)
    requires UpsertAccepted(name, price, quantity)
    ensures var r := Upserted(ps, nextId, name, price, quantity, photo, today);
      && CatalogValid(r, if |r| == |ps| then nextId else nextId + 1)
      && CartValid(cart, r, nextItem)
  {
    UpsertKeepsValid(ps, nextId, name, price, quantity, photo, today);
    UpsertKeepsRows(ps, nextId, name, price, quantity, photo, today);
    KeepsReferences(cart, ps, Upserted(ps, nextId, name, price, quantity, photo, today), nextItem);
  }

  /** Lines left after a removal are lines of the old cart, in the old order. */
  lemma RemovalKeepsValid(cart: seq<CartLine>, ps: seq<Product>, nextItem: nat, items: set<nat>)
    requires CartValid(cart, ps, nextItem)
    ensures CartValid(WithoutItems(cart, items), ps, nextItem)
  {
    var r := WithoutItems(cart, items);
    WithoutKeepsOrder(cart, items);
    forall i | 0 <= i < |r|
      ensures r[i].item < nextItem && QuantityAccepted(r[i].toSell, r[i].available)
      ensures r[i].price > 0.0 && Names(ps, r[i])
    {
      assert r[i] in cart;
    }
  }

  /** What a sale leaves behind keeps the table invariant (the add-time
      guard keeps stock non-negative) and records only positive sales. */
  lemma SoldStateValid(ps: seq<Product>, nextId: nat, lines: seq<CartLine>, nextItem: nat,
                       sales: seq<Sale>, now: Timestamp)
    requires CatalogValid(ps, nextId) && CartValid(lines, ps, nextItem) && SalesValid(sales)
    ensures CatalogValid(ApplyLines(ps, lines), nextId)
    ensures SalesValid(sales + SalesFor(lines, now))
  {
    ApplyLinesNonNegative(ps, lines);
    var r := ApplyLines(ps, lines);
    assert forall k :: 0 <= k < |ps| ==> r[k].id == ps[k].id && r[k].name == ps[k].name && r[k].price == ps[k].price;
  }

  class Store {
    var products: seq<Product>
    var cart: seq<CartLine>
    var sales: seq<Sale>
    var expenses: seq<Expense>
    /** The id the products table generates next. */
    var nextId: nat
    /** The identifier the cart view gives its next line. */
    var nextItem: nat

    ghost predicate Valid()
      reads this
    {
      && CatalogValid(products, nextId)
      && CartValid(cart, products, nextItem)
      && SalesValid(sales)
      && ExpensesValid(expenses)
    }

    /** A fresh database and an empty cart. */
    constructor ()
      ensures Valid()
      ensures products == [] && cart == [] && sales == [] && expenses == []
      ensures nextId == 1
    {
      products, cart, sales, expenses := [], [], [], [];
      nextId, nextItem := 1, 0;
    }

    /** add_or_update_product: reject a missing name or a non-positive price
        or quantity; otherwise restock the product of that name or insert a
        new one dated today. */
    method Upsert(name: string, price: real, quantity: int, photo: string, today: Date)
      returns (o: Outcome)
      requires Valid()
      modifies this
      ensures Valid()
      ensures o == (if UpsertAccepted(name, price, quantity) then Success else AllFieldsRequired)
      ensures o == Success ==>
        products == Upserted(old(products), old(nextId), name, price, quantity, photo, today)
      ensures o == Success ==>
        nextId == (if |products| == |old(products)| then old(nextId) else old(nextId) + 1)
      ensures o != Success ==> products == old(products) && nextId == old(nextId)
      ensures cart == old(cart) && sales == old(sales) && expenses == old(expenses)
      ensures nextItem == old(nextItem)
    {
      if !UpsertAccepted(name, price, quantity) {
        return AllFieldsRequired;
      }
      var ps := products;
      UpsertedStateValid(ps, nextId, cart, nextItem, name, price, quantity, photo, today);
      match FindByName(ps, name) {
        case Some(k) =>
          products := ps[k := ps[k].(price := price, quantity := ps[k].quantity + quantity, photoPath := photo)];
        case None =>
          products := ps + [Product(nextId, name, price, quantity, photo, today)];
          nextId := nextId + 1;
      }
      return Success;
    }

    /** add_to_cart: with a product row selected, accept a quantity from 1 up
        to the row's quantity and append one line at the end of the cart;
        the tables are not touched. */
    method AddToCart(selected: Option<Product>, toSell: int) returns (o: Outcome)
      requires Valid()
      requires selected.Some? ==> selected.value in products
      modifies this
      ensures Valid()
      ensures o == (if selected.None? then NothingSelected
                    else if QuantityAccepted(toSell, selected.value.quantity) then Success
                    else InvalidQuantity)
      ensures o == Success ==> cart == old(cart) + [LineFor(old(nextItem), selected.value, toSell)]
      ensures o != Success ==> cart == old(cart)
      ensures nextItem == if o == Success then old(nextItem) + 1 else old(nextItem)
      ensures products == old(products) && sales == old(sales) && expenses == old(expenses)
      ensures nextId == old(nextId)
    {
      if selected.None? {
        return NothingSelected;
      }
      var p := selected.value;
      if toSell <= 0 || toSell > p.quantity {
        return InvalidQuantity;
      }
      ghost var k :| 0 <= k < |products| && products[k] == p;
      cart := cart + [LineFor(nextItem, p, toSell)];
      nextItem := nextItem + 1;
      return Success;
    }

    /** remove_from_cart: with lines selected, delete each selected line of
        the cart view, one after another. */
    method RemoveFromCart(selection: set<nat>) returns (o: Outcome)
      requires Valid()
      modifies this
      ensures Valid()
      ensures o == (if selection == {} then NothingSelected else Success)
      ensures cart == WithoutItems(old(cart), selection)
      ensures products == old(products) && sales == old(sales) && expenses == old(expenses)
      ensures nextId == old(nextId) && nextItem == old(nextItem)
    {
      if selection == {} {
        WithoutNothing(cart);
        return NothingSelected;
      }
      RemovalKeepsValid(cart, products, nextItem, selection);
      cart := DeleteItems(cart, selection);
      return Success;
    }

    /** The delete loop of remove_from_cart: each selected item is deleted
        from the view in turn; what is left is the cart without exactly the
        selected items. */
    static method DeleteItems(lines: seq<CartLine>, selection: set<nat>) returns (r: seq<CartLine>)
      ensures r == WithoutItems(lines, selection)
    {
      r := lines;
      var done, rest := {}, selection;
      WithoutNothing(lines);
      while rest != {}
        invariant done + rest == selection
        invariant r == WithoutItems(lines, done)
        decreases rest
      {
        var x :| x in rest;
        WithoutItemsStep(lines, done, x);
        r := WithoutItems(r, {x});
        done, rest := done + {x}, rest - {x};
      }
      assert done == selection;
    }

    /** sell_products: refuse an empty cart; otherwise, line by line in cart
        order, set the product's quantity to the line's captured available
        quantity minus the quantity sold and append one sale stamped `now`,
        then empty the cart. */
    method Sell(now: Timestamp) returns (o: Outcome)
      requires Valid()
      modifies this
      ensures Valid()
      ensures o == (if old(cart) == [] then CartEmpty else Success)
      ensures old(cart) == [] ==> products == old(products) && sales == old(sales)
      ensures products == ApplyLines(old(products), old(cart))
      ensures sales == old(sales) + SalesFor(old(cart), now)
      ensures cart == []
      ensures expenses == old(expenses) && nextId == old(nextId) && nextItem == old(nextItem)
    {
      if cart == [] {
        return CartEmpty;
      }
      SoldStateValid(products, nextId, cart, nextItem, sales, now);
      products, sales := SellLines(products, sales, cart, now);
      cart := [];
      return Success;
    }

    /** The loop of sell_products: for each line in cart order, write the
        product's new quantity and append the line's sale. */
    static method SellLines(ps: seq<Product>, sales: seq<Sale>, lines: seq<CartLine>, now: Timestamp)
      returns (ps': seq<Product>, sales': seq<Sale>)
      ensures ps' == ApplyLines(ps, lines)
      ensures sales' == sales + SalesFor(lines, now)
    {
      ps', sales' := ps, sales;
      var i := 0;
      while i < |lines|
        invariant 0 <= i <= |lines|
        invariant ps' == ApplyLines(ps, lines[..i])
        invariant sales' == sales + SalesFor(lines[..i], now)
      {
        var line := lines[i];
        assert lines[..i + 1][..i] == lines[..i];
        SalesForStep(lines, i, now);
        ps' := SetQuantity(ps', line.productId, line.available - line.toSell);
        sales' := sales' + [SaleFor(line, now)];
        i := i + 1;
      }
      assert lines[..i] == lines;
    }

    /** add_expense: reject an empty description or a non-positive amount;
        otherwise append one expense stamped `now`. */
    method AddExpense(description: string, amount: real, now: Timestamp) returns (o: Outcome)
      requires Valid()
      modifies this
      ensures Valid()
      ensures o == (if description != [] && amount > 0.0 then Success else AllFieldsRequired)
      ensures expenses == if o == Success then old(expenses) + [Expense(description, amount, now)]
                          else old(expenses)
      ensures products == old(products) && cart == old(cart) && sales == old(sales)
      ensures nextId == old(nextId) && nextItem == old(nextItem)
    {
      if description != [] && amount > 0.0 {
        expenses := expenses + [Expense(description, amount, now)];
        return Success;
      }
      return AllFieldsRequired;
    }
  }
}
