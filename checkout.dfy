/** The cart and the sale of its lines (add_to_cart, remove_from_cart,
    sell_products), as functions on the tables. */
module Checkout {
  import opened Records

  /** The add-time guard: a line sells at least one unit and at most the
      quantity shown for the product when it was added. */
  predicate QuantityAccepted(toSell: int, available: int) {
    0 < toSell <= available
  }

  /** The line the cart view stores for a selected product row. */
  function LineFor(item: nat, p: Product, toSell: int): CartLine {
    CartLine(item, p.id, p.name, p.price, p.quantity, toSell)
  }

  /** The cart lines whose view item is not among `items`, in cart order. */
  function WithoutItems(lines: seq<CartLine>, items: set<nat>): (r: seq<CartLine>)
    ensures |r| <= |lines|
    ensures forall l :: l in r <==> l in lines && l.item !in items
  {
    if lines == [] then []
    else
      var last := lines[|lines| - 1];
      var kept := WithoutItems(lines[..|lines| - 1], items);
      assert lines == lines[..|lines| - 1] + [last];
      if last.item in items then kept else kept + [last]
  }

  /** Item identifiers strictly increase along the cart, so no two lines
      share one. */
  ghost predicate ItemsIncreasing(lines: seq<CartLine>) {
    forall i, j :: 0 <= i < j < |lines| ==> lines[i].item < lines[j].item
  }

  /** Deleting the selected items one at a time, in any order, deletes
      exactly the selection: removing one more item after a set of them is
      removing the larger set. */
  lemma {:induction false} WithoutItemsStep(lines: seq<CartLine>, done: set<nat>, x: nat)
    ensures WithoutItems(WithoutItems(lines, done), {x}) == WithoutItems(lines, done + {x})
  {
    if lines != [] {
      var init := lines[..|lines| - 1];
      WithoutItemsStep(init, done, x);
    }
  }

  /** Removing nothing keeps the cart. */
  lemma {:induction false} WithoutNothing(lines: seq<CartLine>)
    ensures WithoutItems(lines, {}) == lines
  {
    if lines != [] {
      WithoutNothing(lines[..|lines| - 1]);
      assert lines == lines[..|lines| - 1] + [lines[|lines| - 1]];
    }
  }

  /** Removal keeps the remaining lines in their order, so item identifiers
      stay unique. */
  lemma {:induction false} WithoutKeepsOrder(lines: seq<CartLine>, items: set<nat>)
    requires ItemsIncreasing(lines)
    ensures ItemsIncreasing(WithoutItems(lines, items))
  {
    if lines != [] {
      var init := lines[..|lines| - 1];
      var last := lines[|lines| - 1];
      WithoutKeepsOrder(init, items);
      var kept := WithoutItems(init, items);
      forall l | l in kept ensures l.item < last.item {
        var i :| 0 <= i < |init| && init[i] == l;
      }
    }
  }

  /** The table update of one sold line: the row with that id gets the new
      quantity; no other row changes, and nothing changes if no row has it. */
  function SetQuantity(ps: seq<Product>, id: nat, quantity: int): (r: seq<Product>)
  {
    seq(|ps|, i requires 0 <= i < |ps| => if ps[i].id == id then ps[i].(quantity := quantity) else ps[i])
  }

  /** The product table after the lines are sold in cart order: each line
      SETS its product's quantity to the captured available quantity minus
      the quantity sold. */
  function ApplyLines(ps: seq<Product>, lines: seq<CartLine>): (r: seq<Product>)
    ensures |r| == |ps|
    ensures forall k :: 0 <= k < |ps| ==> r[k] == ps[k].(quantity := r[k].quantity)
  {
    if lines == [] then ps
    else
      var last := lines[|lines| - 1];
      SetQuantity(ApplyLines(ps, lines[..|lines| - 1]), last.productId, last.available - last.toSell)
  }

  /** The sale record of one line. */
  function SaleFor(l: CartLine, now: Timestamp): Sale {
    Sale(l.name, l.toSell, l.price * l.toSell as real, now)
  }

  /** The sale records of the lines: one per line, in cart order, with the
      line's name and quantity and the captured price times the quantity; a
      cart whose lines passed the add-time guard records only positive sales. */
  function SalesFor(lines: seq<CartLine>, now: Timestamp): (r: seq<Sale>)
    ensures |r| == |lines|
    ensures forall i :: 0 <= i < |lines| ==>
      && r[i].productName == lines[i].name
      && r[i].quantity == lines[i].toSell
      && r[i].totalPrice == lines[i].price * lines[i].toSell as real
      && r[i].saleDate == now
    ensures (forall j :: 0 <= j < |lines| ==> QuantityAccepted(lines[j].toSell, lines[j].available) && lines[j].price > 0.0)
      ==> forall i :: 0 <= i < |r| ==> r[i].quantity > 0 && r[i].totalPrice > 0.0
  {
    seq(|lines|, i requires 0 <= i < |lines| => SaleFor(lines[i], now))
  }

  /** A product that no line names is left as it was. */
  lemma {:induction false} ApplyLinesUntouched(ps: seq<Product>, lines: seq<CartLine>, k: nat)
    requires k < |ps|
    requires forall j :: 0 <= j < |lines| ==> lines[j].productId != ps[k].id
    ensures |ApplyLines(ps, lines)| == |ps| && ApplyLines(ps, lines)[k] == ps[k]
  {
    if lines != [] {
      ApplyLinesUntouched(ps, lines[..|lines| - 1], k);
    }
  }

  /** For a product named by several lines the last such line wins: its
      quantity becomes that line's captured available quantity minus its
      quantity sold, whatever the earlier lines or the current stock were. */
  lemma {:induction false} ApplyLinesLastWins(ps: seq<Product>, lines: seq<CartLine>, k: nat, j: nat)
    requires k < |ps| && j < |lines|
    requires lines[j].productId == ps[k].id
    requires forall j' :: j < j' < |lines| ==> lines[j'].productId != ps[k].id
    ensures |ApplyLines(ps, lines)| == |ps|
    ensures ApplyLines(ps, lines)[k].quantity == lines[j].available - lines[j].toSell
  {
    var init := lines[..|lines| - 1];
    if j < |lines| - 1 {
      ApplyLinesLastWins(ps, init, k, j);
    }
  }

  /** The add-time guard keeps stock non-negative: if every line passed it,
      every quantity written by the sale is at least zero. */
  lemma {:induction false} ApplyLinesNonNegative(ps: seq<Product>, lines: seq<CartLine>)
    requires forall k :: 0 <= k < |ps| ==> ps[k].quantity >= 0
    requires forall j :: 0 <= j < |lines| ==> QuantityAccepted(lines[j].toSell, lines[j].available)
    ensures var r := ApplyLines(ps, lines);
      |r| == |ps| && forall k :: 0 <= k < |r| ==> r[k].quantity >= 0
  {
    if lines != [] {
      ApplyLinesNonNegative(ps, lines[..|lines| - 1]);
    }
  }

  /** The sales of a cart, sold one line after another, are the sales of
      its first lines followed by that of the next line. */
  lemma SalesForStep(lines: seq<CartLine>, i: nat, now: Timestamp)
    requires i < |lines|
    ensures SalesFor(lines[..i + 1], now) == SalesFor(lines[..i], now) + [SaleFor(lines[i], now)]
  {
  }

  /** Two lines for one product, both added while 10 were in stock: selling
      3 and then 4 units records two sales (15 and 20) but leaves 6 in stock,
      because the second line writes its own snapshot minus 4; a checkout
      that decremented the current stock would leave 3. */
  lemma {:induction false} TwoLinesOneProduct(now: Timestamp)
    ensures var ps := [Product(1, "Widget", 5.0, 10, "", "2026-01-01")];
      var lines := [LineFor(0, ps[0], 3), LineFor(1, ps[0], 4)];
      && ApplyLines(ps, lines) == [ps[0].(quantity := 6)]
      && SalesFor(lines, now) == [Sale("Widget", 3, 15.0, now), Sale("Widget", 4, 20.0, now)]
  {
    var ps := [Product(1, "Widget", 5.0, 10, "", "2026-01-01")];
    var lines := [LineFor(0, ps[0], 3), LineFor(1, ps[0], 4)];
    assert lines[..1][..0] == [];
    assert ApplyLines(ps, lines[..1]) == [ps[0].(quantity := 7)];
  }
}
