/** The product table and its add-or-restock rule (add_or_update_product). */
module Catalog {
  import opened Records

  /** No two products share a name: the name is the merge key of an upsert. */
  ghost predicate UniqueNames(ps: seq<Product>) {
    forall i, j :: 0 <= i < j < |ps| ==> ps[i].name != ps[j].name
  }

  /** No two products share an id, and every id is below the next one the
      table will generate. */
  ghost predicate IdsFresh(ps: seq<Product>, nextId: nat) {
    && (forall i, j :: 0 <= i < j < |ps| ==> ps[i].id != ps[j].id)
    && (forall i :: 0 <= i < |ps| ==> ps[i].id < nextId)
  }

  /** The invariant the product table keeps under every operation. */
  ghost predicate CatalogValid(ps: seq<Product>, nextId: nat) {
    && UniqueNames(ps)
    && IdsFresh(ps, nextId)
    && (forall i :: 0 <= i < |ps| ==> ps[i].name != [] && ps[i].price > 0.0 && ps[i].quantity >= 0)
  }

  /** The lookup by exact name: the position of the first product with that
      name, or None when there is none. */
  function FindByName(ps: seq<Product>, name: string): (r: Option<nat>)
    ensures r.Some? ==> r.value < |ps| && ps[r.value].name == name
    ensures r.Some? ==> forall j :: 0 <= j < r.value ==> ps[j].name != name
    ensures r.None? <==> forall j :: 0 <= j < |ps| ==> ps[j].name != name
  {
    if ps == [] then None
    else if ps[0].name == name then Some(0)
    else
      match FindByName(ps[1..], name)
      case None => None
      case Some(k) => Some(k + 1)
  }

  /** The input check of an upsert: a non-empty name, a positive price and a
      positive quantity. */
  predicate UpsertAccepted(name: string, price: real, quantity: int) {
    name != [] && price > 0.0 && quantity > 0
  }

  /** The product table after an accepted upsert: the product with that name
      is restocked (quantity added, price and photo replaced), or a new
      product is appended with the next id and today's date. */
  function Upserted(ps: seq<Product>, nextId: nat, name: string, price: real,
                    quantity: int, photo: string, today: Date): (r: seq<Product>)
    ensures |r| == (if exists j :: 0 <= j < |ps| && ps[j].name == name then |ps| else |ps| + 1)
    ensures exists k :: 0 <= k < |r| && r[k].name == name && r[k].price == price && r[k].photoPath == photo
    ensures UniqueNames(ps) ==> UniqueNames(r)
  {
    match FindByName(ps, name)
    case Some(k) =>
      var r := ps[k := ps[k].(price := price, quantity := ps[k].quantity + quantity, photoPath := photo)];
      assert r[k].name == name;
      r
    case None =>
      var r := ps + [Product(nextId, name, price, quantity, photo, today)];
      assert r[|ps|].name == name;
      r
  }

  /** Restocking an existing name changes that product only: its quantity
      grows by the given amount, price and photo take the new values, and id,
      name and date added stay; no row is added. */
  lemma UpsertExisting(ps: seq<Product>, nextId: nat, name: string, price: real,
                       quantity: int, photo: string, today: Date, k: nat)
    requires UniqueNames(ps)
    requires k < |ps| && ps[k].name == name
    ensures var r := Upserted(ps, nextId, name, price, quantity, photo, today);
      && |r| == |ps|
      && r[k].id == ps[k].id && r[k].name == name && r[k].dateAdded == ps[k].dateAdded
      && r[k].quantity == ps[k].quantity + quantity
      && r[k].price == price && r[k].photoPath == photo
      && forall j :: 0 <= j < |ps| && j != k ==> r[j] == ps[j]
  {
    assert FindByName(ps, name) == Some(k);
  }

  /** An unseen name appends exactly one product, carrying the given price,
      quantity and photo, the next id and today's date. */
  lemma UpsertNew(ps: seq<Product>, nextId: nat, name: string, price: real,
                  quantity: int, photo: string, today: Date)
    requires forall j :: 0 <= j < |ps| ==> ps[j].name != name
    ensures Upserted(ps, nextId, name, price, quantity, photo, today)
         == ps + [Product(nextId, name, price, quantity, photo, today)]
  {
  }

  /** Every row already in the table keeps its position, id and name. */
  lemma UpsertKeepsRows(ps: seq<Product>, nextId: nat, name: string, price: real,
                        quantity: int, photo: string, today: Date)
    ensures var r := Upserted(ps, nextId, name, price, quantity, photo, today);
      && |ps| <= |r| <= |ps| + 1
      && forall j :: 0 <= j < |ps| ==> r[j].id == ps[j].id && r[j].name == ps[j].name
  {
  }

  /** An accepted upsert keeps the table invariant: names stay unique, ids
      stay distinct, stock stays non-negative; the next id advances exactly
      when a row is inserted. */
  lemma UpsertKeepsValid(ps: seq<Product>, nextId: nat, name: string, price: real,
                         quantity: int, photo: string, today: Date)
    requires CatalogValid(ps, nextId)
    requires UpsertAccepted(name, price, quantity)
    ensures var r := Upserted(ps, nextId, name, price, quantity, photo, today);
      CatalogValid(r, if |r| == |ps| then nextId else nextId + 1)
  {
    match FindByName(ps, name)
    case Some(k) =>
      UpsertExisting(ps, nextId, name, price, quantity, photo, today, k);
    case None =>
      UpsertNew(ps, nextId, name, price, quantity, photo, today);
  }
}
