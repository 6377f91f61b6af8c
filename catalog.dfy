/**
 * The product catalog: the fixed list of products and the two ownership
 * policies applied to it, "a joining seller claims every unowned product"
 * and "a leaving seller releases every product it owns".
 */
module Catalog {
  import opened Wrappers
  import opened Records

  /** The catalog the server starts with: three products, none owned. */
  const InitialCatalog: seq<Product> := [
    Product(1, "Laptop", 999.99, "High-performance laptop", None),
    Product(2, "Smartphone", 599.99, "Latest smartphone", None),
    Product(3, "Headphones", 99.99, "Wireless headphones", None)
  ]

  /** `!product.sellerId`: connection identifiers are never empty, so only `null` is falsy. */
  predicate Unowned(p: Product) {
    p.sellerId.None?
  }

  /** The product's listing: everything but its owner. */
  function Listing(p: Product): Product {
    p.(sellerId := None)
  }

  /** Two catalogs list the same products in the same order, whoever owns them. */
  predicate SameListing(ps: seq<Product>, qs: seq<Product>) {
    |ps| == |qs| && forall k :: 0 <= k < |ps| ==> Listing(ps[k]) == Listing(qs[k])
  }

  predicate OwnsAny(ps: seq<Product>, id: ConnId) {
    exists k :: 0 <= k < |ps| && ps[k].sellerId == Some(id)
  }

  /** The `products.forEach` of `user_join` for a seller `id`. */
  function AssignUnowned(ps: seq<Product>, id: ConnId): (r: seq<Product>)
    ensures SameListing(r, ps)
    ensures forall k :: 0 <= k < |ps| && Unowned(ps[k]) ==> r[k].sellerId == Some(id)
    ensures forall k :: 0 <= k < |ps| && !Unowned(ps[k]) ==> r[k] == ps[k]
  {
    if ps == [] then []
    else
      var rest := AssignUnowned(ps[1..], id);
      var first := if Unowned(ps[0]) then ps[0].(sellerId := Some(id)) else ps[0];
      assert forall k :: 1 <= k < |ps| ==> ([first] + rest)[k] == rest[k - 1] && ps[k] == ps[1..][k - 1];
      [first] + rest
  }

  /** The `products.forEach` of `disconnect` for a seller `id`. */
  function ReleaseOwned(ps: seq<Product>, id: ConnId): (r: seq<Product>)
    ensures SameListing(r, ps)
    ensures forall k :: 0 <= k < |ps| && ps[k].sellerId == Some(id) ==> Unowned(r[k])
    ensures forall k :: 0 <= k < |ps| && ps[k].sellerId != Some(id) ==> r[k] == ps[k]
    ensures !OwnsAny(r, id)
  {
    if ps == [] then []
    else
      var rest := ReleaseOwned(ps[1..], id);
      var first := if ps[0].sellerId == Some(id) then ps[0].(sellerId := None) else ps[0];
      assert forall k :: 1 <= k < |ps| ==> ([first] + rest)[k] == rest[k - 1] && ps[k] == ps[1..][k - 1];
      [first] + rest
  }

  /** The catalog after `user_join(id, role)`: only a seller claims products. */
  function AfterJoin(ps: seq<Product>, id: ConnId, role: string): seq<Product> {
    if IsSeller(role) then AssignUnowned(ps, id) else ps
  }

  /** The catalog after `disconnect(id)`: only a connection registered as a seller releases products. */
  function AfterLeave(ps: seq<Product>, users: map<ConnId, User>, id: ConnId): seq<Product> {
    if id in users && IsSeller(users[id].role) then ReleaseOwned(ps, id) else ps
  }

  /** `products.find(p => p.id === productId)`, as the index of the first match. */
  function FirstWithId(ps: seq<Product>, productId: int): (r: Option<nat>)
    ensures r.None? <==> forall k :: 0 <= k < |ps| ==> ps[k].id != productId
    ensures r.Some? ==> r.value < |ps| && ps[r.value].id == productId
    ensures r.Some? ==> forall j :: 0 <= j < r.value ==> ps[j].id != productId
  {
    if ps == [] then None
    else if ps[0].id == productId then Some(0)
    else
      match FirstWithId(ps[1..], productId)
      case None =>
        assert forall k :: 1 <= k < |ps| ==> ps[k] == ps[1..][k - 1];
        None
      case Some(i) =>
        assert forall j :: 1 <= j <= i ==> ps[j] == ps[1..][j - 1];
        Some(i + 1)
  }

  /** The seller an inquiry about `productId` is routed to, if any. */
  function Owner(ps: seq<Product>, productId: int): Option<ConnId> {
    match FirstWithId(ps, productId)
    case None => None
    case Some(i) => ps[i].sellerId
  }

  /**
   * First seller wins everything: once a seller has joined, a later seller
   * claims nothing.
   */
  lemma FirstSellerWins(ps: seq<Product>, a: ConnId, b: ConnId)
    ensures AssignUnowned(AssignUnowned(ps, a), b) == AssignUnowned(ps, a)
    ensures forall k :: 0 <= k < |ps| ==> !Unowned(AssignUnowned(ps, a)[k])
  {
  }

  /**
   * A seller that claims and then releases leaves the catalog as if it had
   * only released: the products it claimed return to unowned.
   */
  lemma ReleaseUndoesAssign(ps: seq<Product>, a: ConnId)
    ensures ReleaseOwned(AssignUnowned(ps, a), a) == ReleaseOwned(ps, a)
  {
  }

  /** A seller joining the initial catalog owns every product. */
  lemma InitialSellerOwnsAll(a: ConnId)
    ensures forall k :: 0 <= k < |InitialCatalog| ==> AssignUnowned(InitialCatalog, a)[k].sellerId == Some(a)
  {
  }
}
