/** The shopping cart held by `CartProvider`: an ordered list of product
    snapshots, each with a quantity. */
module Providers {
  import opened Catalog
  import opened Sequences

  /** A cart entry: the product record as it was when it was added, plus a
      quantity. Quantities are integers. */
  datatype CartItem = CartItem(product: TireProduct, quantity: int)

  predicate HasId(items: seq<CartItem>, id: string)
  {
    exists i :: 0 <= i < |items| && items[i].product.id == id
  }

  predicate UniqueIds(items: seq<CartItem>)
  {
    forall i, j :: 0 <= i < j < |items| ==> items[i].product.id != items[j].product.id
  }

  predicate PositiveQuantities(items: seq<CartItem>)
  {
    forall i :: 0 <= i < |items| ==> items[i].quantity >= 1
  }

  /** The cart invariant: one entry per product id, no entry with quantity below 1. */
  predicate ValidItems(items: seq<CartItem>)
  {
    UniqueIds(items) && PositiveQuantities(items)
  }

  /** `item` is the first entry of `items` with this id. */
  predicate FoundAt(items: seq<CartItem>, id: string, item: CartItem)
  {
    exists i :: 0 <= i < |items| && items[i] == item && (forall j :: 0 <= j < i ==> items[j].product.id != id)
  }

  /** The first entry with that id, if any. */
  function Find(items: seq<CartItem>, id: string): (r: Option<CartItem>)
    ensures r.None? <==> !HasId(items, id)
    ensures r.Some? ==> r.value.product.id == id && FoundAt(items, id, r.value)
  {
    if items == [] then None
    else if items[0].product.id == id then Some(items[0])
    else
      var r := Find(items[1..], id);
      assert forall i :: 1 <= i < |items| ==> items[i] == items[1..][i - 1];
      r
  }

  /** The entry an update with `id` rewrites to `quantity`. */
  function Requantify(item: CartItem, id: string, quantity: int): CartItem
  {
    if item.product.id == id then item.(quantity := quantity) else item
  }

  /** Every entry with the id gets one more unit; the others are unchanged. */
  function Incremented(items: seq<CartItem>, id: string): (r: seq<CartItem>)
    ensures |r| == |items|
    ensures forall i :: 0 <= i < |items| ==> r[i] == Requantify(items[i], id, items[i].quantity + 1)
  {
    if items == [] then [] else [Requantify(items[0], id, items[0].quantity + 1)] + Incremented(items[1..], id)
  }

  /** Every entry with the id gets the given quantity; the others are unchanged. */
  function WithQuantity(items: seq<CartItem>, id: string, quantity: int): (r: seq<CartItem>)
    ensures |r| == |items|
    ensures forall i :: 0 <= i < |items| ==> r[i] == Requantify(items[i], id, quantity)
  {
    if items == [] then [] else [Requantify(items[0], id, quantity)] + WithQuantity(items[1..], id, quantity)
  }

  /** The new list `addToCart(product)` computes. */
  function Added(items: seq<CartItem>, product: TireProduct): seq<CartItem>
  {
    match Find(items, product.id)
    case Some(_) => Incremented(items, product.id)
    case None => items + [CartItem(product, 1)]
  }

  function OtherId(id: string): CartItem -> bool
  {
    (item: CartItem) => item.product.id != id
  }

  /** The new list `removeFromCart(id)` computes. */
  function Removed(items: seq<CartItem>, id: string): seq<CartItem>
  {
    Filter(items, OtherId(id))
  }

  /** The new list `updateQuantity(id, quantity)` computes. */
  function Updated(items: seq<CartItem>, id: string, quantity: int): seq<CartItem>
  {
    if quantity <= 0 then Removed(items, id) else WithQuantity(items, id, quantity)
  }

  /** The number of units in the cart. */
  function TotalItems(items: seq<CartItem>): int
  {
    if items == [] then 0 else items[0].quantity + TotalItems(items[1..])
  }

  /** The price of the cart: each entry's stored price times its quantity,
      summed. */
  function TotalPrice(items: seq<CartItem>): int
  {
    if items == [] then 0 else items[0].product.price * items[0].quantity + TotalPrice(items[1..])
  }

  // ----- What each operation does to the list -----

  /** Adding an unknown id appends one entry with quantity 1; adding a known id
      raises only that entry's quantity by one and keeps its stored snapshot. */
  lemma AddedShape(items: seq<CartItem>, product: TireProduct)
    ensures !HasId(items, product.id) ==> Added(items, product) == items + [CartItem(product, 1)]
    ensures HasId(items, product.id) ==>
      var r := Added(items, product);
      |r| == |items| &&
      forall i :: 0 <= i < |items| ==>
        r[i].product == items[i].product &&
        r[i].quantity == (if items[i].product.id == product.id then items[i].quantity + 1 else items[i].quantity)
  {
  }

  /** `removeFromCart(id)` drops exactly the entries with that id and keeps the
      rest in order; it changes nothing when the id is absent. */
  lemma {:induction false} RemovedShape(items: seq<CartItem>, id: string)
    ensures IsSubsequence(Removed(items, id), items)
    ensures !HasId(Removed(items, id), id)
    ensures forall i :: 0 <= i < |items| && items[i].product.id != id ==> items[i] in Removed(items, id)
    ensures !HasId(items, id) ==> Removed(items, id) == items
  {
    FilterIsSubsequence(items, OtherId(id));
    FilterElements(items, OtherId(id));
    if !HasId(items, id) {
      FilterKeepsAll(items, OtherId(id));
    }
  }

  /** `updateQuantity` with a positive quantity rewrites only the entries with
      that id; it never adds an entry and never changes a product snapshot. */
  lemma UpdatedShape(items: seq<CartItem>, id: string, quantity: int)
    ensures quantity <= 0 ==> Updated(items, id, quantity) == Removed(items, id)
    ensures quantity > 0 ==>
      var r := Updated(items, id, quantity);
      |r| == |items| &&
      forall i :: 0 <= i < |items| ==>
        r[i].product == items[i].product &&
        r[i].quantity == (if items[i].product.id == id then quantity else items[i].quantity)
    ensures forall i :: 0 <= i < |Updated(items, id, quantity)| ==>
      HasId(items, Updated(items, id, quantity)[i].product.id)
  {
    var r := Updated(items, id, quantity);
    FilterElements(items, OtherId(id));
    forall i | 0 <= i < |r| ensures HasId(items, r[i].product.id) {
      if quantity <= 0 {
        assert r[i] in items;
        var j :| 0 <= j < |items| && items[j] == r[i];
      } else {
        assert r[i].product.id == items[i].product.id;
      }
    }
  }

  // ----- The invariant is preserved -----

  lemma AddedValid(items: seq<CartItem>, product: TireProduct)
    requires ValidItems(items)
    ensures ValidItems(Added(items, product))
  {
    AddedShape(items, product);
  }

  lemma RemovedValid(items: seq<CartItem>, id: string)
    requires ValidItems(items)
    ensures ValidItems(Removed(items, id))
  {
    FilterIsSubsequence(items, OtherId(id));
    SubsequenceKeepsValid(Removed(items, id), items);
  }

  lemma {:induction false} SubsequenceKeepsValid(a: seq<CartItem>, b: seq<CartItem>)
    requires IsSubsequence(a, b) && ValidItems(b)
    ensures ValidItems(a)
  {
    if a != [] {
      assert b != [];
      assert ValidItems(b[1..]);
      if a[0] == b[0] {
        SubsequenceKeepsValid(a[1..], b[1..]);
        SubsequenceElements(a[1..], b[1..]);
        forall j | 0 < j < |a| ensures a[0].product.id != a[j].product.id {
          assert a[1..][j - 1] == a[j];
          var k :| 0 <= k < |b[1..]| && b[1..][k] == a[j];
          assert b[k + 1] == a[j];
        }
      } else {
        SubsequenceKeepsValid(a, b[1..]);
      }
    }
  }

  lemma UpdatedValid(items: seq<CartItem>, id: string, quantity: int)
    requires ValidItems(items)
    ensures ValidItems(Updated(items, id, quantity))
  {
    if quantity <= 0 {
      RemovedValid(items, id);
    } else {
      UpdatedShape(items, id, quantity);
    }
  }

  // ----- Totals -----

  /** Every entry holds at least one unit, so there are at least as many units as entries. */
  lemma {:induction false} TotalItemsAtLeastEntries(items: seq<CartItem>)
    requires PositiveQuantities(items)
    ensures TotalItems(items) >= |items|
  {
    if items != [] {
      TotalItemsAtLeastEntries(items[1..]);
    }
  }

  lemma {:induction false} TotalsOfAppend(items: seq<CartItem>, item: CartItem)
    ensures TotalItems(items + [item]) == TotalItems(items) + item.quantity
    ensures TotalPrice(items + [item]) == TotalPrice(items) + item.product.price * item.quantity
  {
    if items != [] {
      assert (items + [item])[1..] == items[1..] + [item];
      TotalsOfAppend(items[1..], item);
    }
  }

  /** Incrementing an id that occurs exactly at position `k` adds one unit and
      that entry's stored price. */
  lemma {:induction false} TotalsOfIncrement(items: seq<CartItem>, id: string, k: nat)
    requires k < |items| && items[k].product.id == id
    requires forall j :: 0 <= j < |items| && j != k ==> items[j].product.id != id
    ensures TotalItems(Incremented(items, id)) == TotalItems(items) + 1
    ensures TotalPrice(Incremented(items, id)) == TotalPrice(items) + items[k].product.price
  {
    var r := Incremented(items, id);
    assert r[1..] == Incremented(items[1..], id);
    if k == 0 {
      IncrementMissing(items[1..], id);
    } else {
      TotalsOfIncrement(items[1..], id, k - 1);
    }
  }

  lemma {:induction false} IncrementMissing(items: seq<CartItem>, id: string)
    requires forall j :: 0 <= j < |items| ==> items[j].product.id != id
    ensures Incremented(items, id) == items
  {
    if items != [] {
      IncrementMissing(items[1..], id);
    }
  }

  /** After `addToCart(product)` the cart holds one more unit, and the total
      price grows by the price stored for that id: the old snapshot's price
      when the id was already present, the new product's price otherwise. */
  lemma TotalsAfterAdd(items: seq<CartItem>, product: TireProduct)
    requires UniqueIds(items)
    ensures TotalItems(Added(items, product)) == TotalItems(items) + 1
    ensures TotalPrice(Added(items, product)) == TotalPrice(items) +
      match Find(items, product.id)
      case Some(existing) => existing.product.price
      case None => product.price
  {
    match Find(items, product.id)
    case Some(existing) =>
      var k :| 0 <= k < |items| && items[k] == existing && (forall j :: 0 <= j < k ==> items[j].product.id != product.id);
      TotalsOfIncrement(items, product.id, k);
    case None =>
      TotalsOfAppend(items, CartItem(product, 1));
  }

  /** The state cell `items` of `CartProvider` and its mutators. */
  class CartProvider {
    var items: seq<CartItem>

    ghost predicate Valid()
      reads this
    {
      ValidItems(items)
    }

    constructor ()
      ensures Valid() && items == []
    {
      items := [];
    }

    function GetTotalItems(): (n: int)
      reads this
      requires Valid()
      ensures n == TotalItems(items)
      ensures n >= |items|
    {
      TotalItemsAtLeastEntries(items);
      TotalItems(items)
    }

    function GetTotalPrice(): (n: int)
      reads this
      ensures n == TotalPrice(items)
    {
      TotalPrice(items)
    }

    method AddToCart(product: TireProduct)
      requires Valid()
      modifies this
      ensures Valid()
      ensures items == Added(old(items), product)
      ensures !HasId(old(items), product.id) ==> items == old(items) + [CartItem(product, 1)]
      ensures GetTotalItems() == old(GetTotalItems()) + 1
      ensures GetTotalPrice() == old(GetTotalPrice()) +
        match Find(old(items), product.id)
        case Some(existing) => existing.product.price
        case None => product.price
    {
      AddedValid(items, product);
      AddedShape(items, product);
      TotalsAfterAdd(items, product);
      items := Added(items, product);
    }

    method RemoveFromCart(productId: string)
      requires Valid()
      modifies this
      ensures Valid()
      ensures items == Removed(old(items), productId)
      ensures !HasId(items, productId)
      ensures !HasId(old(items), productId) ==> items == old(items)
    {
      RemovedValid(items, productId);
      RemovedShape(items, productId);
      items := Removed(items, productId);
    }

    method UpdateQuantity(productId: string, quantity: int)
      requires Valid()
      modifies this
      ensures Valid()
      ensures items == Updated(old(items), productId, quantity)
      ensures quantity <= 0 ==> items == Removed(old(items), productId)
      ensures quantity > 0 ==> items == WithQuantity(old(items), productId, quantity)
    {
      UpdatedValid(items, productId, quantity);
      if quantity <= 0 {
        RemoveFromCart(productId);
        return;
      }
      items := WithQuantity(items, productId, quantity);
    }

    method ClearCart()
      requires Valid()
      modifies this
      ensures Valid() && items == []
      ensures GetTotalItems() == 0 && GetTotalPrice() == 0
    {
      items := [];
    }
  }
}
