/**
 * The stock decrement of `handleCharge`: for each cart line in order,
 * `updateStock(item.id, item.quantity)` writes the product's stock as it was
 * in the page's catalog snapshot minus the quantity bought.  The item store
 * is modelled as a map from product id to its stored stock; each write's
 * success is an input, a failed write being caught and ignored.
 */
module Stock {
  import opened Catalog
  import opened Cart

  /** `products.find(p => p.id === itemId)`: the first product with the id, or -1. */
  function FindProduct(products: seq<Product>, id: string): (k: int)
    ensures -1 <= k < |products|
    ensures k == -1 <==> forall j :: 0 <= j < |products| ==> products[j].id != id
    ensures k >= 0 ==> products[k].id == id
    ensures forall j :: 0 <= j < k ==> products[j].id != id
  {
    if products == [] then -1
    else if products[0].id == id then 0
    else
      var k := FindProduct(products[1..], id);
      if k == -1 then -1 else k + 1
  }

  /**
   * The store after one `updateStock(id, quantity)`: when the product is in
   * the snapshot and the write succeeds, its stock becomes the snapshot's
   * stock minus the quantity, with no lower bound; otherwise nothing changes.
   * `updateDoc` rejects a write to a document that does not exist, so such a
   * write comes with `ok` false; the model does not tie `ok` to the keys of
   * `store`.
   */
  function StockWritten(store: map<string, int>, products: seq<Product>, id: string, quantity: int, ok: bool): (r: map<string, int>)
    ensures forall key :: key != id ==> (key in r <==> key in store)
    ensures forall key :: key != id && key in store ==> r[key] == store[key]
    ensures FindProduct(products, id) != -1 && ok ==>
      id in r && r[id] == products[FindProduct(products, id)].stock - quantity
    ensures FindProduct(products, id) == -1 || !ok ==> r == store
  {
    var k := FindProduct(products, id);
    if k != -1 && ok then store[id := products[k].stock - quantity] else store
  }

  /** The store after the stock writes for `cart`, the i-th write succeeding when `ok[i]`. */
  function StockAfter(store: map<string, int>, products: seq<Product>, cart: seq<CartLine>, ok: seq<bool>): (r: map<string, int>)
    requires |ok| == |cart|
    ensures store.Keys <= r.Keys
    ensures forall key :: key in r && key !in store ==> exists j :: 0 <= j < |cart| && cart[j].id == key
  {
    if cart == [] then store
    else
      var n := |cart| - 1;
      StockWritten(StockAfter(store, products, cart[..n], ok[..n]), products, cart[n].id, cart[n].quantity, ok[n])
  }

  /** The loop of `handleCharge` over the cart, one awaited `updateStock` per line. */
  method WriteStock(store: map<string, int>, products: seq<Product>, cart: seq<CartLine>, ok: seq<bool>)
    returns (result: map<string, int>)
    requires |ok| == |cart|
    ensures result == StockAfter(store, products, cart, ok)
  {
    result := store;
    var i := 0;
    while i < |cart|
      invariant 0 <= i <= |cart|
      invariant result == StockAfter(store, products, cart[..i], ok[..i])
    {
      assert cart[..i + 1][..i] == cart[..i] && ok[..i + 1][..i] == ok[..i];
      assert StockAfter(store, products, cart[..i + 1], ok[..i + 1])
        == StockWritten(StockAfter(store, products, cart[..i], ok[..i]), products, cart[i].id, cart[i].quantity, ok[i]);
      result := StockWritten(result, products, cart[i].id, cart[i].quantity, ok[i]);
      i := i + 1;
    }
    assert cart[..i] == cart && ok[..i] == ok;
  }

  /** A product that no line of the cart is for keeps its stored stock. */
  lemma {:induction false} StockAfterLeavesOthers(store: map<string, int>, products: seq<Product>, cart: seq<CartLine>, ok: seq<bool>, id: string)
    requires |ok| == |cart|
    requires forall j :: 0 <= j < |cart| ==> cart[j].id != id
    ensures id in StockAfter(store, products, cart, ok) <==> id in store
    ensures id in store ==> StockAfter(store, products, cart, ok)[id] == store[id]
  {
    if cart != [] {
      var n := |cart| - 1;
      StockAfterLeavesOthers(store, products, cart[..n], ok[..n], id);
    }
  }

  /**
   * When no two lines are for the same product, each successful write of a
   * product in the snapshot leaves exactly snapshot stock minus that line's
   * quantity in the store.
   */
  lemma {:induction false} StockAfterWritesLine(store: map<string, int>, products: seq<Product>, cart: seq<CartLine>, ok: seq<bool>, i: nat)
    requires |ok| == |cart| && UniqueProducts(cart)
    requires i < |cart| && ok[i] && FindProduct(products, cart[i].id) != -1
    ensures var s := StockAfter(store, products, cart, ok);
      cart[i].id in s && s[cart[i].id] == products[FindProduct(products, cart[i].id)].stock - cart[i].quantity
  {
    var n := |cart| - 1;
    if i < n {
      assert UniqueProducts(cart[..n]);
      StockAfterWritesLine(store, products, cart[..n], ok[..n], i);
      assert cart[n].id != cart[i].id;
    }
  }

  /**
   * A line whose write failed, or whose product is not in the snapshot,
   * leaves its product's stored stock as it was, when no two lines are for
   * the same product.
   */
  lemma {:induction false} SkippedLineLeavesStock(store: map<string, int>, products: seq<Product>, cart: seq<CartLine>, ok: seq<bool>, i: nat)
    requires |ok| == |cart| && UniqueProducts(cart)
    requires i < |cart| && (!ok[i] || FindProduct(products, cart[i].id) == -1)
    ensures cart[i].id in StockAfter(store, products, cart, ok) <==> cart[i].id in store
    ensures cart[i].id in store ==> StockAfter(store, products, cart, ok)[cart[i].id] == store[cart[i].id]
  {
    var n := |cart| - 1;
    assert UniqueProducts(cart[..n]);
    if i < n {
      SkippedLineLeavesStock(store, products, cart[..n], ok[..n], i);
      assert cart[n].id != cart[i].id;
    } else {
      StockAfterLeavesOthers(store, products, cart[..n], ok[..n], cart[i].id);
    }
  }

  /**
   * Line by line, when no two lines are for the same product: a successful
   * write of a product in the snapshot leaves snapshot stock minus the
   * line's quantity, any other line leaves its product's stored stock.
   */
  lemma StockAfterPerLine(store: map<string, int>, products: seq<Product>, cart: seq<CartLine>, ok: seq<bool>)
    requires |ok| == |cart| && UniqueProducts(cart)
    ensures var s := StockAfter(store, products, cart, ok);
      forall i :: 0 <= i < |cart| && ok[i] && FindProduct(products, cart[i].id) != -1 ==>
        cart[i].id in s && s[cart[i].id] == products[FindProduct(products, cart[i].id)].stock - cart[i].quantity
    ensures var s := StockAfter(store, products, cart, ok);
      forall i :: 0 <= i < |cart| && (!ok[i] || FindProduct(products, cart[i].id) == -1) ==>
        (cart[i].id in s <==> cart[i].id in store) && (cart[i].id in store ==> s[cart[i].id] == store[cart[i].id])
  {
    forall i | 0 <= i < |cart| && ok[i] && FindProduct(products, cart[i].id) != -1
      ensures var s := StockAfter(store, products, cart, ok);
        cart[i].id in s && s[cart[i].id] == products[FindProduct(products, cart[i].id)].stock - cart[i].quantity
    {
      StockAfterWritesLine(store, products, cart, ok, i);
    }
    forall i | 0 <= i < |cart| && (!ok[i] || FindProduct(products, cart[i].id) == -1)
      ensures var s := StockAfter(store, products, cart, ok);
        (cart[i].id in s <==> cart[i].id in store) && (cart[i].id in store ==> s[cart[i].id] == store[cart[i].id])
    {
      SkippedLineLeavesStock(store, products, cart, ok, i);
    }
  }

  /**
   * The writes are absolute, not decrements: with two lines for one product
   * only the later quantity is taken off.  The newer page never builds such
   * a cart (see Cart.DefaultVariantsMakeProductsUnique).
   */
  lemma LaterWriteWins()
    ensures var p := Product("a", "Latte", 20000, 10, "drinks", Wrappers.None);
      var l1 := CartLine("a", "Latte", 20000, 2, "Default", "", Draft.DineIn);
      var l2 := CartLine("a", "Latte", 20000, 3, "Large", "", Draft.DineIn);
      StockAfter(map[], [p], [l1, l2], [true, true]) == map["a" := 7]
  {
    var p := Product("a", "Latte", 20000, 10, "drinks", Wrappers.None);
    var l1 := CartLine("a", "Latte", 20000, 2, "Default", "", Draft.DineIn);
    var l2 := CartLine("a", "Latte", 20000, 3, "Large", "", Draft.DineIn);
    assert [l1, l2][..1] == [l1] && [true, true][..1] == [true];
    assert [l1][..0] == [] && [true][..0] == [];
    assert FindProduct([p], "a") == 0;
    assert StockAfter(map[], [p], [l1], [true]) == map["a" := 8];
  }

  /** Nothing stops the stock from going negative when more is sold than the snapshot holds. */
  lemma NoLowerBound()
    ensures var p := Product("a", "Latte", 20000, 1, "drinks", Wrappers.None);
      StockWritten(map[], [p], "a", 3, true)["a"] == -2
  {
  }
}
