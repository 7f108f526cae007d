/**
 * The cart of the newer point-of-sale page: its lines and the pure
 * operations `handleAddToCart`, `updateQuantity` and `clearCart` perform on
 * them.  The page (module PosNew) holds the cart and applies these.
 */
module Cart {
  import opened Seqs
  import opened Draft
  import Money

  /** One cart line; the price is the product's price when the line was added. */
  datatype CartLine = CartLine(
    id: string,
    name: string,
    price: int,
    quantity: int,
    variant: string,
    notes: string,
    salesType: SalesType)

  /** `item.price * item.quantity`. */
  function LineTotal(l: CartLine): int
  {
    l.price * l.quantity
  }

  /** `calculateSubtotal`: nothing for an empty cart, never negative for non-negative lines. */
  function Subtotal(cart: seq<CartLine>): (r: int)
    ensures cart == [] ==> r == 0
    ensures (forall l :: l in cart ==> l.price >= 0 && l.quantity >= 0) ==> r >= 0
  {
    assert (forall l :: l in cart ==> l.price >= 0 && l.quantity >= 0) ==> Money.Subtotal(cart, LineTotal) >= 0 by {
      if forall l :: l in cart ==> l.price >= 0 && l.quantity >= 0 {
        forall k | 0 <= k < |cart| ensures LineTotal(cart[k]) >= 0 {
          assert cart[k] in cart;
        }
      }
    }
    Money.Subtotal(cart, LineTotal)
  }

  /** The merge key of `handleAddToCart`: product id and variant, but not the sales type. */
  predicate SameKey(l: CartLine, id: string, variant: string)
  {
    l.id == id && l.variant == variant
  }

  /** `cart.findIndex(...)`: the first line with the key, or -1 when there is none. */
  function FindIndex(cart: seq<CartLine>, id: string, variant: string): (i: int)
    ensures -1 <= i < |cart|
    ensures i == -1 <==> forall j :: 0 <= j < |cart| ==> !SameKey(cart[j], id, variant)
    ensures i >= 0 ==> SameKey(cart[i], id, variant)
    ensures forall j :: 0 <= j < i ==> !SameKey(cart[j], id, variant)
  {
    if cart == [] then -1
    else if SameKey(cart[0], id, variant) then 0
    else
      var k := FindIndex(cart[1..], id, variant);
      if k == -1 then -1 else k + 1
  }

  /** The line a draft becomes when nothing in the cart has its key. */
  function LineFromDraft(d: ItemDraft): CartLine
  {
    CartLine(d.id, d.name, d.price, d.quantity, d.variant, d.notes, d.salesType)
  }

  /**
   * The cart after `handleAddToCart` commits the draft `d`.  When some line
   * has the draft's id and variant, the first such line grows by the draft's
   * quantity (no clamp to stock) and keeps its own price, notes and sales
   * type, and every other line and the length stay.  Otherwise exactly one
   * line carrying the draft's fields is appended at the end.
   */
  function Added(cart: seq<CartLine>, d: ItemDraft): (r: seq<CartLine>)
    ensures var i := FindIndex(cart, d.id, d.variant);
      if i == -1 then
        && |r| == |cart| + 1 && r[..|cart|] == cart
        && r[|cart|] == CartLine(d.id, d.name, d.price, d.quantity, d.variant, d.notes, d.salesType)
      else
        && |r| == |cart|
        && r[i] == cart[i].(quantity := cart[i].quantity + d.quantity)
        && forall j :: 0 <= j < |cart| && j != i ==> r[j] == cart[j]
  {
    var i := FindIndex(cart, d.id, d.variant);
    if i == -1 then cart + [LineFromDraft(d)]
    else cart[i := cart[i].(quantity := cart[i].quantity + d.quantity)]
  }

  /**
   * Adding a draft whose key is already in the cart: the first such line
   * grows by the draft's quantity (no clamp to stock) and keeps its own
   * price, notes and sales type; the other lines and the length stay.
   */
  lemma AddMergesIntoFirstMatch(cart: seq<CartLine>, d: ItemDraft, i: nat)
    requires i < |cart| && SameKey(cart[i], d.id, d.variant)
    requires forall j :: 0 <= j < i ==> !SameKey(cart[j], d.id, d.variant)
    ensures |Added(cart, d)| == |cart|
    ensures Added(cart, d)[i] == cart[i].(quantity := cart[i].quantity + d.quantity)
    ensures forall j :: 0 <= j < |cart| && j != i ==> Added(cart, d)[j] == cart[j]
  {
  }

  /**
   * Adding a draft whose key is not in the cart appends one line carrying the
   * draft's id, name, price, quantity, variant, notes and sales type.
   */
  lemma AddAppendsNewLine(cart: seq<CartLine>, d: ItemDraft)
    requires forall j :: 0 <= j < |cart| ==> !SameKey(cart[j], d.id, d.variant)
    ensures var r := Added(cart, d);
      && |r| == |cart| + 1 && r[..|cart|] == cart
      && r[|cart|] == CartLine(d.id, d.name, d.price, d.quantity, d.variant, d.notes, d.salesType)
  {
  }

  /** Appending a line raises the subtotal by that line's amount. */
  lemma AppendRaisesSubtotal(cart: seq<CartLine>, x: CartLine)
    ensures Subtotal(cart + [x]) == Subtotal(cart) + x.price * x.quantity
  {
    Money.SubtotalAppend(cart, [x], LineTotal);
  }

  /** Growing the quantity of line `i` raises the subtotal by the growth at that line's price. */
  lemma GrowRaisesSubtotal(cart: seq<CartLine>, i: nat, q: int)
    requires i < |cart|
    ensures Subtotal(cart[i := cart[i].(quantity := cart[i].quantity + q)]) == Subtotal(cart) + cart[i].price * q
  {
    var l := cart[i].(quantity := cart[i].quantity + q);
    var p, n := cart[i].price, cart[i].quantity;
    assert LineTotal(l) == p * (n + q) == p * n + p * q;
    assert LineTotal(cart[i]) == p * n;
    Money.SubtotalUpdate(cart, i, l, LineTotal);
  }

  /**
   * Adding a draft raises the subtotal by the draft's quantity at the price
   * of the line it lands in: the merged line's frozen price, or the draft's.
   */
  lemma AddRaisesSubtotal(cart: seq<CartLine>, d: ItemDraft)
    ensures var i := FindIndex(cart, d.id, d.variant);
      Subtotal(Added(cart, d)) == Subtotal(cart) + (if i == -1 then d.price else cart[i].price) * d.quantity
  {
    var i := FindIndex(cart, d.id, d.variant);
    if i == -1 {
      assert Added(cart, d) == cart + [LineFromDraft(d)];
      AppendRaisesSubtotal(cart, LineFromDraft(d));
    } else {
      var r := cart[i := cart[i].(quantity := cart[i].quantity + d.quantity)];
      assert Added(cart, d) == r;
      GrowRaisesSubtotal(cart, i, d.quantity);
      assert Subtotal(r) == Subtotal(cart) + cart[i].price * d.quantity;
    }
  }

  /** The cart after `updateQuantity(id, q)` with `q <= 0`: every line of product `id` removed. */
  function WithoutProduct(cart: seq<CartLine>, id: string): (r: seq<CartLine>)
    ensures IsSubsequence(r, cart)
    ensures forall l :: l in r ==> l in cart && l.id != id
    ensures forall l :: l in cart && l.id != id ==> l in r
    ensures forall l :: multiset(r)[l] == if l.id != id then multiset(cart)[l] else 0
  {
    if cart == [] then []
    else
      var rest := WithoutProduct(cart[1..], id);
      assert cart == [cart[0]] + cart[1..];
      if cart[0].id != id then [cart[0]] + rest else rest
  }

  /**
   * The cart after `updateQuantity(id, q)` with `q > 0`: every line of
   * product `id`, whatever its variant, gets quantity `q`; nothing else moves.
   */
  function WithQuantity(cart: seq<CartLine>, id: string, q: int): (r: seq<CartLine>)
    ensures |r| == |cart|
    ensures forall j :: 0 <= j < |cart| ==> r[j] == if cart[j].id == id then cart[j].(quantity := q) else cart[j]
  {
    if cart == [] then []
    else [if cart[0].id == id then cart[0].(quantity := q) else cart[0]] + WithQuantity(cart[1..], id, q)
  }

  /**
   * `updateQuantity(id, newQuantity)` as defined: a quantity of 0 or less
   * removes every line of the product and keeps the rest in order; a
   * positive one is set on every line of the product, whatever its variant.
   */
  function UpdatedQuantity(cart: seq<CartLine>, id: string, newQuantity: int): (r: seq<CartLine>)
    ensures newQuantity <= 0 ==>
      && IsSubsequence(r, cart)
      && (forall l :: multiset(r)[l] == if l.id != id then multiset(cart)[l] else 0)
    ensures newQuantity > 0 ==>
      && |r| == |cart|
      && forall j :: 0 <= j < |cart| ==> r[j] == if cart[j].id == id then cart[j].(quantity := newQuantity) else cart[j]
  {
    if newQuantity <= 0 then WithoutProduct(cart, id) else WithQuantity(cart, id, newQuantity)
  }

  /** No two lines share a merge key. */
  predicate UniqueKeys(cart: seq<CartLine>)
  {
    forall i, j :: 0 <= i < j < |cart| ==> !SameKey(cart[j], cart[i].id, cart[i].variant)
  }

  /** Every line has a positive quantity. */
  predicate PositiveQuantities(cart: seq<CartLine>)
  {
    forall l :: l in cart ==> l.quantity >= 1
  }

  /** The invariant the cart operations keep: distinct keys, positive quantities. */
  predicate WellFormed(cart: seq<CartLine>)
  {
    UniqueKeys(cart) && PositiveQuantities(cart)
  }

  /** Committing a draft of positive quantity keeps the cart well formed. */
  lemma AddKeepsWellFormed(cart: seq<CartLine>, d: ItemDraft)
    requires WellFormed(cart) && d.quantity >= 1
    ensures WellFormed(Added(cart, d))
  {
    var i := FindIndex(cart, d.id, d.variant);
    var r := Added(cart, d);
    if i == -1 {
      forall a, b | 0 <= a < b < |r|
        ensures !SameKey(r[b], r[a].id, r[a].variant)
      {
        if b == |cart| {
          assert r[a] == cart[a];
        }
      }
    }
  }

  /** Keys stay distinct after prepending a line whose key no later line has. */
  lemma ConsKeepsUniqueKeys(x: CartLine, s: seq<CartLine>)
    requires UniqueKeys(s)
    requires forall l :: l in s ==> !SameKey(l, x.id, x.variant)
    ensures UniqueKeys([x] + s)
  {
    var r := [x] + s;
    forall a, b | 0 <= a < b < |r|
      ensures !SameKey(r[b], r[a].id, r[a].variant)
    {
      assert r[b] == s[b - 1];
      if a > 0 {
        assert r[a] == s[a - 1];
      }
    }
  }

  /** Dropping the first line keeps keys distinct, and no later line has its key. */
  lemma TailKeepsUniqueKeys(s: seq<CartLine>)
    requires s != [] && UniqueKeys(s)
    ensures UniqueKeys(s[1..])
    ensures forall l :: l in s[1..] ==> !SameKey(l, s[0].id, s[0].variant)
  {
    forall a, b | 0 <= a < b < |s[1..]|
      ensures !SameKey(s[1..][b], s[1..][a].id, s[1..][a].variant)
    {
      assert s[1..][a] == s[a + 1] && s[1..][b] == s[b + 1];
    }
    forall l | l in s[1..]
      ensures !SameKey(l, s[0].id, s[0].variant)
    {
      var k :| 0 <= k < |s[1..]| && s[1..][k] == l;
      assert s[k + 1] == l;
    }
  }

  /** Removing lines keeps keys distinct. */
  lemma {:induction false} WithoutProductKeepsUniqueKeys(cart: seq<CartLine>, id: string)
    requires UniqueKeys(cart)
    ensures UniqueKeys(WithoutProduct(cart, id))
  {
    if cart != [] {
      TailKeepsUniqueKeys(cart);
      WithoutProductKeepsUniqueKeys(cart[1..], id);
      if cart[0].id != id {
        ConsKeepsUniqueKeys(cart[0], WithoutProduct(cart[1..], id));
      }
    }
  }

  /** `updateQuantity` keeps the cart well formed, whatever quantity it is given. */
  lemma UpdateKeepsWellFormed(cart: seq<CartLine>, id: string, newQuantity: int)
    requires WellFormed(cart)
    ensures WellFormed(UpdatedQuantity(cart, id, newQuantity))
  {
    if newQuantity <= 0 {
      WithoutProductKeepsUniqueKeys(cart, id);
    } else {
      var r := WithQuantity(cart, id, newQuantity);
      assert forall j :: 0 <= j < |r| ==> r[j].id == cart[j].id && r[j].variant == cart[j].variant;
    }
  }

  /** `clearCart`: the empty cart, whose subtotal is zero. */
  lemma ClearedCartIsEmpty()
    ensures Subtotal([]) == 0 && WellFormed([])
  {
  }

  /** Every line of this page's cart has the default variant. */
  predicate DefaultVariants(cart: seq<CartLine>)
  {
    forall l :: l in cart ==> l.variant == DefaultVariant
  }

  /** No two lines are for the same product. */
  predicate UniqueProducts(cart: seq<CartLine>)
  {
    forall i, j :: 0 <= i < j < |cart| ==> cart[i].id != cart[j].id
  }

  /**
   * Since every draft of this page has the default variant, the merge key
   * is in effect the product id: a well-formed cart has one line per product.
   */
  lemma DefaultVariantsMakeProductsUnique(cart: seq<CartLine>)
    requires UniqueKeys(cart) && DefaultVariants(cart)
    ensures UniqueProducts(cart)
  {
    forall i, j | 0 <= i < j < |cart|
      ensures cart[i].id != cart[j].id
    {
      assert cart[i] in cart && cart[j] in cart;
    }
  }

  /** Adding a default-variant draft keeps every variant the default. */
  lemma AddKeepsDefaultVariants(cart: seq<CartLine>, d: ItemDraft)
    requires DefaultVariants(cart) && d.variant == DefaultVariant
    ensures DefaultVariants(Added(cart, d))
  {
    var i := FindIndex(cart, d.id, d.variant);
    var r := Added(cart, d);
    forall l | l in r
      ensures l.variant == DefaultVariant
    {
      var k :| 0 <= k < |r| && r[k] == l;
      if k < |cart| && k != i {
        assert r[k] == cart[k];
      }
    }
  }

  /** `updateQuantity` keeps every variant the default. */
  lemma UpdateKeepsDefaultVariants(cart: seq<CartLine>, id: string, newQuantity: int)
    requires DefaultVariants(cart)
    ensures DefaultVariants(UpdatedQuantity(cart, id, newQuantity))
  {
    if newQuantity > 0 {
      var r := WithQuantity(cart, id, newQuantity);
      forall l | l in r
        ensures l.variant == DefaultVariant
      {
        var k :| 0 <= k < |r| && r[k] == l;
        assert cart[k] in cart;
      }
    }
  }
}
