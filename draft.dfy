/**
 * The item-configuration draft of the newer point-of-sale page: the working
 * copy of a product built on a product click and edited in the item modal
 * (quantity stepper, typed quantity, sales type, notes).
 */
module Draft {
  import opened Wrappers
  import opened Catalog

  datatype SalesType = DineIn | TakeAway

  /** The six discount toggles of the item modal. */
  datatype Discounts = Discounts(
    member: bool,
    buyOneGetOne: bool,
    dineIn: bool,
    owner: bool,
    opening: bool,
    compliment: bool)

  const NoDiscounts: Discounts := Discounts(false, false, false, false, false, false)

  /** The variant every draft of this page gets; the page offers no other. */
  const DefaultVariant: string := "Default"

  datatype ItemDraft = ItemDraft(
    id: string,
    name: string,
    price: int,
    stock: int,
    description: Option<string>,
    categoryId: string,
    variant: string,
    quantity: int,
    discounts: Discounts,
    salesType: SalesType,
    notes: string)

  /** The quantity the stepper and the typed input keep a draft within. */
  predicate InStockRange(d: ItemDraft)
  {
    1 <= d.quantity <= d.stock
  }

  /**
   * `handleProductClick`: a copy of the product's id, name, price, stock,
   * description and category with the default selections; it starts at
   * quantity 1, so within stock for any product in stock.
   */
  function DraftFor(p: Product): (d: ItemDraft)
    ensures d.id == p.id && d.name == p.name && d.price == p.price && d.stock == p.stock
    ensures d.description == p.description && d.categoryId == p.categoryId
    ensures d.variant == DefaultVariant && d.quantity == 1 && d.discounts == NoDiscounts
    ensures d.salesType == DineIn && d.notes == ""
    ensures InStockRange(d) <==> p.stock >= 1
  {
    ItemDraft(p.id, p.name, p.price, p.stock, p.description, p.categoryId,
              DefaultVariant, 1, NoDiscounts, DineIn, "")
  }

  /**
   * The draft of any listed product (these are the only ones that can be
   * clicked) copies the product, starts at quantity 1, and so is within stock.
   */
  lemma DraftOfListedProduct(p: Product, selectedCategory: string, searchTerm: string)
    requires Listed(p, selectedCategory, searchTerm)
    ensures var d := DraftFor(p);
      && d.id == p.id && d.name == p.name && d.price == p.price && d.stock == p.stock
      && d.description == p.description && d.categoryId == p.categoryId
      && d.variant == DefaultVariant && d.quantity == 1 && d.discounts == NoDiscounts
      && d.salesType == DineIn && d.notes == ""
      && InStockRange(d)
  {
  }

  /** The minus button: `Math.max(1, quantity - 1)`: one step down, never below 1. */
  function Decremented(quantity: int): (r: int)
    ensures r >= 1
    ensures quantity > 1 ==> r == quantity - 1
    ensures quantity <= 1 ==> r == 1
  {
    if quantity - 1 > 1 then quantity - 1 else 1
  }

  /** The plus button: `Math.min(stock, quantity + 1)`: one step up, never above the stock. */
  function Incremented(quantity: int, stock: int): (r: int)
    ensures r <= stock
    ensures quantity < stock ==> r == quantity + 1
    ensures quantity >= stock ==> r == stock
  {
    if quantity + 1 < stock then quantity + 1 else stock
  }

  /**
   * The number input: `Math.min(stock, Math.max(1, parseInt(text) || 1))`.
   * `parsed` is the result of `parseInt`, `None` standing for `NaN`; both
   * `NaN` and `0` are falsy and become 1.  With some stock, the result is
   * within `[1, stock]`: an in-range number is kept, a larger one becomes the
   * stock, and `NaN` or a number below 1 becomes 1.
   */
  function Typed(parsed: Option<int>, stock: int): (r: int)
    ensures r <= stock
    ensures stock >= 1 ==> r >= 1
    ensures parsed.Some? && 1 <= parsed.value <= stock ==> r == parsed.value
    ensures parsed.Some? && parsed.value > stock ==> r == stock
    ensures stock >= 1 && (parsed.None? || parsed.value < 1) ==> r == 1
    ensures stock < 1 ==> r == stock
  {
    var n := if parsed.None? || parsed.value == 0 then 1 else parsed.value;
    var atLeastOne := if n > 1 then n else 1;
    if atLeastOne < stock then atLeastOne else stock
  }

  /**
   * The three quantity edits keep a draft within `[1, stock]`, and on such a
   * draft the stepper moves by one when it can and then sticks at the bound.
   */
  lemma QuantityEditsKeepRange(d: ItemDraft, parsed: Option<int>)
    requires InStockRange(d)
    ensures Decremented(d.quantity) == if d.quantity == 1 then 1 else d.quantity - 1
    ensures Incremented(d.quantity, d.stock) == if d.quantity == d.stock then d.stock else d.quantity + 1
    ensures InStockRange(d.(quantity := Decremented(d.quantity)))
    ensures InStockRange(d.(quantity := Incremented(d.quantity, d.stock)))
    ensures InStockRange(d.(quantity := Typed(parsed, d.stock)))
  {
  }
}
