/**
 * The newer point-of-sale page (`PointOfSaleNew`): one field per piece of
 * component state, one method per event handler or timer callback.  The
 * item store is outside the page: its catalog arrives through
 * `ReceiveProducts`, and the outcome of each write to it is an input.
 */
module PosNew {
  import opened Wrappers
  import opened Catalog
  import opened Draft
  import opened Cart
  import Money
  import Stock
  import opened Payment

  /** The transaction record `handleCharge` asks the store to create. */
  datatype Transaction = Transaction(
    items: seq<CartLine>,
    customerName: string,
    orderType: string,
    total: int,
    subtotal: int,
    tipServer: int,
    pajakRestoran: int,
    ppn: int,
    status: TxStatus)

  /**
   * `calculateTotal`: the subtotal plus the three rounded components, which
   * is the shared calculator's total of the cart's subtotal, and at least the
   * subtotal when no line has a negative price or quantity.
   */
  function CalculateTotal(cart: seq<CartLine>): (r: int)
    ensures r == Money.Total(Cart.Subtotal(cart))
    ensures (forall l :: l in cart ==> l.price >= 0 && l.quantity >= 0) ==> r >= Cart.Subtotal(cart)
  {
    var subtotal := Cart.Subtotal(cart);
    assert (forall l :: l in cart ==> l.price >= 0 && l.quantity >= 0) ==> subtotal >= 0 by {
      if forall l :: l in cart ==> l.price >= 0 && l.quantity >= 0 {
        forall k | 0 <= k < |cart| ensures LineTotal(cart[k]) >= 0 {
          assert cart[k] in cart;
        }
      }
    }
    subtotal + Money.RoundedShare(subtotal, 3) + Money.RoundedShare(subtotal, 10) + Money.RoundedShare(subtotal, 10)
  }

  /**
   * The transaction data of `handleCharge`: the cart itself, and amounts
   * that agree with each other, the total being the subtotal plus the tip,
   * the restaurant tax and the VAT.
   */
  function TransactionFor(cart: seq<CartLine>, customerName: string, orderType: string): (t: Transaction)
    ensures t.items == cart && t.status == TxPending
    ensures t.customerName == customerName && t.orderType == orderType
    ensures t.subtotal == Cart.Subtotal(cart)
    ensures t.tipServer == (3 * t.subtotal + 50) / 100
    ensures t.pajakRestoran == (t.subtotal + 5) / 10 && t.ppn == (t.subtotal + 5) / 10
    ensures t.total == t.subtotal + t.tipServer + t.pajakRestoran + t.ppn
    ensures t.total == Money.Total(t.subtotal)
  {
    var subtotal := Cart.Subtotal(cart);
    Money.TipClosedForm(subtotal);
    Money.TenPercentClosedForm(subtotal);
    Transaction(
      cart, customerName, orderType,
      CalculateTotal(cart),
      Cart.Subtotal(cart),
      Money.RoundedShare(Cart.Subtotal(cart), 3),
      Money.RoundedShare(Cart.Subtotal(cart), 10),
      Money.RoundedShare(Cart.Subtotal(cart), 10),
      TxPending)
  }

  class Page {
    var products: seq<Product>
    var selectedCategory: string
    var searchTerm: string
    var cart: seq<CartLine>
    var selectedItem: Option<ItemDraft>
    var showItemModal: bool
    var showPaymentModal: bool
    var showReceiptModal: bool
    var paymentStep: Step
    var transactionStatus: Option<TxStatus>
    var customerName: string
    var orderType: string

    /**
     * What the handlers keep true: the cart is well formed with only
     * default variants, and a draft in the item modal is within its stock.
     */
    ghost predicate Valid()
      reads this
    {
      && WellFormed(cart) && DefaultVariants(cart)
      && (selectedItem.Some? ==> InStockRange(selectedItem.value) && selectedItem.value.variant == DefaultVariant)
    }

    /** The payment flags of the page. */
    function Flags(): Payment.Flags
      reads this
    {
      Payment.Flags(showPaymentModal, showReceiptModal, paymentStep, transactionStatus)
    }

    /** The products on screen. */
    function Shown(): seq<Product>
      reads this
    {
      FilteredProducts(products, selectedCategory, searchTerm)
    }

    /** The initial state: nothing loaded, empty cart, every modal closed. */
    constructor ()
      ensures Valid()
      ensures products == [] && selectedCategory == AllCategories && searchTerm == ""
      ensures cart == [] && selectedItem == None && !showItemModal
      ensures Flags() == Payment.Initial
      ensures customerName == "Customer Name" && orderType == "Dine in"
    {
      products := [];
      selectedCategory := AllCategories;
      searchTerm := "";
      cart := [];
      selectedItem := None;
      showItemModal := false;
      showPaymentModal := false;
      showReceiptModal := false;
      paymentStep := Waiting;
      transactionStatus := None;
      customerName := "Customer Name";
      orderType := "Dine in";
    }

    /** The realtime subscription replaces the catalog; an open draft keeps its own copy. */
    method ReceiveProducts(ps: seq<Product>)
      modifies this`products
      ensures products == ps
    {
      products := ps;
    }

    method SetSearchTerm(term: string)
      modifies this`searchTerm
      ensures searchTerm == term
    {
      searchTerm := term;
    }

    method SetCategory(category: string)
      modifies this`selectedCategory
      ensures selectedCategory == category
    {
      selectedCategory := category;
    }

    /** `handleProductClick` on a product on screen: open the item modal on its draft. */
    method ProductClick(p: Product)
      requires Valid() && p in Shown()
      modifies this`selectedItem, this`showItemModal
      ensures Valid()
      ensures selectedItem == Some(DraftFor(p)) && showItemModal
    {
      DraftOfListedProduct(p, selectedCategory, searchTerm);
      selectedItem := Some(DraftFor(p));
      showItemModal := true;
    }

    /** The Cancel button of the item modal; the draft itself is left in place. */
    method CancelItem()
      modifies this`showItemModal
      ensures !showItemModal
    {
      showItemModal := false;
    }

    /** The minus button of the open item modal. */
    method DecrementQuantity()
      requires Valid() && showItemModal && selectedItem.Some?
      modifies this`selectedItem
      ensures Valid()
      ensures selectedItem == Some(old(selectedItem.value).(quantity := Decremented(old(selectedItem.value.quantity))))
    {
      var d := selectedItem.value;
      selectedItem := Some(d.(quantity := Decremented(d.quantity)));
    }

    /** The plus button of the open item modal. */
    method IncrementQuantity()
      requires Valid() && showItemModal && selectedItem.Some?
      modifies this`selectedItem
      ensures Valid()
      ensures selectedItem == Some(old(selectedItem.value).(quantity := Incremented(old(selectedItem.value.quantity), old(selectedItem.value.stock))))
    {
      var d := selectedItem.value;
      selectedItem := Some(d.(quantity := Incremented(d.quantity, d.stock)));
    }

    /** Typing into the quantity input; `parsed` is what `parseInt` made of the text. */
    method TypeQuantity(parsed: Option<int>)
      requires Valid() && showItemModal && selectedItem.Some?
      modifies this`selectedItem
      ensures Valid()
      ensures selectedItem == Some(old(selectedItem.value).(quantity := Typed(parsed, old(selectedItem.value.stock))))
    {
      var d := selectedItem.value;
      selectedItem := Some(d.(quantity := Typed(parsed, d.stock)));
    }

    /** The Dine In / Take Away buttons: the choice replaces the previous one. */
    method SelectSalesType(t: SalesType)
      requires Valid() && showItemModal && selectedItem.Some?
      modifies this`selectedItem
      ensures Valid()
      ensures selectedItem == Some(old(selectedItem.value).(salesType := t))
    {
      selectedItem := Some(selectedItem.value.(salesType := t));
    }

    /** The notes box: the text is kept verbatim. */
    method EditNotes(notes: string)
      requires Valid() && showItemModal && selectedItem.Some?
      modifies this`selectedItem
      ensures Valid()
      ensures selectedItem == Some(old(selectedItem.value).(notes := notes))
    {
      selectedItem := Some(selectedItem.value.(notes := notes));
    }

    /**
     * `handleAddToCart`: without a draft nothing happens; otherwise the draft
     * is merged into the line with its id and variant, or appended, and the
     * item modal closes with the draft discarded.
     */
    method AddToCart()
      requires Valid() && showItemModal
      modifies this`cart, this`showItemModal, this`selectedItem
      ensures Valid()
      ensures old(selectedItem).None? ==> cart == old(cart) && showItemModal == old(showItemModal) && selectedItem == None
      ensures old(selectedItem).Some? ==>
        cart == Added(old(cart), old(selectedItem).value) && !showItemModal && selectedItem == None
    {
      if selectedItem.None? {
        return;
      }
      var d := selectedItem.value;
      AddKeepsWellFormed(cart, d);
      AddKeepsDefaultVariants(cart, d);
      var i := FindIndex(cart, d.id, d.variant);
      if i != -1 {
        cart := cart[i := cart[i].(quantity := cart[i].quantity + d.quantity)];
      } else {
        cart := cart + [CartLine(d.id, d.name, d.price, d.quantity, d.variant, d.notes, d.salesType)];
      }
      showItemModal := false;
      selectedItem := None;
    }

    /** `updateQuantity(id, newQuantity)`. */
    method UpdateQuantity(id: string, newQuantity: int)
      requires Valid()
      modifies this`cart
      ensures Valid()
      ensures cart == UpdatedQuantity(old(cart), id, newQuantity)
    {
      UpdateKeepsWellFormed(cart, id, newQuantity);
      UpdateKeepsDefaultVariants(cart, id, newQuantity);
      if newQuantity <= 0 {
        cart := WithoutProduct(cart, id);
      } else {
        cart := WithQuantity(cart, id, newQuantity);
      }
    }

    /** `clearCart`. */
    method ClearCart()
      requires Valid()
      modifies this`cart
      ensures Valid()
      ensures cart == [] && Cart.Subtotal(cart) == 0
    {
      cart := [];
    }

    /**
     * `handleCharge` on a non-empty cart (the Charge button is disabled on an
     * empty one): the stock writes, one per line in order against the
     * catalog snapshot, then the transaction record; the payment view opens
     * at `waiting`/`pending` only when the record was created.  Since a
     * valid cart has one line per product, each successful write leaves
     * that product's snapshot stock minus the line's quantity.
     */
    method Charge(store: map<string, int>, writeOk: seq<bool>, recorded: bool)
      returns (newStore: map<string, int>, record: Transaction)
      requires Valid() && |cart| > 0 && |writeOk| == |cart|
      modifies this`showPaymentModal, this`paymentStep, this`transactionStatus
      ensures newStore == Stock.StockAfter(store, products, cart, writeOk)
      ensures forall i :: 0 <= i < |cart| && writeOk[i] && Stock.FindProduct(products, cart[i].id) != -1 ==>
        cart[i].id in newStore
        && newStore[cart[i].id] == products[Stock.FindProduct(products, cart[i].id)].stock - cart[i].quantity
      ensures forall i :: 0 <= i < |cart| && (!writeOk[i] || Stock.FindProduct(products, cart[i].id) == -1) ==>
        (cart[i].id in newStore <==> cart[i].id in store)
        && (cart[i].id in store ==> newStore[cart[i].id] == store[cart[i].id])
      ensures record == TransactionFor(cart, customerName, orderType)
      ensures Flags() == if recorded then ChargeOpened(old(Flags())) else old(Flags())
    {
      newStore := Stock.WriteStock(store, products, cart, writeOk);
      DefaultVariantsMakeProductsUnique(cart);
      Stock.StockAfterPerLine(store, products, cart, writeOk);
      record := TransactionFor(cart, customerName, orderType);
      if recorded {
        showPaymentModal := true;
        paymentStep := Waiting;
        transactionStatus := Some(TxPending);
      }
    }

    /** The payment-step timer callback. */
    method StepTimerFired()
      modifies this`showPaymentModal, this`showReceiptModal, this`paymentStep
      ensures Flags() == StepTimer(old(Flags()))
    {
      if showPaymentModal && paymentStep == Waiting {
        paymentStep := Success;
      } else if showPaymentModal && paymentStep == Success {
        showPaymentModal := false;
        showReceiptModal := true;
        paymentStep := Waiting;
      }
    }

    /** The transaction-status timer callback. */
    method StatusTimerFired()
      modifies this`showPaymentModal, this`showReceiptModal, this`transactionStatus
      ensures Flags() == StatusTimer(old(Flags()))
    {
      if showPaymentModal && transactionStatus == Some(TxSuccess) {
        showPaymentModal := false;
        showReceiptModal := true;
        transactionStatus := None;
      }
    }

    /** The delayed status write scheduled by a charge; `ok` says whether the store accepted it. */
    method StatusWriteFinished(ok: bool)
      modifies this`transactionStatus
      ensures Flags() == StatusWritten(old(Flags()), ok)
    {
      if ok {
        transactionStatus := Some(TxSuccess);
      }
    }

    /** The close button of the payment view. */
    method ClosePaymentView()
      modifies this`showPaymentModal
      ensures Flags() == ClosePayment(old(Flags()))
    {
      showPaymentModal := false;
    }

    /** The Done button of the receipt. */
    method ReceiptDone()
      modifies this`showReceiptModal
      ensures Flags() == Done(old(Flags()))
    {
      showReceiptModal := false;
    }
  }
}
