/**
 * The older point-of-sale page (`PointOfSale`): a fixed, seeded cart, the
 * same calculator, a product draft that is never committed, and the
 * two-step payment flow.
 */
module PointOfSale {
  import opened Wrappers
  import Money
  import opened Draft
  import opened Payment

  /** A line of the seeded cart. */
  datatype SeedLine = SeedLine(id: int, name: string, price: int, quantity: int)

  /** The cart the page starts with and keeps: it never calls `setCart`. */
  const SeededCart: seq<SeedLine> := [
    SeedLine(1, "Ice Cream", 16000, 1),
    SeedLine(2, "SilverQueen", 20000, 2),
    SeedLine(3, "Lays", 18000, 1)
  ]

  /** A product of the sample grid. */
  datatype SampleProduct = SampleProduct(id: int, name: string, price: int, image: string, isFavorite: bool)

  /** The draft `handleProductClick` builds: the product plus the modal's selections. */
  datatype ClassicDraft = ClassicDraft(
    product: SampleProduct,
    variant: string,
    quantity: int,
    discounts: Discounts,
    salesType: SalesType,
    notes: string)

  function LineTotal(l: SeedLine): int
  {
    l.price * l.quantity
  }

  /** `calculateSubtotal`: nothing for an empty cart, never negative for non-negative lines. */
  function CalculateSubtotal(cart: seq<SeedLine>): (r: int)
    ensures cart == [] ==> r == 0
    ensures (forall l :: l in cart ==> l.price >= 0 && l.quantity >= 0) ==> r >= 0
  {
    assert (forall l :: l in cart ==> l.price >= 0 && l.quantity >= 0) ==> Money.Subtotal(cart, LineTotal) >= 0 by {
      if forall l :: l in cart ==> l.price >= 0 && l.quantity >= 0 {
        forall k | 0 <= k < |cart| ensures LineTotal(cart[k]) >= 0 {
          assert cart[k] in cart;
        }
      }
    }
    Money.Subtotal(cart, LineTotal)
  }

  /**
   * `calculateTax(subtotal, rate, name)`: `percent` per cent of the subtotal
   * rounded to the nearest unit, halves upwards; the name is a label only.
   */
  function CalculateTax(subtotal: int, percent: nat, name: string): (r: int)
    ensures 100 * r - 50 <= subtotal * percent < 100 * r + 50
    ensures subtotal >= 0 ==> r >= 0
  {
    Money.RoundedShare(subtotal, percent)
  }

  /**
   * `calculateTotal`: the shared calculator's total of the subtotal, so at
   * least the subtotal when no line is negative.
   */
  function CalculateTotal(cart: seq<SeedLine>): (r: int)
    ensures r == Money.Total(CalculateSubtotal(cart))
    ensures (forall l :: l in cart ==> l.price >= 0 && l.quantity >= 0) ==> r >= CalculateSubtotal(cart)
  {
    var subtotal := CalculateSubtotal(cart);
    subtotal
      + CalculateTax(subtotal, 3, "Tip Server")
      + CalculateTax(subtotal, 10, "Pajak Restoran")
      + CalculateTax(subtotal, 10, "PPN")
  }

  /** The tax depends on the subtotal and the rate, never on the label. */
  lemma TaxIgnoresName(subtotal: int, percent: nat, name1: string, name2: string)
    ensures CalculateTax(subtotal, percent, name1) == CalculateTax(subtotal, percent, name2)
    ensures 100 * CalculateTax(subtotal, percent, name1) - 50 <= subtotal * percent < 100 * CalculateTax(subtotal, percent, name1) + 50
  {
  }

  /** The seeded cart: 16000 + 2 * 20000 + 18000, then 3 %, 10 % and 10 %, rounded. */
  lemma SeededCartTotals()
    ensures CalculateSubtotal(SeededCart) == 74000
    ensures CalculateTax(74000, 3, "Tip Server") == 2220
    ensures CalculateTax(74000, 10, "Pajak Restoran") == 7400
    ensures CalculateTax(74000, 10, "PPN") == 7400
    ensures CalculateTotal(SeededCart) == 91020
  {
    var c := SeededCart;
    assert c[..2][..1] == c[..1] && c[..1][..0] == [];
    assert Money.Subtotal(c[..1][..0], LineTotal) == 0;
    assert LineTotal(c[0]) == 16000 && LineTotal(c[1]) == 40000 && LineTotal(c[2]) == 18000;
    assert CalculateSubtotal(c[..1]) == 16000;
    assert CalculateSubtotal(c[..2]) == 16000 + 40000;
    assert CalculateSubtotal(c) == 56000 + 18000;
    Money.TipClosedForm(74000);
    Money.TenPercentClosedForm(74000);
  }

  /**
   * `handleProductClick`: the draft copies the product and selects the
   * Chocolate variant, quantity 2 and Dine In, with empty notes and every
   * discount off.
   */
  function ClassicDraftFor(p: SampleProduct): (d: ClassicDraft)
    ensures d.product == p && d.variant == "Chocolate" && d.quantity == 2 && d.salesType == DineIn && d.notes == ""
    ensures && !d.discounts.member && !d.discounts.buyOneGetOne && !d.discounts.dineIn
      && !d.discounts.owner && !d.discounts.opening && !d.discounts.compliment
  {
    ClassicDraft(p, "Chocolate", 2, NoDiscounts, DineIn, "")
  }

  class Page {
    /** The cart is fixed at its seed: no handler of this page replaces it. */
    const cart: seq<SeedLine>
    var selectedItem: Option<ClassicDraft>
    var showItemModal: bool
    var showPaymentModal: bool
    var showReceiptModal: bool
    var paymentStep: Step

    /** The payment flags; this page has no transaction status. */
    function Flags(): Payment.Flags
      reads this
    {
      Payment.Flags(showPaymentModal, showReceiptModal, paymentStep, None)
    }

    constructor ()
      ensures cart == SeededCart && selectedItem == None && !showItemModal
      ensures Flags() == Payment.Initial
    {
      cart := SeededCart;
      selectedItem := None;
      showItemModal := false;
      showPaymentModal := false;
      showReceiptModal := false;
      paymentStep := Waiting;
    }

    /** `handleProductClick`: open the item modal on the product's draft. */
    method ProductClick(p: SampleProduct)
      modifies this`selectedItem, this`showItemModal
      ensures selectedItem == Some(ClassicDraftFor(p)) && showItemModal
    {
      selectedItem := Some(ClassicDraftFor(p));
      showItemModal := true;
    }

    /** The close button of the item modal. */
    method CloseItemModal()
      modifies this`showItemModal
      ensures !showItemModal
    {
      showItemModal := false;
    }

    /** `handleCharge`: open the payment view at `waiting`; the cart and the receipt stay. */
    method Charge()
      modifies this`showPaymentModal, this`paymentStep
      ensures Flags() == ClassicCharge(old(Flags()))
    {
      showPaymentModal := true;
      paymentStep := Waiting;
    }

    /** The payment timer callback. */
    method TimerFired()
      modifies this`showPaymentModal, this`showReceiptModal, this`paymentStep
      ensures Flags() == StepTimer(old(Flags()))
    {
      if showPaymentModal && paymentStep == Waiting {
        paymentStep := Success;
      } else if showPaymentModal && paymentStep == Success {
        showPaymentModal := false;
        showReceiptModal := true;
        paymentStep := Waiting;
      }
    }

    /** Cancel: only the payment view closes; the step is left as it was. */
    method CancelPayment()
      modifies this`showPaymentModal
      ensures Flags() == ClosePayment(old(Flags())) && paymentStep == old(paymentStep)
    {
      showPaymentModal := false;
    }

    /** Done: only the receipt closes. */
    method ReceiptDone()
      modifies this`showReceiptModal
      ensures Flags() == Done(old(Flags()))
    {
      showReceiptModal := false;
    }
  }
}
