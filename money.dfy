/**
 * The money and tax calculator shared by both point-of-sale pages:
 * the subtotal of a cart, one rounded tax component, and the order total.
 * Amounts are whole rupiah; rates are whole percentages.
 */
module Money {

  /** Service tip (`tipServer`), 3 percent. */
  const TipPercent: nat := 3
  /** Restaurant tax (`pajakRestoran`), 10 percent. */
  const RestaurantTaxPercent: nat := 10
  /** Value-added tax (`ppn`), 10 percent. */
  const VatPercent: nat := 10

  /**
   * `cart.reduce((sum, item) => sum + amount(item), 0)`: the running sum
   * taken from the left, so the last line is added last.
   */
  function Subtotal<T>(lines: seq<T>, amount: T -> int): (r: int)
    ensures |lines| == 0 ==> r == 0
    ensures |lines| == 1 ==> r == amount(lines[0])
    ensures (forall k :: 0 <= k < |lines| ==> amount(lines[k]) >= 0) ==> r >= 0
  {
    if |lines| == 0 then 0
    else Subtotal(lines[..|lines| - 1], amount) + amount(lines[|lines| - 1])
  }

  /** The subtotal of two carts laid end to end is the sum of their subtotals. */
  lemma {:induction false} SubtotalAppend<T>(a: seq<T>, b: seq<T>, amount: T -> int)
    ensures Subtotal(a + b, amount) == Subtotal(a, amount) + Subtotal(b, amount)
    decreases |b|
  {
    if |b| == 0 {
      assert a + b == a;
    } else {
      var b' := b[..|b| - 1];
      assert (a + b)[..|a + b| - 1] == a + b';
      SubtotalAppend(a, b', amount);
    }
  }

  /** Replacing one line changes the subtotal by the difference of the two line amounts. */
  lemma {:induction false} SubtotalUpdate<T>(s: seq<T>, i: nat, x: T, amount: T -> int)
    requires i < |s|
    ensures Subtotal(s[i := x], amount) == Subtotal(s, amount) - amount(s[i]) + amount(x)
  {
    var n := |s|;
    if i == n - 1 {
      assert s[i := x][..n - 1] == s[..n - 1];
    } else {
      assert s[i := x][..n - 1] == s[..n - 1][i := x];
      SubtotalUpdate(s[..n - 1], i, x, amount);
    }
  }

  /**
   * `calculateTax(subtotal, rate)`: `Math.round(subtotal * percent / 100)`.
   * JavaScript's `Math.round` rounds to the nearest integer with halves
   * going up, which the two bounds characterise exactly.
   */
  function RoundedShare(subtotal: int, percent: nat): (r: int)
    ensures 100 * r - 50 <= subtotal * percent < 100 * r + 50
    ensures subtotal >= 0 ==> r >= 0
  {
    (2 * subtotal * percent + 100) / 200
  }

  /** The two bounds of `RoundedShare` fix its value: there is one nearest integer. */
  lemma RoundedShareUnique(subtotal: int, percent: nat, r: int)
    requires 100 * r - 50 <= subtotal * percent < 100 * r + 50
    ensures r == RoundedShare(subtotal, percent)
  {
    var q := RoundedShare(subtotal, percent);
    assert 100 * (r - q) < 100 && 100 * (q - r) < 100;
  }

  /** The tip in closed form: `(3s + 50) / 100` rounded down. */
  lemma TipClosedForm(s: int)
    ensures Tip(s) == (3 * s + 50) / 100
  {
    var q := (3 * s + 50) / 100;
    assert 100 * q <= 3 * s + 50 < 100 * q + 100;
    RoundedShareUnique(s, TipPercent, q);
  }

  /** Each ten-percent component in closed form: `(s + 5) / 10` rounded down. */
  lemma TenPercentClosedForm(s: int)
    ensures RestaurantTax(s) == (s + 5) / 10
    ensures Vat(s) == (s + 5) / 10
  {
    var q := (s + 5) / 10;
    assert 10 * q <= s + 5 < 10 * q + 10;
    RoundedShareUnique(s, 10, q);
  }

  function Tip(subtotal: int): int { RoundedShare(subtotal, TipPercent) }
  function RestaurantTax(subtotal: int): int { RoundedShare(subtotal, RestaurantTaxPercent) }
  function Vat(subtotal: int): int { RoundedShare(subtotal, VatPercent) }

  /**
   * `calculateTotal`: the subtotal plus the three rounded components.  It is
   * 123 percent of the subtotal up to the three roundings, each at most half
   * a rupiah, and taxes never make a non-negative order cheaper.
   */
  function Total(subtotal: int): (r: int)
    ensures 100 * r - 150 <= 123 * subtotal < 100 * r + 150
    ensures subtotal >= 0 ==> r >= subtotal
  {
    subtotal + Tip(subtotal) + RestaurantTax(subtotal) + Vat(subtotal)
  }
}
