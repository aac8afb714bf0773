/** One cart line's controls: the quantity stepper shared by the cart and
    product pages, the price text parsed back to a number, and the line's
    subtotal. */
module CartItem {
  import opened Js

  /** The minus button: `Math.max(1, quantity - 1)`. */
  function Decrement(quantity: int): int {
    if quantity - 1 > 1 then quantity - 1 else 1
  }

  /** The plus button: `quantity + 1`. */
  function Increment(quantity: int): int {
    quantity + 1
  }

  /** The stepper never goes below one, and its two buttons undo each other
      wherever minus is not clamped. */
  lemma StepperBounds(q: int)
    ensures Decrement(q) >= 1
    ensures q >= 1 ==> Decrement(Increment(q)) == q
    ensures q >= 2 ==> Increment(Decrement(q)) == q
    ensures q <= 1 ==> Decrement(q) == 1
    ensures Decrement(q) <= q || q < 1
  {
  }

  /** The cart page's minus button is disabled at one and while the cart is
      being updated; when enabled it lowers the quantity by exactly one. */
  predicate MinusDisabled(quantity: int, updating: bool) {
    quantity <= 1 || updating
  }

  lemma EnabledMinusLowersByOne(q: int, updating: bool)
    requires !MinusDisabled(q, updating)
    ensures Decrement(q) == q - 1 && Decrement(q) >= 1
  {
  }

  /** `Number.parseInt(price.replace(/\D/g, ""))`: the value of the price text's
      digits, with every other character dropped; `None` is `NaN` (no digit). */
  function PriceNumber(price: string): (r: Option<nat>)
    ensures r.None? <==> DigitsOnly(price) == []
  {
    var d := DigitsOnly(price);
    if d == [] then None else Some(DecimalValue(d))
  }

  /** `priceNum * quantity`, with `NaN` propagating. */
  function LineSubtotal(price: string, quantity: int): (r: Option<int>)
    ensures r.None? <==> DigitsOnly(price) == []
    ensures r.Some? ==> r.value == PriceNumber(price).value * quantity
  {
    match PriceNumber(price)
    case None => None
    case Some(p) => Some(p * quantity)
  }

  /** Digits grouped by three from the right with `.`, as the Vietnamese locale does. */
  function GroupThousands(d: string): string
    decreases |d|
  {
    if |d| <= 3 then d else GroupThousands(d[..|d| - 3]) + "." + d[|d| - 3..]
  }

  /** `formatCurrency` of the cart page for a non-negative whole amount: the
      grouped digits followed by a no-break space and the dong sign. */
  function FormatVnd(amount: nat): string {
    GroupThousands(DecimalString(amount)) + "\U{00A0}\U{20AB}"
  }

  lemma {:induction false} GroupThousandsKeepsDigits(d: string)
    requires AllDigits(d)
    ensures DigitsOnly(GroupThousands(d)) == d
    decreases |d|
  {
    if |d| <= 3 {
      DigitsOnlyKeepsDigits(d);
    } else {
      var head := d[..|d| - 3];
      var tail := d[|d| - 3..];
      var g := GroupThousands(head);
      assert GroupThousands(d) == g + "." + tail;
      GroupThousandsKeepsDigits(head);
      DigitsOnlyAppend(g + ".", tail);
      DigitsOnlyAppend(g, ".");
      DigitsOnlyKeepsDigits(tail);
      DigitsOnlyDropsNonDigits(".");
      assert head + tail == d;
    }
  }

  /** Parsing the digits of a formatted price gives the amount back. */
  lemma PriceNumberReadsFormattedPrice(amount: nat)
    ensures PriceNumber(FormatVnd(amount)) == Some(amount)
  {
    var d := DecimalString(amount);
    GroupThousandsKeepsDigits(d);
    var sign := "\U{00A0}\U{20AB}";
    assert FormatVnd(amount) == GroupThousands(d) + sign;
    DigitsOnlyAppend(GroupThousands(d), sign);
    DigitsOnlyDropsNonDigits(sign);
    assert DigitsOnly(FormatVnd(amount)) == d + [];
    assert d + [] == d;
  }

  /** Given the formatted text of a whole amount, the component's line amount
      is that amount times the quantity: the sign and the separators are ignored. */
  lemma LineSubtotalOfFormattedPrice(amount: nat, quantity: int)
    ensures LineSubtotal(FormatVnd(amount), quantity) == Some(amount * quantity)
  {
    PriceNumberReadsFormattedPrice(amount);
  }
}
