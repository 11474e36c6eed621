/** The three functions that compute a discounted price: the backend's purchase
    flows, the extension flow, and the bot's price display. */
module Discount {

  function Max(a: int, b: int): int { if a < b then b else a }

  function Clamp(percent: int): int {
    if percent < 0 then 0 else if percent > 100 then 100 else percent
  }

  /** promo_service. Dafny's division by 100 rounds down, like Python's. */
  function ComputeDiscountedPrice(price: int, percent: int): int {
    if percent <= 0 then price
    else if percent >= 100 then 0
    else price * (100 - percent) / 100
  }

  /** extension_service: a missing percent is passed as zero; both are falsy there. */
  function ExtensionPrice(base: int, percent: int): int {
    if percent == 0 then base else Max(0, base * (100 - Clamp(percent)) / 100)
  }

  /** bot/app/keyboards/catalog. */
  function DisplayedPrice(amount: int, percent: int): int {
    if percent == 0 then amount else amount * (100 - Clamp(percent)) / 100
  }

  /** The bot always shows what the backend charges; the extension flow agrees
      with them exactly for these inputs, in particular for every real price. */
  lemma DiscountsAgree(price: int, percent: int)
    ensures DisplayedPrice(price, percent) == ComputeDiscountedPrice(price, percent)
    ensures ExtensionPrice(price, percent) == ComputeDiscountedPrice(price, percent)
            <==> price >= 0 || percent == 0 || percent >= 100
  {
  }

  /** The bot's documentation leaves the amount unchanged for a percent outside 0 to 100. The
      code clamps the percent instead, and so does that exactly below 0 or for a zero amount. */
  lemma OutOfRangeIsClamped(amount: int, percent: int)
    requires percent < 0 || percent > 100
    ensures DisplayedPrice(amount, percent) == amount <==> percent < 0 || amount == 0
  {
  }

  /** At 150 percent the code shows a price of 100 as free. */
  lemma OutOfRangeExample()
    ensures DisplayedPrice(100, 150) == 0
  {
  }

  /** The charged price is the exact share rounded down, and the recorded discount completes it. */
  lemma DiscountRoundsDown(price: nat, percent: int)
    requires 0 <= percent <= 100
    ensures var d := ComputeDiscountedPrice(price, percent);
            && 0 <= d <= price
            && 100 * d <= price * (100 - percent) < 100 * d + 100
            && d + Max(0, price - d) == price
  {
  }

  /** Any percent whatsoever: never above the original price and never negative. */
  lemma DiscountBounded(price: nat, percent: int)
    ensures 0 <= ComputeDiscountedPrice(price, percent) <= price
  {
  }

  /** A larger percent never costs more. */
  lemma DiscountAntitone(price: nat, p: int, q: int)
    requires p <= q
    ensures ComputeDiscountedPrice(price, q) <= ComputeDiscountedPrice(price, p)
  {
  }

  // ----- the price in exact terms -----

  /** amount is the price less percent, rounded down; nothing is left from 100 percent on. */
  ghost predicate PriceIs(amount: int, price: nat, percent: nat) {
    if percent >= 100 then amount == 0 else 100 * amount <= price * (100 - percent) < 100 * amount + 100
  }

  lemma OnlyPrice(price: nat, percent: nat, amount: int)
    ensures PriceIs(amount, price, percent) <==> amount == ComputeDiscountedPrice(price, percent)
  {
    if percent < 100 {
      DiscountRoundsDown(price, percent);
    }
  }
}
