/** The bill of a charging session. Meter readings are in Wh, the price is VND per kWh. */
module Billing {
  const DEFAULT_UNIT_PRICE: int := 3500

  function TotalWh(meterStart: int, meterStop: int): int {
    if meterStop > meterStart then meterStop - meterStart else 0
  }

  function TotalKwh(meterStart: int, meterStop: int): real {
    TotalWh(meterStart, meterStop) as real / 1000.0
  }

  function CostVnd(meterStart: int, meterStop: int, unitPrice: int): int {
    (TotalKwh(meterStart, meterStop) * unitPrice as real).Floor
  }

  /**
   * The energy is the difference of the readings, or nothing if they run backwards, and the cost is the
   * largest whole number of VND not above energy times price.
   */
  lemma CostIsFloor(meterStart: int, meterStop: int, unitPrice: int)
    ensures var wh := if meterStop > meterStart then meterStop - meterStart else 0;
            var cost := CostVnd(meterStart, meterStop, unitPrice);
            && 1000 * cost <= wh * unitPrice < 1000 * (cost + 1)
            && TotalKwh(meterStart, meterStop) * 1000.0 == wh as real
  {
  }

  /** A later reading never costs less. */
  lemma CostMonotone(meterStart: int, early: int, late: int, unitPrice: nat)
    requires early <= late
    ensures 0 <= CostVnd(meterStart, early, unitPrice) <= CostVnd(meterStart, late, unitPrice)
  {
  }

  /** Billing in two parts at an intermediate reading loses at most 1 VND, and never gains. */
  lemma SplitLosesAtMostOne(meterStart: int, middle: int, meterStop: int, unitPrice: int)
    requires meterStart <= middle <= meterStop
    ensures var parts := CostVnd(meterStart, middle, unitPrice) + CostVnd(middle, meterStop, unitPrice);
            parts <= CostVnd(meterStart, meterStop, unitPrice) <= parts + 1
  {
  }
}
