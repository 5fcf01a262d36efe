// The pricing calculator of src/components/Calculator.tsx: a fixed chain of
// charges on the purchase cost, a shipping charge chosen by a strict
// threshold, and a hard-coded 20% markup. Amounts are exact reals; the
// display rounding (`toFixed`) is not part of the model.

module Pricing {
  import opened Wrappers
  import opened Types

  /** The seven amounts `calculatePricing` stores as its results. */
  datatype PricingResult = PricingResult(
    totalCost: real,
    platformFee: real,
    vatAmount: real,
    shippingCost: real,
    creatorFee: real,
    suggestedPrice: real,
    profitMargin: real)

  /** `calculatePricing` for a unit price, a quantity and the settings. The
      total is the purchase cost plus the four charges, the suggested price
      marks it up by a fifth, and the margin is the difference between the
      two, a fifth of the total. */
  function Price(purchasePrice: real, quantity: real, s: CalculatorSettings): (r: PricingResult)
    ensures r.totalCost == purchasePrice * quantity + r.platformFee + r.vatAmount + r.shippingCost + r.creatorFee
    ensures r.profitMargin == r.suggestedPrice - r.totalCost == r.totalCost / 5.0
  {
    var totalPurchaseCost := purchasePrice * quantity;
    var platformFee := totalPurchaseCost * s.platformCommission / 100.0;
    var vatAmount := totalPurchaseCost * s.vatRate / 100.0;
    var shippingCost := if totalPurchaseCost < s.shippingThreshold then s.shippingFee else s.fullShippingCost;
    var creatorFee := totalPurchaseCost * s.creatorCommission / 100.0;
    var totalCost := totalPurchaseCost + platformFee + vatAmount + shippingCost + creatorFee;
    var suggestedPrice := totalCost * 1.2;
    PricingResult(totalCost, platformFee, vatAmount, shippingCost, creatorFee, suggestedPrice, suggestedPrice - totalCost)
  }

  /** Each percentage charge is the purchase cost times its rate over 100, and
      shipping is the reduced fee exactly when the purchase cost is strictly
      below the threshold: a cost equal to the threshold pays full shipping. */
  lemma Charges(purchasePrice: real, quantity: real, s: CalculatorSettings)
    ensures var r := Price(purchasePrice, quantity, s);
      var cost := purchasePrice * quantity;
      && r.platformFee * 100.0 == cost * s.platformCommission
      && r.vatAmount * 100.0 == cost * s.vatRate
      && r.creatorFee * 100.0 == cost * s.creatorCommission
      && (cost < s.shippingThreshold ==> r.shippingCost == s.shippingFee)
      && (cost >= s.shippingThreshold ==> r.shippingCost == s.fullShippingCost)
  {
  }

  /** With nothing negative in the input, no charge is negative, the total
      covers the purchase cost and the suggested price covers the total. */
  lemma PricingBounds(purchasePrice: real, quantity: real, s: CalculatorSettings)
    requires purchasePrice >= 0.0 && quantity >= 0.0
    requires s.platformCommission >= 0.0 && s.vatRate >= 0.0 && s.creatorCommission >= 0.0
    requires s.shippingFee >= 0.0 && s.fullShippingCost >= 0.0
    ensures var r := Price(purchasePrice, quantity, s);
      && r.platformFee >= 0.0 && r.vatAmount >= 0.0 && r.shippingCost >= 0.0 && r.creatorFee >= 0.0
      && r.totalCost >= purchasePrice * quantity
      && r.suggestedPrice >= r.totalCost
      && r.profitMargin >= 0.0
  {
    var cost := purchasePrice * quantity;
    assert cost >= 0.0;
    assert cost * s.platformCommission >= 0.0;
    assert cost * s.vatRate >= 0.0;
    assert cost * s.creatorCommission >= 0.0;
  }

  /** `(profitMargin / totalCost) * 100`; dividing by a zero total gives NaN
      in the source, which is `None` here. */
  function ProfitPercent(r: PricingResult): Option<real>
  {
    if r.totalCost == 0.0 then None else Some(r.profitMargin / r.totalCost * 100.0)
  }

  /** The displayed profit percentage is always 20 when the total is not zero. */
  lemma ProfitIsTwentyPercent(purchasePrice: real, quantity: real, s: CalculatorSettings)
    requires Price(purchasePrice, quantity, s).totalCost != 0.0
    ensures ProfitPercent(Price(purchasePrice, quantity, s)) == Some(20.0)
  {
    var r := Price(purchasePrice, quantity, s);
    assert r.profitMargin / r.totalCost == 1.0 / 5.0;
  }

  /** A worked example: 2 units at 10 with the usual settings and a 5%
      creator commission cost 29.09 in total, priced at 34.908. */
  lemma Example(s: CalculatorSettings)
    requires s.platformCommission == 9.0 && s.vatRate == 20.0 && s.shippingThreshold == 22.0
    requires s.shippingFee == 2.29 && s.fullShippingCost == 3.99 && s.creatorCommission == 5.0
    ensures Price(10.0, 2.0, s) == PricingResult(29.09, 1.8, 4.0, 2.29, 1.0, 34.908, 5.818)
  {
  }

  /** The calculator's state: the two inputs, the last results (none until
      the first calculation) and the settings it was given. */
  class Calculator {
    var purchasePrice: real
    var quantity: real
    var results: Option<PricingResult>
    const settings: CalculatorSettings

    /** The initial state: price 0, quantity 1, no results. */
    constructor(settings: CalculatorSettings)
      ensures purchasePrice == 0.0 && quantity == 1.0 && results == None
      ensures this.settings == settings
    {
      purchasePrice := 0.0;
      quantity := 1.0;
      results := None;
      this.settings := settings;
    }

    /** Editing the price input; results already shown stay as they are. */
    method SetPurchasePrice(v: real)
      modifies this
      ensures purchasePrice == v && quantity == old(quantity) && results == old(results)
    {
      purchasePrice := v;
    }

    /** Editing the quantity input; results already shown stay as they are. */
    method SetQuantity(v: real)
      modifies this
      ensures quantity == v && purchasePrice == old(purchasePrice) && results == old(results)
    {
      quantity := v;
    }

    /** `calculatePricing`: the charges computed step by step and stored as the
      results; the inputs are kept. */
    method CalculatePricing()
      modifies this
      ensures results == Some(Price(purchasePrice, quantity, settings))
      ensures purchasePrice == old(purchasePrice) && quantity == old(quantity)
    {
      var s := settings;
      var totalPurchaseCost := purchasePrice * quantity;
      var platformFee := totalPurchaseCost * s.platformCommission / 100.0;
      var vatAmount := totalPurchaseCost * s.vatRate / 100.0;
      var shippingCost := 0.0;
      if totalPurchaseCost < s.shippingThreshold {
        shippingCost := s.shippingFee;
      } else {
        shippingCost := s.fullShippingCost;
      }
      var creatorFee := totalPurchaseCost * s.creatorCommission / 100.0;
      var totalCost := totalPurchaseCost + platformFee + vatAmount + shippingCost + creatorFee;
      var suggestedPrice := totalCost * 1.2;
      var profitMargin := suggestedPrice - totalCost;
      assert Price(purchasePrice, quantity, settings)
          == PricingResult(totalCost, platformFee, vatAmount, shippingCost, creatorFee, suggestedPrice, profitMargin);
      results := Some(PricingResult(totalCost, platformFee, vatAmount, shippingCost, creatorFee, suggestedPrice, profitMargin));
    }

    /** `resetCalculator`: price 0, quantity 1, results cleared. */
    method Reset()
      modifies this
      ensures purchasePrice == 0.0 && quantity == 1.0 && results == None
    {
      purchasePrice := 0.0;
      quantity := 1.0;
      results := None;
    }
  }
}
