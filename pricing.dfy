/**
  The pricing engine (`PricingEngine.calculate_final_price`): convert an
  offer's base price into the subscriber's target currency, add the
  converted shipping cost and, for EXTERNAL subscribers, the converted
  device fee whose keyword is the longest one found in the offer name;
  round the total to cents, half to even (Python `round` on a `Decimal`).

  Money is exact (`real`); a priced result carries the rounded amount as
  an integer number of cents.
*/
module Pricing {
  import opened Wrappers
  import opened Text
  import opened Models
  import opened Rates
  import opened Matching

  datatype PriceResult =
    | Priced(cents: int, currency: string)
    | NoCharge(currency: string)
    | PriceError(error: string)

  const NO_TARGET_CURRENCY := "Subscriber has no target currency."
  const NO_SHIPPING := "N/A"

  function MissingRateMessage(fromCurrency: string, toCurrency: string): string {
    "Missing rate: " + fromCurrency + " -> " + toCurrency
  }

  /**
    `round(x, 2)` for a Decimal: the nearest whole number of cents, and on
    an exact half the even one.
  */
  function RoundCents(x: real): (c: int)
    ensures -0.5 <= c as real - 100.0 * x <= 0.5
    ensures (c as real - 100.0 * x == 0.5 || c as real - 100.0 * x == -0.5) ==> c % 2 == 0
  {
    var scaled := 100.0 * x;
    var whole := scaled.Floor;
    var frac := scaled - whole as real;
    if frac < 0.5 then whole
    else if frac > 0.5 then whole + 1
    else if whole % 2 == 0 then whole
    else whole + 1
  }

  /** Rounding never reverses the order of two amounts. */
  lemma RoundCentsMonotone(x: real, y: real)
    requires x <= y
    ensures RoundCents(x) <= RoundCents(y)
  {
  }

  /** An amount that is already a whole number of cents is left as it is. */
  lemma RoundCentsExact(c: int)
    ensures RoundCents(c as real / 100.0) == c
  {
  }

  /** A null price counts as 0. */
  function BasePrice(offer: Offer): real {
    match offer.price
    case None => 0.0
    case Some(p) => p
  }

  function ShippingCost(offer: Offer): real {
    match offer.shippingCost
    case None => 0.0
    case Some(c) => c
  }

  /** Shipping is charged only for a positive cost in a real (non-"N/A") currency. */
  predicate ChargesShipping(offer: Offer) {
    ShippingCost(offer) > 0.0 && offer.shippingCurrency != "" && offer.shippingCurrency != NO_SHIPPING
  }

  /** The converted shipping cost, or 0 when shipping is not charged or its rate is missing or zero. */
  function ShippingAddend(rates: RateTable, offer: Offer, target: string): real {
    if ChargesShipping(offer) then
      match GetConversionRate(rates, offer.shippingCurrency, target)
      case Some(rate) => if rate != 0.0 then ShippingCost(offer) * rate else 0.0
      case None => 0.0
    else 0.0
  }

  /** The lower-cased device keywords, in stored order. */
  function FeeKeys(fees: seq<SubscriberDeviceFee>): (keys: seq<string>)
    ensures |keys| == |fees|
  {
    seq(|fees|, i requires 0 <= i < |fees| => Lower(fees[i].deviceKeyword))
  }

  /** The position of the fee whose keyword is the longest one occurring in the offer name. */
  function BestFee(fees: seq<SubscriberDeviceFee>, offerName: string): (r: Option<nat>)
    ensures r.Some? ==> r.value < |fees|
  {
    LongestFirst(FeeKeys(fees), Lower(offerName), false, |fees|)
  }

  /** The converted device fee for EXTERNAL subscribers, or 0 when none applies. */
  function DeviceFeeAddend(rates: RateTable, offer: Offer, sub: Subscriber, target: string): real {
    if sub.subscriberType == External then
      match BestFee(sub.deviceFees, offer.name)
      case None => 0.0
      case Some(i) =>
        var fee := sub.deviceFees[i];
        if fee.fee > 0.0 then
          match GetConversionRate(rates, fee.currency, target)
          case Some(rate) => if rate != 0.0 then fee.fee * rate else 0.0
          case None => 0.0
        else 0.0
    else 0.0
  }

  /** The result of pricing `offer` for `sub`. */
  function FinalPrice(rates: RateTable, offer: Offer, sub: Subscriber): PriceResult {
    var target := sub.targetCurrency;
    if target == "" then PriceError(NO_TARGET_CURRENCY)
    else if BasePrice(offer) <= 0.0 then NoCharge(target)
    else
      match GetConversionRate(rates, offer.currency, target)
      case None => PriceError(MissingRateMessage(offer.currency, target))
      case Some(rate) => Priced(RoundCents(ExactTotal(rates, offer, sub, rate)), target)
  }

  /** The unrounded total: converted base price, then shipping, then the device fee. */
  function ExactTotal(rates: RateTable, offer: Offer, sub: Subscriber, rate: real): real {
    BasePrice(offer) * rate + ShippingAddend(rates, offer, sub.targetCurrency)
      + DeviceFeeAddend(rates, offer, sub, sub.targetCurrency)
  }

  /**
    The fee search of `calculate_final_price`: scanning the stored fees in
    order, a fee whose keyword occurs in the offer name (ignoring case)
    replaces the current best only when its keyword is strictly longer.
  */
  method FindBestFee(fees: seq<SubscriberDeviceFee>, offerName: string) returns (bestMatch: Option<nat>)
    ensures bestMatch == BestFee(fees, offerName)
  {
    var name := Lower(offerName);
    bestMatch := None;
    for i := 0 to |fees|
      invariant bestMatch == LongestFirst(FeeKeys(fees), name, false, i)
    {
      if Contains(name, Lower(fees[i].deviceKeyword)) {
        if bestMatch.None? || |fees[i].deviceKeyword| > |fees[bestMatch.value].deviceKeyword| {
          bestMatch := Some(i);
        }
      }
    }
  }

  /**
    `calculate_final_price`: the accumulator `finalPrice` is converted,
    then shipping and the best device fee are added; the fee search keeps
    the first fee whose keyword is strictly longer than the current best.
  */
  method CalculateFinalPrice(rates: RateTable, offer: Offer, sub: Subscriber) returns (r: PriceResult)
    ensures r == FinalPrice(rates, offer, sub)
  {
    var target := sub.targetCurrency;
    if target == "" {
      return PriceError(NO_TARGET_CURRENCY);
    }
    var basePrice := BasePrice(offer);
    if basePrice <= 0.0 {
      return NoCharge(target);
    }
    var finalPrice := basePrice;

    var priceRate := GetConversionRate(rates, offer.currency, target);
    if priceRate.None? {
      return PriceError(MissingRateMessage(offer.currency, target));
    }
    finalPrice := finalPrice * priceRate.value;

    var shippingCost := ShippingCost(offer);
    if shippingCost > 0.0 && offer.shippingCurrency != "" && offer.shippingCurrency != NO_SHIPPING {
      var shippingRate := GetConversionRate(rates, offer.shippingCurrency, target);
      if shippingRate.Some? && shippingRate.value != 0.0 {
        finalPrice := finalPrice + shippingCost * shippingRate.value;
      }
    }

    if sub.subscriberType == External {
      var bestMatch := FindBestFee(sub.deviceFees, offer.name);
      if bestMatch.Some? {
        var fee := sub.deviceFees[bestMatch.value];
        if fee.fee > 0.0 {
          var feeRate := GetConversionRate(rates, fee.currency, target);
          if feeRate.Some? && feeRate.value != 0.0 {
            finalPrice := finalPrice + fee.fee * feeRate.value;
          }
        }
      }
    }
    assert finalPrice == ExactTotal(rates, offer, sub, priceRate.value);
    r := Priced(RoundCents(finalPrice), target);
  }

  // -----------------------------------------------------------------------
  // Properties of the pricing result

  /**
    An offer without a positive base price is "on request" in the target
    currency, whatever the rates, the shipping data and the fees are.
  */
  lemma NoChargeShortCircuit(rates: RateTable, offer: Offer, sub: Subscriber)
    requires sub.targetCurrency != "" && BasePrice(offer) <= 0.0
    ensures FinalPrice(rates, offer, sub) == NoCharge(sub.targetCurrency)
    ensures forall other: RateTable, fees: seq<SubscriberDeviceFee> ::
      FinalPrice(other, offer, sub.(deviceFees := fees)) == NoCharge(sub.targetCurrency)
  {
  }

  /** A missing base rate is a hard error naming the missing pair; it is never replaced by a default. */
  lemma MissingBaseRateIsError(rates: RateTable, offer: Offer, sub: Subscriber)
    requires sub.targetCurrency != "" && BasePrice(offer) > 0.0
    ensures FinalPrice(rates, offer, sub).PriceError? <==>
      GetConversionRate(rates, offer.currency, sub.targetCurrency).None?
    ensures FinalPrice(rates, offer, sub).PriceError? ==>
      FinalPrice(rates, offer, sub).error == "Missing rate: " + offer.currency + " -> " + sub.targetCurrency
  {
  }

  /**
    A priced result is within half a cent of the base price times its rate
    (any found rate, even 0) plus the shipping and fee addends.
  */
  lemma PricedIsRoundedSum(rates: RateTable, offer: Offer, sub: Subscriber)
    requires FinalPrice(rates, offer, sub).Priced?
    ensures GetConversionRate(rates, offer.currency, sub.targetCurrency).Some?
    ensures var exact := ExactTotal(rates, offer, sub, GetConversionRate(rates, offer.currency, sub.targetCurrency).value);
      -0.5 <= FinalPrice(rates, offer, sub).cents as real - 100.0 * exact <= 0.5
    ensures FinalPrice(rates, offer, sub).currency == sub.targetCurrency
  {
    var rate := GetConversionRate(rates, offer.currency, sub.targetCurrency).value;
    assert FinalPrice(rates, offer, sub).cents == RoundCents(ExactTotal(rates, offer, sub, rate));
  }

  /**
    Shipping contributes nothing when the cost is not positive, the currency
    is empty or "N/A", or its rate is missing or zero: the price is the one
    of the same offer with no shipping data at all.
  */
  lemma ShippingSoftSkip(rates: RateTable, offer: Offer, sub: Subscriber)
    requires !ChargesShipping(offer)
      || GetConversionRate(rates, offer.shippingCurrency, sub.targetCurrency).None?
      || GetConversionRate(rates, offer.shippingCurrency, sub.targetCurrency) == Some(0.0)
    ensures FinalPrice(rates, offer, sub) ==
      FinalPrice(rates, offer.(shippingCost := None, shippingCurrency := NO_SHIPPING), sub)
  {
    var bare := offer.(shippingCost := None, shippingCurrency := NO_SHIPPING);
    var target := sub.targetCurrency;
    assert ShippingAddend(rates, offer, target) == 0.0;
    assert ShippingAddend(rates, bare, target) == 0.0;
    assert BasePrice(bare) == BasePrice(offer);
    assert DeviceFeeAddend(rates, offer, sub, target) == DeviceFeeAddend(rates, bare, sub, target);
    forall rate: real
      ensures ExactTotal(rates, offer, sub, rate) == ExactTotal(rates, bare, sub, rate)
    {
    }
  }

  /**
    The device fee contributes nothing when no keyword matches, or when the
    matching fee is not positive or its rate is missing or zero: the price
    is the one of the same subscriber without any stored fees.
  */
  lemma FeeSoftSkip(rates: RateTable, offer: Offer, sub: Subscriber)
    requires var best := BestFee(sub.deviceFees, offer.name);
      || best.None?
      || sub.deviceFees[best.value].fee <= 0.0
      || GetConversionRate(rates, sub.deviceFees[best.value].currency, sub.targetCurrency).None?
      || GetConversionRate(rates, sub.deviceFees[best.value].currency, sub.targetCurrency) == Some(0.0)
    ensures FinalPrice(rates, offer, sub) == FinalPrice(rates, offer, sub.(deviceFees := []))
  {
    var bare := sub.(deviceFees := []);
    var target := sub.targetCurrency;
    assert BestFee([], offer.name).None?;
    assert DeviceFeeAddend(rates, offer, sub, target) == 0.0;
    assert DeviceFeeAddend(rates, offer, bare, target) == 0.0;
    forall rate: real
      ensures ExactTotal(rates, offer, sub, rate) == ExactTotal(rates, offer, bare, rate)
    {
    }
  }

  /** INTERNAL subscribers never pay a device fee: their stored fees do not affect the price. */
  lemma InternalIgnoresFees(rates: RateTable, offer: Offer, sub: Subscriber, fees: seq<SubscriberDeviceFee>)
    requires sub.subscriberType == Internal
    ensures FinalPrice(rates, offer, sub) == FinalPrice(rates, offer, sub.(deviceFees := fees))
  {
    var other := sub.(deviceFees := fees);
    assert DeviceFeeAddend(rates, offer, sub, sub.targetCurrency) == 0.0;
    assert DeviceFeeAddend(rates, offer, other, other.targetCurrency) == 0.0;
    assert forall rate :: ExactTotal(rates, offer, sub, rate) == ExactTotal(rates, offer, other, rate);
  }

  /**
    The fee that applies is the one whose keyword, ignoring case, is the
    longest found in the offer name, the earliest stored one on a tie; no fee
    applies exactly when no keyword is found.
  */
  lemma BestFeeIsLongestMatch(fees: seq<SubscriberDeviceFee>, offerName: string)
    ensures BestFee(fees, offerName).None? <==>
      forall j :: 0 <= j < |fees| ==> !Contains(Lower(offerName), Lower(fees[j].deviceKeyword))
    ensures BestFee(fees, offerName).Some? ==>
      var i := BestFee(fees, offerName).value;
      && Contains(Lower(offerName), Lower(fees[i].deviceKeyword))
      && (forall j :: 0 <= j < |fees| && Contains(Lower(offerName), Lower(fees[j].deviceKeyword)) ==>
            |fees[j].deviceKeyword| <= |fees[i].deviceKeyword|)
      && (forall j :: 0 <= j < i && Contains(Lower(offerName), Lower(fees[j].deviceKeyword)) ==>
            |fees[j].deviceKeyword| < |fees[i].deviceKeyword|)
  {
    var keys := FeeKeys(fees);
    var hay := Lower(offerName);
    LongestFirstIsLongest(keys, hay, false, |fees|);
    forall j | 0 <= j < |fees|
      ensures Eligible(keys, hay, false, j) <==> Contains(hay, Lower(fees[j].deviceKeyword))
      ensures |keys[j]| == |fees[j].deviceKeyword|
    {
    }
  }

  /** All stored rates are non-negative, so every conversion factor is too. */
  predicate NonNegativeRates(rates: RateTable) {
    forall key :: key in rates ==> rates[key] >= 0.0
  }

  lemma ConversionRateNonNegative(rates: RateTable, fromCurrency: string, toCurrency: string)
    requires NonNegativeRates(rates)
    ensures GetConversionRate(rates, fromCurrency, toCurrency).Some? ==>
      GetConversionRate(rates, fromCurrency, toCurrency).value >= 0.0
  {
  }

  /**
    With non-negative rates, an EXTERNAL subscriber is never quoted less
    than an otherwise identical INTERNAL one.
  */
  lemma ExternalNeverCheaper(rates: RateTable, offer: Offer, sub: Subscriber)
    requires NonNegativeRates(rates) && sub.subscriberType == External
    requires FinalPrice(rates, offer, sub).Priced?
    ensures FinalPrice(rates, offer, sub.(subscriberType := Internal)).Priced?
    ensures FinalPrice(rates, offer, sub.(subscriberType := Internal)).cents <= FinalPrice(rates, offer, sub).cents
  {
    var target := sub.targetCurrency;
    var internal := sub.(subscriberType := Internal);
    var fee := DeviceFeeAddend(rates, offer, sub, target);
    assert fee >= 0.0 by {
      match BestFee(sub.deviceFees, offer.name)
      case None =>
      case Some(i) =>
        ConversionRateNonNegative(rates, sub.deviceFees[i].currency, target);
    }
    var rate := GetConversionRate(rates, offer.currency, target).value;
    var rest := BasePrice(offer) * rate + ShippingAddend(rates, offer, target);
    assert DeviceFeeAddend(rates, offer, internal, target) == 0.0;
    RoundCentsMonotone(rest, rest + fee);
  }

  /** Pricing is in the subscriber's own currency; a default subscriber is quoted in SAR. */
  lemma DefaultSubscriberPricesInSar(rates: RateTable, offer: Offer, id: nat, name: string, number: string)
    ensures !FinalPrice(rates, offer, NewSubscriber(id, name, number)).PriceError? ==>
      FinalPrice(rates, offer, NewSubscriber(id, name, number)).currency == "SAR"
    ensures FinalPrice(rates, offer, NewSubscriber(id, name, number)).PriceError? ==>
      BasePrice(offer) > 0.0 && GetConversionRate(rates, offer.currency, "SAR").None?
  {
  }
}
