/** The company pricing policy, the daily-menu date check and the menu price listing. */
module CompanyPricing {
  import opened Wrappers
  import opened Decimals
  import opened Companies
  import opened Users
  import MenuPricing

  /** The price the policy starts from: a positive average price overrides the item price in AVERAGE mode. */
  function BasePrice(originalPrice: real, c: Company): real
  {
    if c.calculationType == Average && c.averagePrice > 0.0 then c.averagePrice else originalPrice
  }

  /** The company discount is skipped for `NONE` and for a value that is not positive. */
  predicate DiscountApplies(c: Company)
  {
    c.discountType != NoDiscount && c.discountValue > 0.0
  }

  /** Rounding happens only for a percentage discount with a rounding tier other than `NONE`. */
  predicate RoundsToThousand(c: Company)
  {
    c.discountType == Percentage && c.roundingAmount != NoRounding
  }

  /** Round to a multiple of 1000, halves away from zero, whatever tier was chosen. */
  function RoundToThousand(x: real): (r: int)
    ensures r % 1000 == 0
    ensures r as real - x <= 500.0 && x - r as real <= 500.0
  {
    RoundHalfUp(x / 1000.0) * 1000
  }

  /** The price after the company discount step, before any rounding. */
  function DiscountedBase(base: real, c: Company): (r: real)
    ensures DiscountApplies(c) && c.discountType == Fixed ==> r == Max(0.0, base - c.discountValue) && r >= 0.0
    ensures DiscountApplies(c) && c.discountType == Percentage ==> r == base * (1.0 - c.discountValue / 100.0)
    ensures !DiscountApplies(c) ==> r == base
  {
    if DiscountApplies(c) && c.discountType == Fixed then Max(0.0, base - c.discountValue)
    else if DiscountApplies(c) && c.discountType == Percentage then base * (1.0 - c.discountValue / 100.0)
    else base
  }

  /** The policy's price before the final integer quantisation. */
  function PolicyPrice(originalPrice: real, c: Company): real
  {
    var discounted := DiscountedBase(BasePrice(originalPrice, c), c);
    if RoundsToThousand(c) then RoundToThousand(discounted) as real else discounted
  }

  /** `_apply_company_pricing`: the integer price an employee of `company` sees for an item. */
  function ApplyCompanyPricing(originalPrice: real, company: Option<Company>): (r: int)
    ensures company.None? ==> r == RoundHalfEven(originalPrice)
    ensures company.Some? ==>
              r as real - PolicyPrice(originalPrice, company.value) <= 0.5 &&
              PolicyPrice(originalPrice, company.value) - r as real <= 0.5
    ensures company.Some? && RoundsToThousand(company.value) ==>
              r % 1000 == 0 && r == RoundToThousand(DiscountedBase(BasePrice(originalPrice, company.value), company.value))
  {
    match company
    case None => RoundHalfEven(originalPrice)
    case Some(c) =>
      if RoundsToThousand(c) then
        var thousand := RoundToThousand(DiscountedBase(BasePrice(originalPrice, c), c));
        RoundHalfEvenOfInteger(thousand);
        RoundHalfEven(PolicyPrice(originalPrice, c))
      else RoundHalfEven(PolicyPrice(originalPrice, c))
  }

  /** Without a discount that applies and without rounding, the base price is only quantised. */
  lemma PriceWithoutDiscount(p: real, c: Company)
    requires !DiscountApplies(c) && !RoundsToThousand(c)
    ensures ApplyCompanyPricing(p, Some(c)) == RoundHalfEven(BasePrice(p, c))
  {
  }

  /** A FIXED discount gives max(0, base - value), so the price is never negative. */
  lemma FixedDiscountPrice(p: real, c: Company)
    requires DiscountApplies(c) && c.discountType == Fixed
    ensures ApplyCompanyPricing(p, Some(c)) == RoundHalfEven(Max(0.0, BasePrice(p, c) - c.discountValue))
    ensures ApplyCompanyPricing(p, Some(c)) >= 0
  {
  }

  /** A PERCENTAGE discount without rounding gives base * (1 - value/100), with no clamp at zero. */
  lemma PercentageDiscountPrice(p: real, c: Company)
    requires DiscountApplies(c) && c.discountType == Percentage && c.roundingAmount == NoRounding
    ensures ApplyCompanyPricing(p, Some(c)) == RoundHalfEven(BasePrice(p, c) * (1.0 - c.discountValue / 100.0))
  {
    assert PolicyPrice(p, c) == BasePrice(p, c) * (1.0 - c.discountValue / 100.0);
  }

  /** In AVERAGE mode with a positive average price the item's own price plays no part. */
  lemma AveragePriceIgnoresItemPrice(p1: real, p2: real, c: Company)
    requires c.calculationType == Average && c.averagePrice > 0.0
    ensures ApplyCompanyPricing(p1, Some(c)) == ApplyCompanyPricing(p2, Some(c))
  {
  }

  /** The three rounding tiers give one and the same price: the granularity is always 1000. */
  lemma RoundingTierIsIgnored(p: real, c: Company)
    requires c.discountType == Percentage
    ensures ApplyCompanyPricing(p, Some(c.(roundingAmount := Hundred))) == ApplyCompanyPricing(p, Some(c.(roundingAmount := Thousand)))
    ensures ApplyCompanyPricing(p, Some(c.(roundingAmount := FiveHundred))) == ApplyCompanyPricing(p, Some(c.(roundingAmount := Thousand)))
  {
    var hundred, five, thousand := c.(roundingAmount := Hundred), c.(roundingAmount := FiveHundred), c.(roundingAmount := Thousand);
    assert DiscountedBase(BasePrice(p, hundred), hundred) == DiscountedBase(BasePrice(p, thousand), thousand);
    assert DiscountedBase(BasePrice(p, five), five) == DiscountedBase(BasePrice(p, thousand), thousand);
  }

  /** A percentage policy with a tier rounds to 1000 even when its value is zero, i.e. when no discount is taken. */
  lemma ZeroPercentStillRounds(p: real, c: Company)
    requires c.discountType == Percentage && c.discountValue <= 0.0 && c.roundingAmount != NoRounding
    ensures ApplyCompanyPricing(p, Some(c)) == RoundToThousand(BasePrice(p, c))
  {
  }

  /** The half-up tie: 1500 becomes 2000 and 2500 becomes 3000 under a rounded percentage policy. */
  lemma ThousandRoundingTiesGoUp(c: Company)
    requires c.calculationType == Fluid && c.discountType == Percentage && c.discountValue == 50.0
    requires c.roundingAmount == Hundred
    ensures ApplyCompanyPricing(3000.0, Some(c)) == 2000
    ensures ApplyCompanyPricing(5000.0, Some(c)) == 3000
  {
    assert RoundHalfUp(1500.0 / 1000.0) == 2;
    assert RoundHalfUp(2500.0 / 1000.0) == 3;
  }

  /** A percentage above 100 is not clamped: the price turns negative. */
  lemma PercentageIsNotClamped(c: Company)
    requires c.calculationType == Fluid && c.discountType == Percentage && c.discountValue == 150.0
    requires c.roundingAmount == NoRounding
    ensures ApplyCompanyPricing(1000.0, Some(c)) == -500
  {
    assert RoundHalfEven(-500.0) == -500;
  }

  /** `DailyMenuWriteSerializer.validate_date`: a date outside the schedule's inclusive range is refused. */
  function ValidateDate(scheduleRange: Option<(int, int)>, date: int): (r: Result<int, string>)
    ensures r.Ok? ==> r.value == date
    ensures r.Err? <==> scheduleRange.Some? && !(scheduleRange.value.0 <= date <= scheduleRange.value.1)
  {
    if scheduleRange.Some? && !(scheduleRange.value.0 <= date <= scheduleRange.value.1)
    then Err("Date must be within the parent schedule's date range.")
    else Ok(date)
  }

  /** One food as the daily menu lists it: the reference price and the price the viewer pays. */
  datatype ListedFood = ListedFood(id: nat, price: real, discountedPrice: int)

  /** The company whose policy prices the listing: a super admin sees the schedule owner's prices. */
  function PricingCompany(viewerRole: Role, contextCompany: Option<Company>, scheduleCompany: Option<Company>): Option<Company>
  {
    if viewerRole == SuperAdmin then scheduleCompany else contextCompany
  }

  /**
   * `DailyMenuReadSerializer.get_available_foods`: each food's promotional price, passed through
   * the company policy; the reference price is reported unchanged beside it.
   */
  method GetAvailableFoods(foods: seq<MenuPricing.FoodItem>, now: int, viewerRole: Role,
                           contextCompany: Option<Company>, scheduleCompany: Option<Company>)
    returns (listed: seq<ListedFood>)
    ensures |listed| == |foods|
    ensures forall i :: 0 <= i < |foods| ==>
              listed[i].id == foods[i].id && listed[i].price == foods[i].price
    ensures forall i :: 0 <= i < |foods| ==>
              listed[i].discountedPrice ==
                ApplyCompanyPricing(MenuPricing.DiscountedPrice(foods[i], now),
                                    PricingCompany(viewerRole, contextCompany, scheduleCompany))
  {
    var company := PricingCompany(viewerRole, contextCompany, scheduleCompany);
    listed := [];
    for i := 0 to |foods|
      invariant |listed| == i
      invariant forall j :: 0 <= j < i ==>
                  listed[j].id == foods[j].id && listed[j].price == foods[j].price
                  && listed[j].discountedPrice == ApplyCompanyPricing(MenuPricing.DiscountedPrice(foods[j], now), company)
    {
      var afterPromotion := MenuPricing.DiscountedPrice(foods[i], now);
      var finalPrice := ApplyCompanyPricing(afterPromotion, company);
      listed := listed + [ListedFood(foods[i].id, foods[i].price, finalPrice)];
    }
  }
}
