/** An order's price fields and the recalculation that fills them. */
module OrderPricing {
  import opened Wrappers
  import opened Companies
  import opened Discounts
  import CompanyPricing

  datatype OrderStatus = Placed | Confirmed | Preparing | Delivered | Canceled

  /** The status a new order starts in. */
  const DefaultStatus: OrderStatus := Placed

  /** A food item or side dish as an order sees it: its name and reference price. */
  datatype MenuItem = MenuItem(id: nat, name: string, price: real)

  /** The four stored price fields. */
  datatype PriceFields = PriceFields(basePrice: real, companyDiscount: real, couponDiscount: real, finalPrice: real)

  /** The fields of a freshly created order, before any recalculation. */
  const ZeroPrices := PriceFields(0.0, 0.0, 0.0, 0.0)

  /** Total reference price of the side dishes. */
  function SumPrices(items: seq<MenuItem>): real
  {
    if items == [] then 0.0 else SumPrices(items[..|items| - 1]) + items[|items| - 1].price
  }

  /** Total of the side dishes' prices each passed through the company policy. */
  function SumCompanyPrices(items: seq<MenuItem>, c: Company): real
  {
    if items == [] then 0.0
    else SumCompanyPrices(items[..|items| - 1], c)
         + CompanyPricing.ApplyCompanyPricing(items[|items| - 1].price, Some(c)) as real
  }

  /** A company policy that changes no price: no discount, no rounding, no average override. */
  predicate NeutralPolicy(c: Company)
  {
    !CompanyPricing.DiscountApplies(c) && !CompanyPricing.RoundsToThousand(c) && c.calculationType == Fluid
  }

  /** A price without a fractional part, which quantisation leaves as it is. */
  predicate WholePrice(item: MenuItem)
  {
    item.price.Floor as real == item.price
  }

  /** Under a neutral company policy, the policy total of whole prices is the reference total. */
  lemma {:induction false} NeutralPolicySum(items: seq<MenuItem>, c: Company)
    requires NeutralPolicy(c)
    requires forall i :: 0 <= i < |items| ==> WholePrice(items[i])
    ensures SumCompanyPrices(items, c) == SumPrices(items)
  {
    if items != [] {
      NeutralPolicySum(items[..|items| - 1], c);
      var p := items[|items| - 1].price;
      CompanyPricing.PriceWithoutDiscount(p, c);
      Decimals.RoundHalfEvenOfInteger(p.Floor);
    }
  }

  /** `unit` times `n`, written as n-fold addition so that only `TimesIsProduct` needs to reason about the product. */
  function Times(unit: real, n: nat): real
  {
    if n == 0 then 0.0 else Times(unit, n - 1) + unit
  }

  /** n-fold addition is multiplication by n. */
  lemma {:induction false} TimesIsProduct(unit: real, n: nat)
    ensures Times(unit, n) == unit * n as real
  {
    if n > 0 {
      TimesIsProduct(unit, n - 1);
    }
  }

  /** The price after the company policy: the reference total without a company, else the policy prices times the quantity. */
  function PriceAfterCompany(food: MenuItem, sides: seq<MenuItem>, quantity: nat, company: Option<Company>): real
  {
    if company.None? then Times(food.price + SumPrices(sides), quantity)
    else Times(CompanyPricing.ApplyCompanyPricing(food.price, company) as real + SumCompanyPrices(sides, company.value), quantity)
  }

  /** Under a neutral company policy and whole prices, the policy prices of one portion add up to its reference prices. */
  lemma NeutralPolicyUnitPrice(food: MenuItem, sides: seq<MenuItem>, c: Company)
    requires NeutralPolicy(c) && WholePrice(food)
    requires forall i :: 0 <= i < |sides| ==> WholePrice(sides[i])
    ensures CompanyPricing.ApplyCompanyPricing(food.price, Some(c)) as real + SumCompanyPrices(sides, c) == food.price + SumPrices(sides)
  {
    NeutralPolicySum(sides, c);
    CompanyPricing.PriceWithoutDiscount(food.price, c);
    Decimals.RoundHalfEvenOfInteger(food.price.Floor);
  }

  /** Under a neutral company policy and whole prices, the total after the policy is the total without a company, the base total. */
  lemma NeutralPolicyTotal(food: MenuItem, sides: seq<MenuItem>, quantity: nat, c: Company)
    requires NeutralPolicy(c) && WholePrice(food)
    requires forall i :: 0 <= i < |sides| ==> WholePrice(sides[i])
    ensures PriceAfterCompany(food, sides, quantity, Some(c)) == PriceAfterCompany(food, sides, quantity, None)
  {
    NeutralPolicyUnitPrice(food, sides, c);
    var reference := food.price + SumPrices(sides);
    assert PriceAfterCompany(food, sides, quantity, Some(c)) == Times(reference, quantity);
  }

  /**
   * The values `calculate_and_save_prices` stores for an order with a food item: base price from the
   * reference prices, the company discount as the difference to the policy price, the coupon's amount on
   * the policy price, and the final price.
   */
  function Prices(food: MenuItem, sides: seq<MenuItem>, quantity: nat, company: Option<Company>, coupon: Option<DiscountCode>)
    : (p: PriceFields)
    ensures p.basePrice == Times(food.price + SumPrices(sides), quantity)
    ensures p.finalPrice == p.basePrice - p.companyDiscount - p.couponDiscount
    ensures p.finalPrice == PriceAfterCompany(food, sides, quantity, company) - p.couponDiscount
    ensures company.None? ==> p.companyDiscount == 0.0
    ensures coupon.None? ==> p.couponDiscount == 0.0
    ensures coupon.Some? ==> p.couponDiscount <= PriceAfterCompany(food, sides, quantity, company)
    ensures PriceAfterCompany(food, sides, quantity, company) >= 0.0 ==> p.finalPrice >= 0.0
  {
    var base := Times(food.price + SumPrices(sides), quantity);
    var afterCompany := PriceAfterCompany(food, sides, quantity, company);
    var amount := if coupon.Some? then CalculateDiscountAmount(coupon.value, afterCompany) else 0.0;
    PriceFields(base, base - afterCompany, amount, afterCompany - amount)
  }

  /** The stored fields follow from the policy total and the coupon's amount on it. */
  lemma PricesOf(food: MenuItem, sides: seq<MenuItem>, quantity: nat, company: Option<Company>, coupon: Option<DiscountCode>,
                 afterCompany: real, couponAmount: real)
    requires afterCompany == PriceAfterCompany(food, sides, quantity, company)
    requires couponAmount == if coupon.Some? then CalculateDiscountAmount(coupon.value, afterCompany) else 0.0
    ensures var base := Times(food.price + SumPrices(sides), quantity);
            Prices(food, sides, quantity, company, coupon) == PriceFields(base, base - afterCompany, couponAmount, afterCompany - couponAmount)
  {
    var base := Times(food.price + SumPrices(sides), quantity);
    var p := Prices(food, sides, quantity, company, coupon);
    assert p.basePrice == base && p.couponDiscount == couponAmount;
    assert p.companyDiscount == base - afterCompany;
  }

  /** The company discount is not clamped: an average price above the item price makes it negative. */
  lemma CompanyDiscountCanBeNegative()
    ensures var c := Company("c", Average, 50000.0, Online, NoDiscount, 0.0, NoRounding);
            Prices(MenuItem(1, "rice", 30000.0), [], 1, Some(c), None).companyDiscount == -20000.0
  {
    var c := Company("c", Average, 50000.0, Online, NoDiscount, 0.0, NoRounding);
    CompanyPricing.PriceWithoutDiscount(30000.0, c);
    Decimals.RoundHalfEvenOfInteger(50000);
  }

  /** An order row: the parts the price depends on and the stored price fields. */
  class Order {
    var food: Option<MenuItem>
    var sides: seq<MenuItem>
    var quantity: nat
    var status: OrderStatus
    /** The ordering user's company, read through `self.user.company`. */
    var company: Option<Company>
    /** The code of the usage row attached to this order, if any. */
    var coupon: Option<DiscountCode>
    var basePrice: real
    var companyDiscountAmount: real
    var couponDiscountAmount: real
    var finalPrice: real

    /** A new order with its price fields at their zero defaults. */
    constructor (food: Option<MenuItem>, sides: seq<MenuItem>, quantity: nat, company: Option<Company>, coupon: Option<DiscountCode>)
      ensures this.food == food && this.sides == sides && this.quantity == quantity
      ensures this.company == company && this.coupon == coupon && status == DefaultStatus
      ensures Stored() == ZeroPrices
    {
      this.food, this.sides, this.quantity := food, sides, quantity;
      this.company, this.coupon := company, coupon;
      status := DefaultStatus;
      basePrice, companyDiscountAmount, couponDiscountAmount, finalPrice := 0.0, 0.0, 0.0, 0.0;
    }

    /** The price fields as stored. */
    function Stored(): PriceFields
      reads this
    {
      PriceFields(basePrice, companyDiscountAmount, couponDiscountAmount, finalPrice)
    }

    /** The stored fields agree with the current composition of the order. */
    predicate PricesCurrent()
      reads this
    {
      food.Some? ==> Stored() == Prices(food.value, sides, quantity, company, coupon)
    }

    /** The total after the company policy: each price passed through the company's pricing, or the base price without a company. */
    method PolicyTotal(base: real) returns (afterCompany: real)
      requires food.Some? && base == Times(food.value.price + SumPrices(sides), quantity)
      ensures afterCompany == PriceAfterCompany(food.value, sides, quantity, company)
      ensures company.None? ==> afterCompany == base
      ensures (company.Some? && NeutralPolicy(company.value) && WholePrice(food.value) &&
               (forall i :: 0 <= i < |sides| ==> WholePrice(sides[i]))) ==> afterCompany == base
    {
      afterCompany := base;
      if company.Some? {
        var finalFoodPrice := CompanyPricing.ApplyCompanyPricing(food.value.price, company);
        var finalSidesPrice := SumCompanyPrices(sides, company.value);
        afterCompany := Times(finalFoodPrice as real + finalSidesPrice, quantity);
        if NeutralPolicy(company.value) && WholePrice(food.value) && forall i :: 0 <= i < |sides| ==> WholePrice(sides[i]) {
          NeutralPolicyTotal(food.value, sides, quantity, company.value);
        }
      }
    }

    /** The coupon's amount on the policy total, or zero without an attached usage row. */
    method CouponAmount(afterCompany: real) returns (couponAmount: real)
      ensures couponAmount == if coupon.Some? then CalculateDiscountAmount(coupon.value, afterCompany) else 0.0
      ensures coupon.None? ==> couponAmount == 0.0
      ensures coupon.Some? ==> couponAmount <= afterCompany
      ensures coupon.Some? && HasCap(coupon.value) ==> couponAmount <= coupon.value.maxDiscountAmount.value
      ensures (afterCompany >= 0.0 && coupon.Some? && coupon.value.value >= 0.0 &&
               (coupon.value.maxDiscountAmount.None? || coupon.value.maxDiscountAmount.value >= 0.0)) ==> couponAmount >= 0.0
    {
      couponAmount := 0.0;
      if coupon.Some? {
        couponAmount := CalculateDiscountAmount(coupon.value, afterCompany);
      }
    }

    /** The four price fields for the order's current composition, computed step by step. */
    method ComputePrices() returns (p: PriceFields)
      requires food.Some?
      ensures p == Prices(food.value, sides, quantity, company, coupon)
    {
      var item, sideDishes, count := food.value, sides, quantity;
      var base := (item.price + SumPrices(sideDishes)) * count as real;
      TimesIsProduct(item.price + SumPrices(sideDishes), count);
      var afterCompany := PolicyTotal(base);
      var couponAmount := CouponAmount(afterCompany);
      PricesOf(item, sideDishes, count, company, coupon, afterCompany, couponAmount);
      p := PriceFields(base, base - afterCompany, couponAmount, afterCompany - couponAmount);
    }

    /**
     * `calculate_and_save_prices`: with a food item, stores base price, company discount, coupon
     * discount and final price; without one, leaves every field as it was.
     */
    method CalculateAndSavePrices()
      modifies this
      ensures food == old(food) && sides == old(sides) && quantity == old(quantity)
      ensures company == old(company) && coupon == old(coupon) && status == old(status)
      ensures old(food).None? ==> Stored() == old(Stored())
      ensures old(food).Some? ==> Stored() == Prices(food.value, sides, quantity, company, coupon)
      ensures PricesCurrent()
      ensures old(PricesCurrent()) ==> Stored() == old(Stored())
      ensures food.Some? ==> finalPrice == basePrice - companyDiscountAmount - couponDiscountAmount
    {
      if food.None? {
        return;
      }
      var p := ComputePrices();
      basePrice, companyDiscountAmount, couponDiscountAmount, finalPrice := p.basePrice, p.companyDiscount, p.couponDiscount, p.finalPrice;
    }
  }

  /** Recalculating twice stores what the first recalculation stored. */
  method RecalculateTwice(o: Order)
    modifies o
    ensures o.PricesCurrent()
    ensures old(o.food).None? ==> o.Stored() == old(o.Stored())
    ensures o.food.Some? ==> o.Stored() == Prices(o.food.value, o.sides, o.quantity, o.company, o.coupon)
  {
    o.CalculateAndSavePrices();
    var first := o.Stored();
    o.CalculateAndSavePrices();
    assert o.Stored() == first;
  }
}
