/** Coupon codes, their usage rows and per-item promotional discounts. */
module Discounts {
  import opened Wrappers
  import opened Decimals

  datatype CouponKind = PercentageOff | FixedAmount

  datatype Scope = Public | Private

  /** A redeemable coupon code. Times are timestamps; `end == None` means no expiry. */
  datatype DiscountCode = DiscountCode(
    code: string,
    kind: CouponKind,
    value: real,
    maxUsageCount: Option<nat>,
    usageCount: nat,
    maxUsagePerUser: nat,
    minOrderAmount: Option<real>,
    maxDiscountAmount: Option<real>,
    start: int,
    end: Option<int>,
    scope: Scope,
    isActive: bool)

  /** The cap applies only when it is set and non-zero: a zero or missing cap is falsy. */
  predicate HasCap(c: DiscountCode)
  {
    c.maxDiscountAmount.Some? && c.maxDiscountAmount.value != 0.0
  }

  /** The coupon's raw amount for `price`, before any cap. */
  function RawAmount(c: DiscountCode, price: real): real
  {
    match c.kind
    case FixedAmount => c.value
    case PercentageOff => price * c.value / 100.0
  }

  /**
   * `calculate_discount_amount`: the raw amount, cut to the cap when the cap is set, non-zero
   * and exceeded, and never more than the price passed in.
   */
  function CalculateDiscountAmount(c: DiscountCode, price: real): (r: real)
    ensures r <= price
    ensures HasCap(c) ==> r <= c.maxDiscountAmount.value
    ensures HasCap(c) ==> r == Min(price, Min(RawAmount(c, price), c.maxDiscountAmount.value))
    ensures (!HasCap(c) || RawAmount(c, price) <= c.maxDiscountAmount.value) ==>
              r == Min(price, RawAmount(c, price))
    ensures !HasCap(c) && c.kind == FixedAmount ==> r == Min(price, c.value)
    ensures (price >= 0.0 && c.value >= 0.0 &&
             (c.maxDiscountAmount.None? || c.maxDiscountAmount.value >= 0.0)) ==> r >= 0.0
  {
    var amount := RawAmount(c, price);
    var capped := if HasCap(c) && amount > c.maxDiscountAmount.value then c.maxDiscountAmount.value else amount;
    Min(price, capped)
  }

  /** Without a cap, a percentage coupon takes that share of the price, never more than the price. */
  lemma PercentageOffAmount(c: DiscountCode, price: real)
    requires !HasCap(c) && c.kind == PercentageOff
    ensures CalculateDiscountAmount(c, price) == Min(price, price * c.value / 100.0)
  {
  }

  /** A row recording that `user` redeemed code number `code` on order `order`. */
  datatype Usage = Usage(code: nat, user: nat, order: nat)

  /** The one-to-one link to the order: no two usage rows name the same order. */
  ghost predicate OneUsagePerOrder(us: seq<Usage>)
  {
    forall i, j :: 0 <= i < j < |us| ==> us[i].order != us[j].order
  }

  /** The (code, user, order) triple is unique. */
  ghost predicate UniqueTriples(us: seq<Usage>)
  {
    forall i, j :: 0 <= i < j < |us| ==> us[i] != us[j]
  }

  /** The order link being one-to-one already makes the (code, user, order) triple unique. */
  lemma OneUsagePerOrderGivesUniqueTriples(us: seq<Usage>)
    requires OneUsagePerOrder(us)
    ensures UniqueTriples(us)
  {
  }

  /** How many usage rows `user` holds for code number `code`. */
  function UsageCount(us: seq<Usage>, code: nat, user: nat): (n: nat)
    ensures n <= |us|
    ensures n == 0 <==> forall i :: 0 <= i < |us| ==> !(us[i].code == code && us[i].user == user)
  {
    if us == [] then 0
    else UsageCount(us[..|us| - 1], code, user)
         + (if us[|us| - 1].code == code && us[|us| - 1].user == user then 1 else 0)
  }

  /** A promotional discount on food items, with an optional per-item cap. */
  datatype DynamicDiscount = DynamicDiscount(
    percentage: real,
    maxPerItem: Option<real>,
    start: int,
    end: Option<int>,
    isActive: bool)

  /** The field validators on `discount_percentage`: 0.01 to 100.00, two decimal places. */
  predicate ValidDiscountPercentage(p: real)
  {
    0.01 <= p <= 100.0 && HasCents(p)
  }
}
