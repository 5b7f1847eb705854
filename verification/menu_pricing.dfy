/** The promotional price of a food item as the menu shows it. */
module MenuPricing {
  import opened Wrappers
  import opened Decimals
  import opened Discounts

  /**
   * A food item with its reference price and the promotional discounts linked to it, in ascending
   * id order: the link has no ordering of its own, so `.first()` takes the lowest id.
   */
  datatype FoodItem = FoodItem(id: nat, name: string, price: real, discounts: seq<DynamicDiscount>)

  /** The discount is switched on and `now` lies in its window; an open end never expires. */
  predicate InWindow(d: DynamicDiscount, now: int)
  {
    d.isActive && d.start <= now && (d.end.None? || d.end.value >= now)
  }

  /** The position of the first discount in the window, if any. */
  function FirstActiveIndex(ds: seq<DynamicDiscount>, now: int): (r: Option<nat>)
    ensures r.Some? ==> r.value < |ds| && InWindow(ds[r.value], now)
    ensures r.Some? ==> forall j :: 0 <= j < r.value ==> !InWindow(ds[j], now)
    ensures r.None? <==> forall j :: 0 <= j < |ds| ==> !InWindow(ds[j], now)
  {
    if ds == [] then None
    else if InWindow(ds[0], now) then Some(0)
    else match FirstActiveIndex(ds[1..], now)
      case None => None
      case Some(k) => Some(k + 1)
  }

  /** `_get_active_discount`: the first linked discount that is active and in its window. */
  function ActiveDiscount(item: FoodItem, now: int): (r: Option<DynamicDiscount>)
    ensures r.Some? ==> InWindow(r.value, now) && r.value in item.discounts
    ensures r.Some? ==> exists k :: 0 <= k < |item.discounts| && item.discounts[k] == r.value &&
                                    forall j :: 0 <= j < k ==> !InWindow(item.discounts[j], now)
    ensures r.None? <==> forall d :: d in item.discounts ==> !InWindow(d, now)
  {
    match FirstActiveIndex(item.discounts, now)
    case None => None
    case Some(k) => Some(item.discounts[k])
  }

  /** The amount taken off `price`: the percentage, cut to the per-item cap when that is set, non-zero and exceeded. */
  function ItemDiscountAmount(price: real, d: DynamicDiscount): (r: real)
    ensures d.maxPerItem.Some? && d.maxPerItem.value != 0.0 ==> r <= d.maxPerItem.value
    ensures r <= price * d.percentage / 100.0
    ensures d.maxPerItem.Some? && d.maxPerItem.value != 0.0 ==> r == Min(price * d.percentage / 100.0, d.maxPerItem.value)
    ensures (d.maxPerItem.None? || d.maxPerItem.value == 0.0 || price * d.percentage / 100.0 <= d.maxPerItem.value)
              ==> r == price * d.percentage / 100.0
  {
    var amount := price * d.percentage / 100.0;
    if d.maxPerItem.Some? && d.maxPerItem.value != 0.0 && amount > d.maxPerItem.value
    then d.maxPerItem.value
    else amount
  }

  /** `get_discounted_price`: the item price less the amount of its active discount. */
  function DiscountedPrice(item: FoodItem, now: int): (r: real)
    ensures ActiveDiscount(item, now).None? ==> r == item.price
    ensures ActiveDiscount(item, now).Some? ==>
              r == item.price - ItemDiscountAmount(item.price, ActiveDiscount(item, now).value)
  {
    match ActiveDiscount(item, now)
    case None => item.price
    case Some(d) => item.price - ItemDiscountAmount(item.price, d)
  }

  /** `get_discount_percentage`: the active discount's percentage, or nothing. */
  function DiscountPercentage(item: FoodItem, now: int): (r: Option<real>)
    ensures r.None? <==> forall d :: d in item.discounts ==> !InWindow(d, now)
    ensures r.Some? ==> exists d :: d in item.discounts && InWindow(d, now) && d.percentage == r.value
    ensures r == if ActiveDiscount(item, now).Some? then Some(ActiveDiscount(item, now).value.percentage) else None
  {
    match ActiveDiscount(item, now)
    case None => None
    case Some(d) => Some(d.percentage)
  }

  /** With a non-negative price, percentage and cap, the promotion never raises the price. */
  lemma DiscountedPriceAtMostPrice(item: FoodItem, now: int)
    requires item.price >= 0.0
    requires forall d :: d in item.discounts ==> d.percentage >= 0.0 && (d.maxPerItem.None? || d.maxPerItem.value >= 0.0)
    ensures DiscountedPrice(item, now) <= item.price
  {
    match ActiveDiscount(item, now)
    case None =>
    case Some(d) =>
      assert item.price * d.percentage >= 0.0;
  }

  /** With a percentage of at most 100 and a non-negative cap, the promotional price never goes below zero. */
  lemma DiscountedPriceNonNegative(item: FoodItem, now: int)
    requires item.price >= 0.0
    requires forall d :: d in item.discounts ==> d.percentage <= 100.0 && (d.maxPerItem.None? || d.maxPerItem.value >= 0.0)
    ensures DiscountedPrice(item, now) >= 0.0
  {
    match ActiveDiscount(item, now)
    case None =>
    case Some(d) =>
      assert item.price * (100.0 - d.percentage) >= 0.0;
  }

  /** A discount that passes the model validators keeps the promotional price between zero and the item price. */
  lemma ValidPromotionBounds(item: FoodItem, now: int)
    requires item.price >= 0.0
    requires forall d :: d in item.discounts ==>
               ValidDiscountPercentage(d.percentage) && (d.maxPerItem.None? || d.maxPerItem.value >= 0.0)
    ensures 0.0 <= DiscountedPrice(item, now) <= item.price
  {
    DiscountedPriceAtMostPrice(item, now);
    DiscountedPriceNonNegative(item, now);
  }
}
