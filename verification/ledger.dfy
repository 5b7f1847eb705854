/**
 * Budgets, company wallets and the transaction log, with the requests that move money:
 * order creation with settlement, order update and cancellation, budget allocation and
 * reclaim, and wallet deposits. Each request runs as one atomic unit: when it fails,
 * nothing changes.
 */
module Ledger {
  import opened Wrappers
  import opened Decimals
  import opened Companies
  import opened Users
  import opened Discounts
  import opened OrderPricing
  import CouponViews
  import Permissions

  datatype TransactionType = Deposit | BudgetAllocation | OrderDeduction | Refund

  /** An append-only log row. A wallet belongs to exactly one company, so `wallet` names that company. */
  datatype Transaction = Transaction(wallet: CompanyId, user: Option<UserId>, kind: TransactionType, amount: real)

  type OrderId = nat

  /** A stored order: owner, menu date (absent once the menu is deleted), composition, status, price fields. */
  datatype OrderRecord = OrderRecord(
    user: UserId,
    menuDate: Option<int>,
    food: Option<MenuItem>,
    sides: seq<MenuItem>,
    quantity: nat,
    status: OrderStatus,
    prices: PriceFields)

  /** The validated fields of an order update; an absent field is left as it is. */
  datatype OrderEdit = OrderEdit(
    menuDate: Option<int>,
    food: Option<Option<MenuItem>>,
    sides: Option<seq<MenuItem>>,
    quantity: Option<nat>)

  /** An order after an update: the composition changes, the price fields do not. */
  function ApplyEdit(o: OrderRecord, e: OrderEdit): (r: OrderRecord)
    ensures r.prices == o.prices && r.user == o.user && r.status == o.status
    ensures e.food.Some? ==> r.food == e.food.value
    ensures e.food.None? ==> r.food == o.food
    ensures r.sides == (if e.sides.Some? then e.sides.value else o.sides)
    ensures r.quantity == (if e.quantity.Some? then e.quantity.value else o.quantity)
    ensures r.menuDate == (if e.menuDate.Some? then e.menuDate else o.menuDate)
  {
    o.(menuDate := if e.menuDate.Some? then e.menuDate else o.menuDate,
       food := if e.food.Some? then e.food.value else o.food,
       sides := if e.sides.Some? then e.sides.value else o.sides,
       quantity := if e.quantity.Some? then e.quantity.value else o.quantity)
  }

  /** The amount the deposit and budget serializers accept: at least 0.01, two decimals, ten digits. */
  predicate ValidAmount(a: real)
  {
    0.01 <= a && a < 100000000.0 && HasCents(a)
  }

  /** An accepted amount is positive, so a deposit strictly raises the balance. */
  lemma ValidAmountIsPositive(a: real)
    requires ValidAmount(a)
    ensures a > 0.0
  {
  }

  /** How a request ends. */
  datatype Outcome = Success | Forbidden | NotFound | BadRequest | InsufficientFunds | ServerError

  /** The coupon found for an order: none, the one active code matching, or several (the lookup raises). */
  datatype CouponLookup = NoCoupon | Attach(index: nat) | Ambiguous

  /** The active code an order's coupon string names, matched case-insensitively; dates and caps are not looked at. */
  function FindActiveCode(codes: seq<DiscountCode>, code: Option<string>): (r: CouponLookup)
    ensures r.Attach? ==> code.Some? && r.index < |codes| && codes[r.index].isActive &&
                          CouponViews.SameIgnoringCase(codes[r.index].code, code.value)
    ensures (code.None? || code.value == "") ==> r == NoCoupon
    ensures r == NoCoupon && code.Some? && code.value != "" ==>
              forall i :: 0 <= i < |codes| && codes[i].isActive ==> !CouponViews.SameIgnoringCase(codes[i].code, code.value)
    ensures (code.Some? && code.value != "" &&
             forall i :: 0 <= i < |codes| && codes[i].isActive ==> !CouponViews.SameIgnoringCase(codes[i].code, code.value))
              ==> r == NoCoupon
    ensures r.Attach? <==> code.Some? && code.value != "" && |CouponViews.Matching(codes, code.value, true)| == 1
    ensures r.Attach? ==> r.index == CouponViews.Matching(codes, code.value, true)[0]
    ensures r == Ambiguous <==> code.Some? && code.value != "" && |CouponViews.Matching(codes, code.value, true)| > 1
  {
    if code.None? || code.value == "" then NoCoupon
    else
      var found := CouponViews.Matching(codes, code.value, true);
      if |found| == 0 then NoCoupon
      else if |found| == 1 then Attach(found[0])
      else Ambiguous
  }

  /** The coupon an order gets: the code found, if exactly one active code matches. */
  function AppliedCoupon(codes: seq<DiscountCode>, code: Option<string>): Option<DiscountCode>
  {
    var lookup := FindActiveCode(codes, code);
    if lookup.Attach? then Some(codes[lookup.index]) else None
  }

  /** The prices a new order stores: computed when it has a food item, the zero defaults otherwise. */
  function NewOrderPrices(food: Option<MenuItem>, sides: seq<MenuItem>, quantity: nat, company: Option<Company>,
                          coupon: Option<DiscountCode>): (p: PriceFields)
    ensures food.None? ==> p == ZeroPrices
    ensures p.finalPrice == p.basePrice - p.companyDiscount - p.couponDiscount
  {
    if food.None? then ZeroPrices else Prices(food.value, sides, quantity, company, coupon)
  }

  /** The usage rows with those of order `o` removed (the cascade when the order is deleted). */
  function WithoutOrder(us: seq<Usage>, o: OrderId): (r: seq<Usage>)
    ensures forall u :: u in r ==> u in us && u.order != o
    ensures forall u :: u in us && u.order != o ==> u in r
    ensures OneUsagePerOrder(us) ==> OneUsagePerOrder(r)
  {
    if us == [] then []
    else
      var rest := WithoutOrder(us[1..], o);
      if us[0].order == o then rest
      else
        assert forall u :: u in rest ==> u in us[1..];
        [us[0]] + rest
  }

  /** Builds the order the request describes and lets it price itself, as the order's `save` does. */
  method PriceOrder(food: Option<MenuItem>, sides: seq<MenuItem>, quantity: nat, company: Option<Company>,
                    coupon: Option<DiscountCode>) returns (prices: PriceFields)
    ensures prices == NewOrderPrices(food, sides, quantity, company, coupon)
  {
    var order := new Order(food, sides, quantity, company, coupon);
    order.CalculateAndSavePrices();
    prices := order.Stored();
  }

  class Accounts {
    /** Role and company of every user (not changed by these requests). */
    var profiles: map<UserId, Profile>
    /** Each user's meal budget. */
    var budgets: map<UserId, real>
    var companies: map<CompanyId, Company>
    /** Each company's wallet balance, by company. */
    var wallets: map<CompanyId, real>
    /** The companies that have their configuration row. */
    var configs: set<CompanyId>
    var transactions: seq<Transaction>
    /** The coupon codes; a code is named by its position. */
    var codes: seq<DiscountCode>
    var usages: seq<Usage>
    var orders: map<OrderId, OrderRecord>
    var nextOrderId: OrderId
    var nextCompanyId: CompanyId

    ghost predicate Valid()
      reads this
    {
      && budgets.Keys == profiles.Keys
      && (forall u :: u in profiles && profiles[u].company.Some? ==> profiles[u].company.value in companies)
      && wallets.Keys <= companies.Keys
      && configs <= companies.Keys
      && (forall c :: c in companies ==> c < nextCompanyId)
      && (forall o :: o in orders ==> o < nextOrderId && orders[o].user in profiles)
      && (forall t :: t in transactions ==> t.wallet in wallets)
      && OneUsagePerOrder(usages)
      && (forall u :: u in usages ==> u.order in orders && u.code < |codes|)
    }

    /** An empty store. */
    constructor ()
      ensures Valid()
      ensures profiles == map[] && companies == map[] && wallets == map[] && transactions == [] && orders == map[]
    {
      profiles, budgets, companies, wallets, configs := map[], map[], map[], map[], {};
      transactions, codes, usages, orders := [], [], [], map[];
      nextOrderId, nextCompanyId := 0, 0;
    }

    /** The requesting user as the permission checks see it. */
    function CallerOf(id: Option<UserId>): Users.Caller
      reads this
    {
      if id.Some? && id.value in profiles then Member(id.value, profiles[id.value]) else Anonymous
    }

    /** Every user with its company, as the permission checks look it up. */
    function UserCompanies(): map<UserId, Option<CompanyId>>
      reads this
    {
      map u | u in profiles :: profiles[u].company
    }

    /** The company record of `user`, if the user belongs to one. */
    function CompanyOf(user: UserId): Option<Company>
      reads this
      requires Valid() && user in profiles
    {
      if profiles[user].company.Some? then Some(companies[profiles[user].company.value]) else None
    }

    /** Order charges apply to members of a company that pays online. */
    predicate Charged(user: UserId)
      reads this
      requires Valid() && user in profiles
    {
      CompanyOf(user).Some? && CompanyOf(user).value.paymentModel == Online
    }

    /**
     * Creating a company also creates its wallet with a zero balance and its configuration row,
     * the two rows attached to a new company.
     */
    method CreateCompany(settings: Company) returns (id: CompanyId)
      requires Valid()
      modifies this
      ensures Valid()
      ensures id == old(nextCompanyId) && id !in old(companies)
      ensures companies == old(companies)[id := settings]
      ensures wallets == old(wallets)[id := 0.0]
      ensures configs == old(configs) + {id}
      ensures profiles == old(profiles) && budgets == old(budgets) && transactions == old(transactions)
      ensures codes == old(codes) && usages == old(usages) && orders == old(orders)
    {
      id := nextCompanyId;
      companies := companies[id := settings];
      wallets := wallets[id := 0.0];
      configs := configs + {id};
      nextCompanyId := nextCompanyId + 1;
    }

    /** Adds `rec` under the next order id. */
    method StoreOrder(rec: OrderRecord) returns (id: OrderId)
      requires Valid() && rec.user in profiles
      modifies this
      ensures Valid()
      ensures id == old(nextOrderId) && id !in old(orders) && nextOrderId == id + 1
      ensures orders == old(orders)[id := rec]
      ensures forall u :: u in usages ==> u.order != id
      ensures profiles == old(profiles) && budgets == old(budgets) && companies == old(companies)
      ensures wallets == old(wallets) && configs == old(configs) && transactions == old(transactions)
      ensures codes == old(codes) && usages == old(usages) && nextCompanyId == old(nextCompanyId)
    {
      id := nextOrderId;
      orders := orders[id := rec];
      nextOrderId := nextOrderId + 1;
    }

    /** Records that order `id` of `user` used code `k`, and counts the use on the code. */
    method AttachCoupon(k: nat, user: UserId, id: OrderId)
      requires Valid() && k < |codes| && id in orders
      requires forall u :: u in usages ==> u.order != id
      modifies this
      ensures Valid()
      ensures usages == old(usages) + [Usage(k, user, id)]
      ensures codes == old(codes)[k := old(codes)[k].(usageCount := old(codes)[k].usageCount + 1)]
      ensures profiles == old(profiles) && budgets == old(budgets) && companies == old(companies)
      ensures wallets == old(wallets) && configs == old(configs) && transactions == old(transactions)
      ensures orders == old(orders) && nextOrderId == old(nextOrderId) && nextCompanyId == old(nextCompanyId)
    {
      usages := usages + [Usage(k, user, id)];
      codes := codes[k := codes[k].(usageCount := codes[k].usageCount + 1)];
    }

    /** Takes `amount` from the budget of `user` and logs the deduction when the company has a wallet. */
    method Settle(user: UserId, companyId: CompanyId, amount: real)
      requires Valid() && user in profiles && profiles[user].company == Some(companyId)
      modifies this
      ensures Valid()
      ensures budgets == old(budgets)[user := old(budgets)[user] - amount]
      ensures companyId in wallets ==>
                transactions == old(transactions) + [Transaction(companyId, Some(user), OrderDeduction, -amount)]
      ensures companyId !in wallets ==> transactions == old(transactions)
      ensures profiles == old(profiles) && companies == old(companies) && wallets == old(wallets)
      ensures configs == old(configs) && codes == old(codes) && usages == old(usages) && orders == old(orders)
      ensures nextOrderId == old(nextOrderId) && nextCompanyId == old(nextCompanyId)
    {
      budgets := budgets[user := budgets[user] - amount];
      if companyId in wallets {
        transactions := transactions + [Transaction(companyId, Some(user), OrderDeduction, -amount)];
      }
    }

    /**
     * The writes of a successful order creation: the order row, the usage row and count of an
     * attached coupon, and for a charged user the deduction from the budget and its ledger row.
     */
    method Place(rec: OrderRecord, lookup: CouponLookup, charge: bool) returns (id: OrderId)
      requires Valid() && rec.user in profiles
      requires lookup.Attach? ==> lookup.index < |codes|
      requires charge ==> profiles[rec.user].company.Some?
      modifies this
      ensures Valid()
      ensures profiles == old(profiles) && companies == old(companies) && wallets == old(wallets)
      ensures id == old(nextOrderId) && id !in old(orders) && orders == old(orders)[id := rec]
      ensures lookup.Attach? ==>
                usages == old(usages) + [Usage(lookup.index, rec.user, id)] &&
                codes == old(codes)[lookup.index := old(codes)[lookup.index].(usageCount := old(codes)[lookup.index].usageCount + 1)]
      ensures !lookup.Attach? ==> usages == old(usages) && codes == old(codes)
      ensures charge ==> budgets == old(budgets)[rec.user := old(budgets)[rec.user] - rec.prices.finalPrice]
      ensures !charge ==> budgets == old(budgets) && transactions == old(transactions)
      ensures charge && profiles[rec.user].company.value in wallets ==>
                transactions == old(transactions) + [Transaction(profiles[rec.user].company.value, Some(rec.user), OrderDeduction, -rec.prices.finalPrice)]
      ensures charge && profiles[rec.user].company.value !in wallets ==> transactions == old(transactions)
    {
      id := StoreOrder(rec);
      if lookup.Attach? {
        AttachCoupon(lookup.index, rec.user, id);
      }
      if charge {
        Settle(rec.user, profiles[rec.user].company.value, rec.prices.finalPrice);
      }
    }

    /**
     * `OrderViewSet.perform_create`: stores the order; attaches an active coupon matching `code`
     * (one usage row, usage count plus one); prices the order; and, for a company paying online,
     * takes the final price from the user's budget and logs an ORDER_DEDUCTION against the
     * company wallet. A budget below the final price, or a coupon string matching several active
     * codes, fails the whole request.
     */
    method PerformCreate(user: UserId, menuDate: int, food: Option<MenuItem>, sides: seq<MenuItem>,
                         quantity: nat, code: Option<string>)
      returns (r: Result<OrderId, Outcome>)
      requires Valid() && user in profiles && quantity >= 1
      modifies this
      ensures Valid()
      ensures r.Err? ==> unchanged(this)
      ensures r.Err? ==> r.error == ServerError || r.error == InsufficientFunds
      ensures r == Err(ServerError) <==> FindActiveCode(old(codes), code).Ambiguous?
      ensures profiles == old(profiles) && companies == old(companies) && wallets == old(wallets)
      ensures r == Err(InsufficientFunds) <==>
                !FindActiveCode(old(codes), code).Ambiguous? && old(Charged(user)) &&
                old(budgets)[user] < NewOrderPrices(food, sides, quantity, old(CompanyOf(user)), AppliedCoupon(old(codes), code)).finalPrice
      ensures r.Ok? ==> r.value == old(nextOrderId) && r.value !in old(orders)
      ensures r.Ok? ==>
                orders == old(orders)[r.value := OrderRecord(user, Some(menuDate), food, sides, quantity, DefaultStatus,
                                       NewOrderPrices(food, sides, quantity, old(CompanyOf(user)), AppliedCoupon(old(codes), code)))]
      ensures r.Ok? ==>
                var lookup := FindActiveCode(old(codes), code);
                && (lookup.Attach? ==>
                      usages == old(usages) + [Usage(lookup.index, user, r.value)] &&
                      codes == old(codes)[lookup.index := old(codes)[lookup.index].(usageCount := old(codes)[lookup.index].usageCount + 1)])
                && (!lookup.Attach? ==> usages == old(usages) && codes == old(codes))
      ensures r.Ok? ==>
                var p := NewOrderPrices(food, sides, quantity, old(CompanyOf(user)), AppliedCoupon(old(codes), code));
                && (old(Charged(user)) ==> budgets == old(budgets)[user := old(budgets)[user] - p.finalPrice] && budgets[user] >= 0.0)
                && (!old(Charged(user)) ==> budgets == old(budgets) && transactions == old(transactions))
                && (old(Charged(user)) && profiles[user].company.value in wallets ==>
                      transactions == old(transactions) + [Transaction(profiles[user].company.value, Some(user), OrderDeduction, -p.finalPrice)])
                && (old(Charged(user)) && profiles[user].company.value !in wallets ==> transactions == old(transactions))
    {
      var company := CompanyOf(user);
      var lookup := FindActiveCode(codes, code);
      if lookup.Ambiguous? {
        return Err(ServerError);
      }
      var prices := PriceOrder(food, sides, quantity, company, AppliedCoupon(codes, code));
      var charge := Charged(user);
      if charge && budgets[user] < prices.finalPrice {
        return Err(InsufficientFunds);
      }
      var id := Place(OrderRecord(user, Some(menuDate), food, sides, quantity, DefaultStatus, prices), lookup, charge);
      r := Ok(id);
    }

    /** The order is visible to `user` (the view only looks among the user's own orders). */
    predicate OwnOrder(user: UserId, id: OrderId)
      reads this
    {
      id in orders && orders[id].user == user
    }

    /**
     * `OrderViewSet.perform_update`, behind the object lookup and `CanModifyOrder`: the order's
     * composition changes, its prices are not recalculated, and no budget, ledger row or coupon count moves.
     */
    method PerformUpdate(user: UserId, id: OrderId, m: Permissions.HttpMethod, today: int, edit: OrderEdit)
      returns (r: Outcome)
      requires Valid() && user in profiles && !Permissions.IsSafe(m)
      requires edit.quantity.Some? ==> edit.quantity.value >= 1
      modifies this
      ensures Valid()
      ensures r != Success ==> unchanged(this)
      ensures r == NotFound <==> !old(OwnOrder(user, id))
      ensures old(OwnOrder(user, id)) ==>
                (r == Success <==> Permissions.CanModifyOrder(m, old(orders)[id].menuDate, today, Permissions.ReservationLeadDays) == Permissions.Allow)
      ensures r == Success ==> orders == old(orders)[id := ApplyEdit(old(orders)[id], edit)]
      ensures budgets == old(budgets) && wallets == old(wallets) && transactions == old(transactions)
      ensures codes == old(codes) && usages == old(usages) && profiles == old(profiles)
    {
      if !OwnOrder(user, id) {
        return NotFound;
      }
      var decision := Permissions.CanModifyOrder(m, orders[id].menuDate, today, Permissions.ReservationLeadDays);
      if decision == Permissions.Deny {
        return Forbidden;
      } else if decision != Permissions.Allow {
        return ServerError;
      }
      orders := orders[id := ApplyEdit(orders[id], edit)];
      r := Success;
    }

    /**
     * `OrderViewSet.perform_destroy`, behind the object lookup and `CanModifyOrder`: the order and
     * (by cascade) its usage row go; budgets, ledger and coupon counts stay as they are.
     */
    method PerformDestroy(user: UserId, id: OrderId, today: int) returns (r: Outcome)
      requires Valid() && user in profiles
      modifies this
      ensures Valid()
      ensures r != Success ==> unchanged(this)
      ensures r == NotFound <==> !old(OwnOrder(user, id))
      ensures old(OwnOrder(user, id)) ==>
                (r == Success <==> Permissions.CanModifyOrder(Permissions.Delete, old(orders)[id].menuDate, today, Permissions.ReservationLeadDays) == Permissions.Allow)
      ensures r == Success ==> orders == old(orders) - {id} && usages == WithoutOrder(old(usages), id)
      ensures budgets == old(budgets) && wallets == old(wallets) && transactions == old(transactions)
      ensures codes == old(codes) && profiles == old(profiles)
    {
      if !OwnOrder(user, id) {
        return NotFound;
      }
      var decision := Permissions.CanModifyOrder(Permissions.Delete, orders[id].menuDate, today, Permissions.ReservationLeadDays);
      if decision == Permissions.Deny {
        return Forbidden;
      } else if decision != Permissions.Allow {
        return ServerError;
      }
      orders := orders - {id};
      usages := WithoutOrder(usages, id);
      r := Success;
    }

    /** The company of the requesting user, whose wallet the admin requests use. */
    function AdminCompany(caller: Option<UserId>): Option<CompanyId>
      reads this
    {
      if caller.Some? && caller.value in profiles then profiles[caller.value].company else None
    }

    /** The permission outcome of a budget request by `caller` about `target`. */
    function BudgetPermission(caller: Option<UserId>, target: UserId): Permissions.Decision
      reads this
    {
      Permissions.IsCompanyAdminOfTargetUser(CallerOf(caller), Some(target), UserCompanies())
    }

    /**
     * `AllocateBudgetView.post`: a company admin moves `amount` from the company wallet to the
     * budget of an employee of the same company and logs a BUDGET_ALLOCATION of `-amount`.
     */
    method AllocateBudget(caller: Option<UserId>, target: UserId, amount: real) returns (r: Outcome)
      requires Valid()
      modifies this
      ensures Valid()
      ensures r != Success ==> unchanged(this)
      ensures r == Forbidden <==> old(BudgetPermission(caller, target)) == Permissions.Deny
      ensures r == Success <==>
                && old(BudgetPermission(caller, target)) == Permissions.Allow
                && AdminCompany(caller).Some? && AdminCompany(caller).value in old(wallets)
                && ValidAmount(amount) && old(wallets)[AdminCompany(caller).value] >= amount
      ensures r == Success ==>
                var c := AdminCompany(caller).value;
                && wallets == old(wallets)[c := old(wallets)[c] - amount]
                && budgets == old(budgets)[target := old(budgets)[target] + amount]
                && wallets[c] + budgets[target] == old(wallets)[c] + old(budgets)[target]
                && wallets[c] >= 0.0
                && transactions == old(transactions) + [Transaction(c, caller, BudgetAllocation, -amount)]
      ensures profiles == old(profiles) && orders == old(orders) && codes == old(codes) && usages == old(usages)
    {
      var decision := BudgetPermission(caller, target);
      if decision == Permissions.Deny {
        return Forbidden;
      } else if decision != Permissions.Allow {
        return NotFound;
      }
      var companyId := profiles[caller.value].company;
      if companyId.None? || companyId.value !in wallets {
        return NotFound;
      }
      if !ValidAmount(amount) {
        return BadRequest;
      }
      var c := companyId.value;
      if wallets[c] < amount {
        return InsufficientFunds;
      }
      wallets := wallets[c := wallets[c] - amount];
      budgets := budgets[target := budgets[target] + amount];
      transactions := transactions + [Transaction(c, caller, BudgetAllocation, -amount)];
      r := Success;
    }

    /**
     * `ReclaimBudgetView.post`: a company admin moves `amount` from an employee's budget back to
     * the company wallet and logs a REFUND of `+amount`.
     */
    method ReclaimBudget(caller: Option<UserId>, target: UserId, amount: real) returns (r: Outcome)
      requires Valid()
      modifies this
      ensures Valid()
      ensures r != Success ==> unchanged(this)
      ensures r == Forbidden <==> old(BudgetPermission(caller, target)) == Permissions.Deny
      ensures r == Success <==>
                && old(BudgetPermission(caller, target)) == Permissions.Allow
                && AdminCompany(caller).Some? && AdminCompany(caller).value in old(wallets)
                && ValidAmount(amount) && old(budgets)[target] >= amount
      ensures r == Success ==>
                var c := AdminCompany(caller).value;
                && wallets == old(wallets)[c := old(wallets)[c] + amount]
                && budgets == old(budgets)[target := old(budgets)[target] - amount]
                && wallets[c] + budgets[target] == old(wallets)[c] + old(budgets)[target]
                && budgets[target] >= 0.0
                && transactions == old(transactions) + [Transaction(c, caller, Refund, amount)]
      ensures profiles == old(profiles) && orders == old(orders) && codes == old(codes) && usages == old(usages)
    {
      var decision := BudgetPermission(caller, target);
      if decision == Permissions.Deny {
        return Forbidden;
      } else if decision != Permissions.Allow {
        return NotFound;
      }
      var companyId := profiles[caller.value].company;
      if companyId.None? || companyId.value !in wallets {
        return NotFound;
      }
      if !ValidAmount(amount) {
        return BadRequest;
      }
      var c := companyId.value;
      if budgets[target] < amount {
        return InsufficientFunds;
      }
      budgets := budgets[target := budgets[target] - amount];
      wallets := wallets[c := wallets[c] + amount];
      transactions := transactions + [Transaction(c, caller, Refund, amount)];
      r := Success;
    }

    /**
     * `WalletDepositView.post`: a super admin adds `amount` to a company's wallet; the DEPOSIT
     * row names no user.
     */
    method WalletDeposit(caller: Option<UserId>, companyId: CompanyId, amount: real) returns (r: Outcome)
      requires Valid()
      modifies this
      ensures Valid()
      ensures r != Success ==> unchanged(this)
      ensures r == Forbidden <==> !Permissions.IsSuperAdmin(old(CallerOf(caller)))
      ensures r == Success <==>
                Permissions.IsSuperAdmin(old(CallerOf(caller))) && companyId in old(wallets) && ValidAmount(amount)
      ensures r == Success ==>
                && wallets == old(wallets)[companyId := old(wallets)[companyId] + amount]
                && wallets[companyId] > old(wallets)[companyId]
                && transactions == old(transactions) + [Transaction(companyId, None, Deposit, amount)]
      ensures budgets == old(budgets) && profiles == old(profiles) && orders == old(orders)
    {
      if !Permissions.IsSuperAdmin(CallerOf(caller)) {
        return Forbidden;
      }
      if companyId !in companies || companyId !in wallets {
        return NotFound;
      }
      if !ValidAmount(amount) {
        return BadRequest;
      }
      wallets := wallets[companyId := wallets[companyId] + amount];
      transactions := transactions + [Transaction(companyId, None, Deposit, amount)];
      r := Success;
    }

    /**
     * `CompanyWalletDepositView.post`: a company admin adds `amount` to the wallet of their own
     * company; the DEPOSIT row names the admin.
     */
    method CompanyWalletDeposit(caller: Option<UserId>, amount: real) returns (r: Outcome)
      requires Valid()
      modifies this
      ensures Valid()
      ensures r != Success ==> unchanged(this)
      ensures r == Forbidden <==> !Permissions.IsCompanyAdmin(old(CallerOf(caller)))
      ensures r == Success <==>
                && Permissions.IsCompanyAdmin(old(CallerOf(caller)))
                && AdminCompany(caller).Some? && AdminCompany(caller).value in old(wallets)
                && ValidAmount(amount)
      ensures r == Success ==>
                var c := AdminCompany(caller).value;
                && wallets == old(wallets)[c := old(wallets)[c] + amount]
                && wallets[c] > old(wallets)[c]
                && transactions == old(transactions) + [Transaction(c, caller, Deposit, amount)]
      ensures budgets == old(budgets) && profiles == old(profiles) && orders == old(orders)
    {
      if !Permissions.IsCompanyAdmin(CallerOf(caller)) {
        return Forbidden;
      }
      var companyId := profiles[caller.value].company;
      if companyId.None? || companyId.value !in wallets {
        return NotFound;
      }
      if !ValidAmount(amount) {
        return BadRequest;
      }
      var c := companyId.value;
      wallets := wallets[c := wallets[c] + amount];
      transactions := transactions + [Transaction(c, caller, Deposit, amount)];
      r := Success;
    }
  }

  /** Allocating an amount and reclaiming it again restores the wallet and the budget. */
  method AllocateThenReclaim(a: Accounts, caller: Option<UserId>, target: UserId, amount: real)
    returns (first: Outcome, second: Outcome)
    requires a.Valid() && target in a.budgets && a.budgets[target] >= 0.0
    modifies a
    ensures a.Valid()
    ensures first == Success ==> second == Success && a.wallets == old(a.wallets) && a.budgets == old(a.budgets)
  {
    first := a.AllocateBudget(caller, target, amount);
    if first != Success {
      second := first;
      return;
    }
    second := a.ReclaimBudget(caller, target, amount);
  }
}
