# Corporate meal ordering: a Dafny model of its core

This project models the core of a Django back end for a corporate catering service. Client
companies have employees who order a daily meal from a menu schedule. A company pays either online
or by invoice. An online-paying company funds a wallet, and its admins hand that money out to
employees as meal budgets. An order takes its price from the company's pricing policy and from an
optional coupon code. It is settled against the employee's budget and logged in the wallet's
transaction ledger.

The model covers:

- **Pricing.** The company pricing policy that turns a menu price into what an employee pays. The
  promotional price the menu shows. The coupon amount. The four price fields an order stores.
- **Money movement.** Order creation with settlement, order update and cancellation, budget
  allocation and reclaim, and wallet deposits. These are written as methods of one `Accounts`
  object that owns the budgets, wallets, ledger, coupon usage rows and orders. A failed request
  leaves the state unchanged.
- **Menus.** The daily-menu table. The batch save that creates, updates and deletes daily menus.
  The custom-schedule handler that builds that batch for a company. The choice of the schedules a
  user sees.
- **Checks.** The permission checks and the reservation lead time. Coupon validation and the coupon
  listing. The schedule, daily-menu, contract and survey validations.
- **Reports.** The daily and weekly order summaries of the admin reports.

Money is an exact `real`. Dates are whole day numbers, with day 0 = 1970-01-01. Timestamps are
integers. Python's two rounding modes are kept apart: `Decimals.RoundHalfEven` stands for
`quantize(Decimal('1'))` and `Decimals.RoundHalfUp` stands for `ROUND_HALF_UP`. The base and policy
totals' multiplication by the quantity is written as `OrderPricing.Times`, an n-fold sum, and
`OrderPricing.TimesIsProduct` proves it equal to the product. Rows the code
mutates in place are fields of the classes `Ledger.Accounts`, `MenuStore.Catalog` and
`OrderPricing.Order`. Each state-changing method is proved against a specification function, or
against the exact new state. Lemmas about those functions state the promised properties.

Modules:

| file | module | models |
|---|---|---|
| wrappers.dfy | Wrappers | `Option` / `Result` |
| decimals.dfy | Decimals | the rounding modes, two-decimal amounts |
| companies.dfy | Companies | the company record and its choices |
| users.dfy | Users | roles, profiles, the requesting user |
| company_pricing.dfy | CompanyPricing | `_apply_company_pricing`, date validation, the menu price listing |
| menu_pricing.dfy | MenuPricing | the promotional price of a food item |
| discounts.dfy | Discounts | coupon codes, their amount, usage rows |
| coupon_views.dfy | CouponViews | coupon validation and listing endpoints |
| order_pricing.dfy | OrderPricing | an order's price fields and their recalculation |
| permissions.dfy | Permissions | the permission classes |
| ledger.dfy | Ledger | orders, budgets, wallets and the transaction log |
| schedules.dfy | Schedules | schedules, daily menus and their checks |
| menu_store.dfy | MenuStore | batch save of daily menus and the custom-schedule handler |
| schedule_selection.dfy | ScheduleSelection | the schedules a user's listing shows |
| contracts.dfy | Contracts | contract status and date check |
| surveys.dfy | Surveys | the survey's order check |
| tallies.dfy | Tallies | counter dicts (`defaultdict(int)`) and sorting, used by the reports |
| reports.dfy | Reports | the daily and weekly order summaries |

## Model

| member | source | states |
|---|---|---|
| Companies.DefaultCompany | companies/models.py:49-92 | a new company has FLUID calculation, a zero average price, ONLINE payment, no discount and no rounding |
| Decimals.RoundHalfEven | schedules/serializers.py:43 | the result lies within 0.5 of the input, and an exact tie goes to the even integer |
| Decimals.RoundHalfUp | schedules/serializers.py:40 | the result lies within 0.5 of the input, and a tie goes away from zero |
| Decimals.RoundHalfEvenOfInteger | schedules/serializers.py:43 | quantising a whole number leaves it unchanged |
| CompanyPricing.RoundToThousand | schedules/serializers.py:39-40 | the result is a multiple of 1000 within 500 of the input |
| CompanyPricing.DiscountedBase | schedules/serializers.py:23-29 | FIXED gives max(0, base - value), PERCENTAGE gives base·(1 - value/100), and otherwise the base is kept |
| CompanyPricing.ApplyCompanyPricing | schedules/serializers.py:10-43 | without a company the price is only quantised; with one, the average or item base passes the discount step, then the 1000-rounding when it applies, then quantisation |
| CompanyPricing.PriceWithoutDiscount | schedules/serializers.py:15-20 | without an applicable discount or rounding, the price is the quantised base |
| CompanyPricing.FixedDiscountPrice | schedules/serializers.py:25-26 | a FIXED discount never makes the price negative |
| CompanyPricing.PercentageDiscountPrice | schedules/serializers.py:27-29 | an unrounded PERCENTAGE discount multiplies the base by 1 - value/100 |
| CompanyPricing.AveragePriceIgnoresItemPrice | schedules/serializers.py:15-16 | in AVERAGE mode with a positive average, any two item prices give the same result |
| CompanyPricing.RoundingTierIsIgnored | schedules/serializers.py:32-40 | HUNDRED, FIVE_HUNDRED and THOUSAND give the same price |
| CompanyPricing.ZeroPercentStillRounds | schedules/serializers.py:32 | a zero percentage with a rounding tier still rounds to 1000 |
| CompanyPricing.ThousandRoundingTiesGoUp | schedules/serializers.py:40 | ties at 1500 and 2500 round up to 2000 and 3000 |
| CompanyPricing.PercentageIsNotClamped | schedules/serializers.py:27-29 | a 150 % discount makes the price negative |
| CompanyPricing.ValidateDate | schedules/serializers.py:50-54 | the date is refused exactly when a schedule is given and the date is outside its inclusive range |
| CompanyPricing.GetAvailableFoods | schedules/serializers.py:64-87 | one entry per food, holding the reference price and the price under the pricing company's policy |
| MenuPricing.FirstActiveIndex | menu/serializers.py:58-66 | the first discount in its window, or none when no discount is in its window |
| MenuPricing.ActiveDiscount | menu/serializers.py:58-66 | the discount found is linked to the item, active now, and the first such one in ascending id order; none iff no linked discount is active |
| MenuPricing.ItemDiscountAmount | menu/serializers.py:77-79 | the percentage of the price, or min(percentage of the price, cap) when the cap is set and non-zero |
| MenuPricing.DiscountedPrice | menu/serializers.py:72-81 | the item price less the active discount's amount, or the price itself without one |
| MenuPricing.DiscountPercentage | menu/serializers.py:68-70 | the percentage of the very discount `ActiveDiscount` selects (the one `DiscountedPrice` subtracts); none iff no linked discount is active |
| MenuPricing.DiscountedPriceAtMostPrice | menu/serializers.py:72-81 | with non-negative inputs the promotion never raises the price |
| MenuPricing.DiscountedPriceNonNegative | menu/serializers.py:72-81 | with a percentage of at most 100, the promotional price is not negative |
| MenuPricing.ValidPromotionBounds | discounts/models.py:63-67 | a discount passing the field validators keeps the price between 0 and the item price |
| Discounts.CalculateDiscountAmount | discounts/models.py:36-47 | min(price, raw amount) without a set non-zero cap, and min(price, raw amount, cap) with one; so never above the price or the cap, and non-negative for non-negative inputs |
| Discounts.PercentageOffAmount | discounts/models.py:36-47 | without a set cap, a PERCENTAGE coupon takes price·value/100, cut to the price |
| Discounts.OneUsagePerOrderGivesUniqueTriples | discounts/models.py:52-59 | the one-to-one order link already makes (code, user, order) unique |
| Discounts.UsageCount | discounts/views.py:36-38 | zero iff the user has no usage row for the code |
| CouponViews.Lower | discounts/views.py:24 | ASCII upper-case letters are lowered and every other character is kept |
| CouponViews.Matching | discounts/views.py:24 | exactly the positions of the codes equal to the string ignoring case, in increasing order |
| CouponViews.CheckCode | discounts/views.py:27-38 | the first failing check in the order active, started, expired, global cap, per-user cap; valid iff none fails |
| CouponViews.ValidateCode | discounts/views.py:18-48 | a missing code gives 400; no match gives the not-found answer; several matches fail with 500; exactly one match answers with the `CheckCode` verdict of that code, so the answer is valid iff it passes every check |
| CouponViews.NoGlobalLimitMeansUnlimited | discounts/views.py:33-35 | a code without a global limit is never refused for its usage count |
| CouponViews.ActiveCodes | discounts/views.py:60 | exactly the codes that are switched on and not yet ended |
| CouponViews.ArchivedCodes | discounts/views.py:61 | exactly the codes the active list leaves out |
| CouponViews.ActiveArchivedPartition | discounts/views.py:60-61 | the two lists together hold every code exactly once |
| CouponViews.OpenEndedCodesAreArchived | discounts/views.py:60 | a code without an end date is archived even when switched on |
| CouponViews.ListCodes | discounts/views.py:56-66 | with `archived=true` exactly the codes not listed as active, otherwise exactly the active ones |
| OrderPricing.NeutralPolicySum | schedules/serializers.py:15-20 | a company policy that changes nothing leaves whole side prices as they are |
| OrderPricing.TimesIsProduct | orders/models.py:41-49 | the n-fold sum of a unit price, which the base total and the policy total use, is the unit price times the quantity |
| OrderPricing.NeutralPolicyUnitPrice | schedules/serializers.py:15-20 | under a company policy that changes no price, the policy prices of one portion with whole prices add up to its reference prices |
| OrderPricing.NeutralPolicyTotal | orders/models.py:44-49 | under a company policy that changes no price, with whole prices, the total after the policy equals the total without a company, which is the base total |
| OrderPricing.Prices | orders/models.py:33-59 | base = (food + sides)·quantity, as `Times` (`TimesIsProduct`); final = base - company discount - coupon discount; no company gives no company discount; the coupon never takes more than the policy total |
| OrderPricing.PricesOf | orders/models.py:44-58 | the stored fields follow from the policy total and the coupon amount on it |
| OrderPricing.CompanyDiscountCanBeNegative | orders/models.py:44-49 | an average price above the item price makes the company discount negative |
| OrderPricing.Order.constructor | orders/models.py:23-28 | a new order has status PLACED and zero price fields |
| OrderPricing.Order.PolicyTotal | orders/models.py:44-49 | the price after the company policy (`PriceAfterCompany`): the base total without a company, and also under a company policy that changes no price when all prices are whole; otherwise the policy prices of one portion times the quantity |
| OrderPricing.Order.CouponAmount | orders/models.py:53-56 | zero without a coupon; with one, at most the policy total and at most a set cap, and non-negative for non-negative inputs |
| OrderPricing.Order.CalculateAndSavePrices | orders/models.py:33-59 | an order with a food item stores `Prices` of its composition, and one without keeps its fields; only the price fields change; recalculating current prices changes nothing |
| OrderPricing.RecalculateTwice | orders/models.py:33-59 | after two recalculations the stored prices are `Prices` of the order's composition (or unchanged without a food item), the same as after one |
| Permissions.IsAdmin | core/permissions.py:23-28 | exactly the super admins and the company admins |
| Permissions.IsSuperAdminOrReadOnly | core/permissions.py:39-47 | any signed-in user may read, and only super admins may write |
| Permissions.CanManageUsers | core/permissions.py:56-57 | exactly the admin roles |
| Permissions.CanManageUser | core/permissions.py:59-69 | super admins manage anyone, and company admins manage exactly the users of their own company |
| Permissions.IsCompanyAdminOfTargetUser | core/permissions.py:77-90 | allowed iff a company admin names an existing user of the same company; an unknown user is not found |
| Permissions.CanModifyOrder | core/permissions.py:100-108 | reads pass; a write needs the lead time before the delivery date; an order without a menu raises |
| Permissions.CanModifyOrderMonotone | core/permissions.py:100-108 | a later delivery date is never refused when an earlier one passes |
| Permissions.DeployedLeadTime | core/settings.py:191 | with the deployed lead time, tomorrow's order can be changed and today's cannot |
| Ledger.ApplyEdit | orders/views.py:95-98 | each given field (menu date, food, sides, quantity) replaces the old one and each absent field is kept; price fields, owner and status never change |
| Ledger.ValidAmountIsPositive | wallets/serializers.py:10-14 | an accepted amount is positive |
| Ledger.FindActiveCode | orders/views.py:52-66 | no coupon when the string is empty or no active code matches it; the attached code iff exactly one active code matches, and it is that code; ambiguous iff several match |
| Ledger.NewOrderPrices | orders/models.py:33-59 | zero prices without a food item, and final = base - discounts |
| Ledger.WithoutOrder | discounts/models.py:55 | the cascade removes exactly the usage rows of the order and keeps one row per order |
| Ledger.PriceOrder | orders/views.py:70 | the priced order stores `NewOrderPrices` |
| Ledger.Accounts.constructor | wallets/models.py:18-23 | an empty, consistent store |
| Ledger.Accounts.CreateCompany | wallets/signals.py:7-13 | a new company gets a zero-balance wallet and a configuration row, and nothing else changes |
| Ledger.Accounts.StoreOrder | orders/views.py:47-70 | the order is added under a fresh id with no usage row |
| Ledger.Accounts.AttachCoupon | orders/views.py:52-66 | one usage row is added and the code's usage count grows by one |
| Ledger.Accounts.Settle | orders/views.py:73-93 | the budget drops by the amount, with an ORDER_DEDUCTION row when the company has a wallet |
| Ledger.Accounts.Place | orders/views.py:47-93 | the writes of a successful creation: the order row, the coupon usage, and for a charged user the budget and ledger row |
| Ledger.Accounts.PerformCreate | orders/views.py:36-93 | on failure nothing changes; it fails with a server error iff several active codes match, and for lack of funds iff an online-company member's budget is below the final price; on success the order is stored with its prices, the coupon use is counted, and a charged budget drops by the final price, with a deduction row iff the company has a wallet |
| Ledger.Accounts.PerformUpdate | orders/views.py:95-98 | only an owner's order within the lead time is edited; prices, budgets, ledger and coupons stay |
| Ledger.Accounts.PerformDestroy | orders/views.py:100-103 | the order and its usage row go; budgets, ledger and coupon counts stay |
| Ledger.Accounts.AllocateBudget | users/views_admin.py:22-48 | success iff permitted, the wallet exists, the amount is valid and covered; then the amount moves from wallet to budget, the sum is kept, and a BUDGET_ALLOCATION of -amount is logged; otherwise nothing changes |
| Ledger.Accounts.ReclaimBudget | users/views_admin.py:59-85 | success iff permitted, the wallet exists, the amount is valid and within the budget; then the amount moves back, the sum is kept, and a REFUND is logged |
| Ledger.Accounts.WalletDeposit | wallets/views.py:37-61 | only super admins deposit; the wallet grows by the amount and a DEPOSIT without a user is logged |
| Ledger.Accounts.CompanyWalletDeposit | wallets/views.py:71-97 | only company admins deposit, into their own company's wallet, and a DEPOSIT naming them is logged |
| Ledger.AllocateThenReclaim | users/views_admin.py:34-75 | allocating then reclaiming the same amount restores the wallet and the budget |
| Schedules.CleanSchedule | schedules/models.py:20-23 | refused iff the start is after the end |
| Schedules.CleanDailyMenu | schedules/models.py:55-61 | accepted iff the date lies in the schedule's inclusive range |
| Schedules.RangeEndsAccepted | schedules/models.py:55-61 | both ends of a valid schedule are accepted dates |
| Schedules.InvertedScheduleAcceptsNoMenu | schedules/models.py:55-61 | a schedule with start after end accepts no daily menu |
| MenuStore.ApplyItemSkips | menu/services.py:13-14 | an item without a payload, or without foods and without an id, changes nothing |
| MenuStore.ApplyItemDeletes | menu/services.py:21-23 | empty foods with an id delete that row only when it belongs to the schedule |
| MenuStore.ApplyItemStoresSelection | menu/services.py:26-34 | a successful upsert leaves exactly one row of the schedule on the date, holding the selection |
| MenuStore.ApplyItemKeepsUnique | schedules/models.py:50-52 | every write keeps the (schedule, date) constraint |
| MenuStore.ApplyItemKeepsOtherSchedules | menu/services.py:21-34 | rows of other schedules are not touched |
| MenuStore.ApplyItemKeepsConsistent | menu/services.py:21-34 | rows keep pointing at existing schedules, and the constraint holds |
| MenuStore.ApplyBatchKeepsConsistent | menu/services.py:9-34 | the whole batch keeps the table consistent, even when it stops early |
| MenuStore.ApplyBatchKeepsOtherSchedules | menu/services.py:9-34 | the whole batch leaves other schedules' rows alone |
| MenuStore.ApplyBatchAppend | menu/services.py:9 | items apply in list order, one after the other |
| MenuStore.BatchStopsAtFailure | menu/services.py:27-32 | after an integrity error no later item runs |
| MenuStore.SomeValues | companies/views.py:44 | keeps exactly the non-null food ids |
| MenuStore.ExistingMenusByDate | companies/views.py:41 | maps each date of the schedule's menus to the one row on that date |
| MenuStore.PayloadItemsTarget | companies/views.py:43-57 | each item carries the date's selection and the id of the existing menu of that date, if any |
| MenuStore.PayloadItemsUpdateExisting | companies/views.py:53-55 | an item for a date with a menu targets exactly that row |
| MenuStore.UpsertedSchedule | companies/views.py:25-33 | the schedule belongs to the company, is active and spans the requested dates |
| MenuStore.Catalog.constructor | schedules/models.py:32-53 | an empty, consistent menu store |
| MenuStore.Catalog.UpdateOrCreate | menu/services.py:27-32 | a row matching id, schedule and date is found unchanged; otherwise an empty row is inserted, or an integrity error is reported |
| MenuStore.Catalog.SetSelection | menu/services.py:33-34 | the row's foods and sides become the given sets |
| MenuStore.Catalog.SaveItem | menu/services.py:10-34 | the table after one item is `ApplyItem` of the old table |
| MenuStore.Catalog.BatchSaveDailyMenus | menu/services.py:5-34 | the table after the batch is `ApplyBatch` of the old table |
| MenuStore.Catalog.BuildPayloadItems | companies/views.py:40-57 | builds exactly `PayloadItems` of the menu state |
| MenuStore.Catalog.HandleCustomSchedule | companies/views.py:17-61 | no-op without a schedule or menu state; several owned schedules raise with nothing changed; otherwise the schedule is upserted, activated, and the batch is applied to its menus |
| ScheduleSelection.FirstDefaultFrom | schedules/views_user.py:29 | the lowest active default schedule id in the range, or none |
| ScheduleSelection.FirstDefault | schedules/views_user.py:29 | the lowest-id active schedule without a company; none iff there is none |
| ScheduleSelection.VisibleSchedules | schedules/views_user.py:11-40 | super admins see every schedule; others see their company's active schedule, else the first default, else nothing |
| ScheduleSelection.CompanyScheduleShownWhenInactive | schedules/views_user.py:22-25 | the company's schedule is shown even when switched off |
| Contracts.NewContract | contracts/models.py:23-27 | a new contract is PENDING |
| Contracts.ValidateContract | contracts/serializers.py:23-33 | accepted iff a date is missing or start ≤ end |
| Contracts.CleanContract | contracts/models.py:35-40 | refused iff both dates are present and the end is before the start |
| Contracts.ValidateAgreesWithClean | contracts/serializers.py:23-33 | the serializer and the model accept the same contracts |
| Surveys.ValidateOrder | surveys/serializers.py:16-33 | accepted iff the order is the user's own, DELIVERED and not yet surveyed; each refusal names the first failing check |
| Tallies.Bump | orders/views_admin.py:207 | `+= 1` on a counter dict raises one key's count by one, and a new key goes last |
| Tallies.BumpAll | orders/views_admin.py:209-210 | counting a list adds each element's occurrences |
| Tallies.TallyEach | orders/views_admin.py:209-210 | the counting loop computes `BumpAll` |
| Tallies.SortBy | orders/views_admin.py:227 | the result is sorted and a permutation of the input |
| Reports.CompanyCount | orders/views_admin.py:189-212 | a company with a count appears in the summary |
| Reports.CompanyStatuses | orders/views_admin.py:212 | a company not in the summary has no statuses |
| Reports.GroupsOfCompanies | orders/views_admin.py:201-212 | the groups are exactly the companies of the day, each once |
| Reports.GroupsOfCounts | orders/views_admin.py:203-210 | every group counts each name as often as the company ordered it |
| Reports.GroupsOfStatuses | orders/views_admin.py:212 | every group holds the statuses of the company's orders |
| Reports.GroupByCompany | orders/views_admin.py:201-212 | the loop computes the groups and their first-seen order |
| Reports.Summaries | orders/views_admin.py:214-222 | one entry per company, in the dict's order |
| Reports.SummarizeGroups | orders/views_admin.py:214-222 | the loop computes `Summaries` |
| Reports.NameLeTotal | orders/views_admin.py:227 | the name order is total |
| Reports.SummariesDistinct | orders/views_admin.py:214-222 | entries of distinct companies are distinct |
| Reports.RearrangedSummaryNames | orders/views_admin.py:227 | sorting names every company once |
| Reports.DailySummaryOf | orders/views_admin.py:214-227 | the company entries sorted by name, a permutation of the entries in dict order |
| Reports.DailySummaryCompanies | orders/views_admin.py:214-227 | the summary lists each company of the day once, sorted by name |
| Reports.DailySummaryEntries | orders/views_admin.py:214-222 | each entry counts the company's items and is CONFIRMED iff every order is delivered or confirmed |
| Reports.DailyOrderSummary | orders/views_admin.py:178-228 | a missing or unparsable date gives 400; otherwise the summary is exactly `DailySummaryOf` (item names in first-seen order within each entry), complete, sorted and with exact counts and status |
| Reports.WeekdayAfter | orders/views_admin.py:238 | the weekday advances by one per day |
| Reports.StartOfWeek | orders/views_admin.py:235-239 | the most recent Saturday on or before today |
| Reports.DayCount | orders/views_admin.py:256-262 | a date with a count is a date of the week's orders |
| Reports.WeekCountsDates | orders/views_admin.py:254-262 | the days counted are exactly the week's order dates |
| Reports.WeekCountsCounts | orders/views_admin.py:256-262 | each day counts each (kind, name) as often as it was ordered |
| Reports.CountWeek | orders/views_admin.py:254-262 | the loop computes `WeekCounts` |
| Reports.EntryLeTotal | orders/views_admin.py:274 | the (type, -count) order is total |
| Reports.SortKeepsCounts | orders/views_admin.py:273-274 | sorting a day keeps every entry and its count |
| Reports.WeeklyOrderSummary | orders/views_admin.py:234-280 | an unparsable start gives 400; the default start is last Saturday; each day's list is sorted and counts exactly |

## Left out

- Decimal precision: Python's 28-digit context and the two-decimal quantisation of the money columns on save are not modelled. Amounts are exact rationals.
- The ORM aggregates are not modelled: `daily_totals` of the daily report, the dashboard statistics and the admin report views.
- ISO date parsing is not modelled. The parser is a function parameter of the report methods.
- Dictionary iteration order beyond insertion order is not modelled. Sort stability is not modelled either: ties in the weekly `(type, -count)` sort may come out in any order.
- Row locking (`select_for_update`) and concurrent requests are not modelled. Each request runs alone.
- Case-insensitive lookups fold ASCII letters only. Unicode case folding is not modelled.
- A menu payload or schedule data without a date is not modelled. In the source it fails with a NOT NULL error. The model always carries dates, and treats an empty payload dict as absent.
- MenuStore.Catalog.UpdateOrCreate: an insert with an explicit id does not advance the database's id sequence. The model keeps its own `nextMenuId` counter for automatic ids.
- Food and side ids in a selection are not checked for existence. The many-to-many tables are modelled as id sets.
- Descriptions, names shown in the UI, images and timestamps that no rule reads are not modelled.
- The `post_save` signals are replaced by `Ledger.Accounts.CreateCompany`, which creates the wallet and configuration row itself.
- ScheduleSelection.VisibleSchedules returns a set, so the super admin list's ordering by company and name is not modelled.
- 401 versus 403 for an anonymous caller is not distinguished. Both are a refusal.
- `existing_menus` keys are `isoformat()` strings and `menu_state` keys are request strings. The model matches dates as day numbers, so date strings in other spellings are not modelled.
- The company save before `_handle_custom_schedule` is not atomic with it. The company update itself is not part of this model.
- `update_or_create` does not run `Schedule.clean`, so a schedule with its start after its end is stored as given. MenuStore.UpsertedSchedule does the same.
- Deleting a daily menu (menu/services.py:21-23) sets the menu of its orders to NULL (`on_delete=SET_NULL`). `MenuStore.Catalog` and `Ledger.Accounts` are separate stores, so that link is not modelled. `Ledger.OrderRecord` does carry an absent menu date. With one, `Permissions.CanModifyOrder` raises on a write, and the reports skip the order.
- Side dishes are a many-to-many field (orders/models.py:19), so an order cannot hold the same side twice. The model's `sides` sequences (`OrderPricing.Order`, `Ledger.OrderRecord`, `Reports.ReportOrder`) do not enforce this. The sums and counts are proved for any sequence, so they also cover inputs with a repeated side, which the source cannot produce.
- HTTP request parsing, serializer plumbing and response formatting are not modelled.
