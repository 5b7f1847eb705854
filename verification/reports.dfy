/**
 * The admin order summaries: per company for one day, and per day for one week. Orders are the
 * rows the summary queries return, reduced to the fields the summaries read.
 */
module Reports {
  import opened Wrappers
  import opened Tallies
  import opened OrderPricing

  /** An order as the summaries read it: menu date, company name, food name, side names, status. */
  datatype ReportOrder = ReportOrder(
    menuDate: Option<int>,
    company: Option<string>,
    food: Option<string>,
    sides: seq<string>,
    status: OrderStatus)

  datatype ReportError = MissingDate | InvalidDate

  // ---------------------------------------------------------------- daily summary

  /** The orders of the daily summary: on that date, with a food item, placed by a company member. */
  predicate InDailyReport(o: ReportOrder, date: int)
  {
    o.menuDate == Some(date) && o.food.Some? && o.company.Some?
  }

  /** How often `name` is ordered in `o`: its food and each side selection, merged by name. */
  function NameCount(o: ReportOrder, name: string): nat
  {
    (if o.food == Some(name) then 1 else 0) + Occurrences(o.sides, name)
  }

  /** The companies that appear in the daily summary. */
  function ReportCompanies(orders: seq<ReportOrder>, date: int): set<string>
  {
    if orders == [] then {}
    else
      var o := orders[|orders| - 1];
      ReportCompanies(orders[..|orders| - 1], date) + (if InDailyReport(o, date) then {o.company.value} else {})
  }

  /** How often `name` was ordered by members of `company` on `date`. */
  function CompanyCount(orders: seq<ReportOrder>, date: int, company: string, name: string): (n: nat)
    ensures n > 0 ==> company in ReportCompanies(orders, date)
  {
    if orders == [] then 0
    else
      var o := orders[|orders| - 1];
      CompanyCount(orders[..|orders| - 1], date, company, name) +
      (if InDailyReport(o, date) && o.company == Some(company) then NameCount(o, name) else 0)
  }

  /** The statuses of the orders of `company` on `date`. */
  function CompanyStatuses(orders: seq<ReportOrder>, date: int, company: string): (r: set<OrderStatus>)
    ensures company !in ReportCompanies(orders, date) ==> r == {}
  {
    if orders == [] then {}
    else
      var o := orders[|orders| - 1];
      CompanyStatuses(orders[..|orders| - 1], date, company) +
      (if InDailyReport(o, date) && o.company == Some(company) then {o.status} else {})
  }

  /** What the daily loop gathers per company: item counters and the set of statuses. */
  datatype Group = Group(items: seq<Tally<string>>, statuses: set<OrderStatus>)

  /** One pass of the daily loop: the order's company counts its food and sides and notes the status. */
  function AddOrder(groups: map<string, Group>, o: ReportOrder): map<string, Group>
    requires o.food.Some? && o.company.Some?
  {
    var name := o.company.value;
    var g := if name in groups then groups[name] else Group([], {});
    groups[name := Group(BumpAll(Bump(g.items, o.food.value), o.sides), g.statuses + {o.status})]
  }

  /** The groups after the daily loop has seen `orders`. */
  function GroupsOf(orders: seq<ReportOrder>, date: int): map<string, Group>
  {
    if orders == [] then map[]
    else
      var o := orders[|orders| - 1];
      var groups := GroupsOf(orders[..|orders| - 1], date);
      if InDailyReport(o, date) then AddOrder(groups, o) else groups
  }

  /** The companies in the order the loop first met them, the order in which the groups dict yields them. */
  function CompanyOrder(orders: seq<ReportOrder>, date: int): seq<string>
  {
    if orders == [] then []
    else
      var o := orders[|orders| - 1];
      var order := CompanyOrder(orders[..|orders| - 1], date);
      if InDailyReport(o, date) && o.company.value !in order then order + [o.company.value] else order
  }

  /** The grouped companies are exactly those of the summary, each listed once. */
  lemma {:induction false} GroupsOfCompanies(orders: seq<ReportOrder>, date: int)
    ensures GroupsOf(orders, date).Keys == ReportCompanies(orders, date)
    ensures Distinct(CompanyOrder(orders, date))
    ensures forall c :: c in CompanyOrder(orders, date) <==> c in GroupsOf(orders, date)
  {
    if orders != [] {
      GroupsOfCompanies(orders[..|orders| - 1], date);
    }
  }

  /** Every group counts each name as often as the company ordered it. */
  lemma {:induction false} GroupsOfCounts(orders: seq<ReportOrder>, date: int, c: string, n: string)
    requires c in GroupsOf(orders, date)
    ensures WellFormed(GroupsOf(orders, date)[c].items)
    ensures CountOf(GroupsOf(orders, date)[c].items, n) == CompanyCount(orders, date, c, n)
  {
    var init := orders[..|orders| - 1];
    var o := orders[|orders| - 1];
    var before := GroupsOf(init, date);
    var g := if c in before then before[c] else Group([], {});
    if c in before {
      GroupsOfCounts(init, date, c, n);
    } else {
      GroupsOfCompanies(init, date);
    }
    if InDailyReport(o, date) && o.company.value == c {
      BumpWellFormed(g.items, o.food.value);
      assert CountOf(g.items, n) == CompanyCount(init, date, c, n);
      assert GroupsOf(orders, date)[c].items == BumpAll(Bump(g.items, o.food.value), o.sides);
      assert CompanyCount(orders, date, c, n) == CompanyCount(init, date, c, n) + NameCount(o, n);
    } else {
      assert c in before && GroupsOf(orders, date)[c] == before[c];
    }
  }

  /** Every group holds the statuses of the company's orders. */
  lemma {:induction false} GroupsOfStatuses(orders: seq<ReportOrder>, date: int, c: string)
    requires c in GroupsOf(orders, date)
    ensures GroupsOf(orders, date)[c].statuses == CompanyStatuses(orders, date, c)
  {
    var init := orders[..|orders| - 1];
    if c in GroupsOf(init, date) {
      GroupsOfStatuses(init, date, c);
    } else {
      GroupsOfCompanies(init, date);
    }
  }

  /** The grouping loop of the daily summary. */
  method GroupByCompany(orders: seq<ReportOrder>, date: int) returns (groups: map<string, Group>, order: seq<string>)
    ensures groups == GroupsOf(orders, date) && order == CompanyOrder(orders, date)
  {
    groups, order := map[], [];
    for i := 0 to |orders|
      invariant groups == GroupsOf(orders[..i], date) && order == CompanyOrder(orders[..i], date)
    {
      var o := orders[i];
      assert orders[..i + 1][..i] == orders[..i];
      if InDailyReport(o, date) {
        var name := o.company.value;
        GroupsOfCompanies(orders[..i], date);
        if name !in groups {
          order := order + [name];
        }
        var g := if name in groups then groups[name] else Group([], {});
        var items := Bump(g.items, o.food.value);
        items := TallyEach(items, o.sides);
        groups := groups[name := Group(items, g.statuses + {o.status})];
      }
    }
    assert orders[..|orders|] == orders;
  }

  datatype SummaryStatus = Pending | AllConfirmed

  /** One company's entry in the daily summary. */
  datatype CompanySummary = CompanySummary(name: string, status: SummaryStatus, items: seq<Tally<string>>)

  predicate NameLe(a: CompanySummary, b: CompanySummary)
  {
    LexLe(a.name, b.name)
  }

  function CompanyNames(s: seq<CompanySummary>): set<string>
  {
    set c | c in s :: c.name
  }

  /** Every order is settled when its status is DELIVERED or CONFIRMED. */
  predicate AllSettled(statuses: set<OrderStatus>)
  {
    forall st :: st in statuses ==> st == Delivered || st == Confirmed
  }

  /** Some order is still open: its status is neither DELIVERED nor CONFIRMED. */
  predicate AnyPending(statuses: set<OrderStatus>)
  {
    exists st :: st in statuses && st != Delivered && st != Confirmed
  }

  /** A company's entry: PENDING as soon as one of its orders is still open. */
  function Summarize(name: string, g: Group): CompanySummary
  {
    CompanySummary(name, if AnyPending(g.statuses) then Pending else AllConfirmed, g.items)
  }

  /** The entries in the dict's order. */
  function Summaries(groups: map<string, Group>, order: seq<string>): (s: seq<CompanySummary>)
    requires forall c :: c in order ==> c in groups
    ensures |s| == |order|
    ensures forall k :: 0 <= k < |order| ==> s[k] == Summarize(order[k], groups[order[k]])
  {
    if order == [] then []
    else Summaries(groups, order[..|order| - 1]) + [Summarize(order[|order| - 1], groups[order[|order| - 1]])]
  }

  /** The loop over the grouped companies, in the dict's order. */
  method SummarizeGroups(groups: map<string, Group>, order: seq<string>) returns (summary: seq<CompanySummary>)
    requires forall c :: c in order ==> c in groups
    ensures summary == Summaries(groups, order)
  {
    summary := [];
    for k := 0 to |order|
      invariant summary == Summaries(groups, order[..k])
    {
      assert order[..k + 1][..k] == order[..k];
      summary := summary + [Summarize(order[k], groups[order[k]])];
    }
    assert order[..|order|] == order;
  }

  lemma NameLeTotal()
    ensures IsTotal(NameLe)
  {
    forall a: CompanySummary, b: CompanySummary
      ensures NameLe(a, b) || NameLe(b, a)
    {
      LexLeTotal(a.name, b.name);
    }
  }

  /** The daily summary for `date`: the company entries sorted by name. */
  function DailySummaryOf(orders: seq<ReportOrder>, date: int): (r: seq<CompanySummary>)
    ensures SortedBy(r, NameLe)
    ensures (GroupsOfCompanies(orders, date);
             multiset(r) == multiset(Summaries(GroupsOf(orders, date), CompanyOrder(orders, date))))
  {
    GroupsOfCompanies(orders, date);
    NameLeTotal();
    SortBy(Summaries(GroupsOf(orders, date), CompanyOrder(orders, date)), NameLe)
  }

  /** Entries built from a list of distinct names are distinct. */
  lemma SummariesDistinct(groups: map<string, Group>, order: seq<string>)
    requires Distinct(order) && forall c :: c in order ==> c in groups
    ensures Distinct(Summaries(groups, order))
  {
    var summary := Summaries(groups, order);
    forall i, j | 0 <= i < j < |summary|
      ensures summary[i] != summary[j]
    {
      assert summary[i].name == order[i] && summary[j].name == order[j];
    }
  }

  /** A rearrangement of the entries names every grouped company once. */
  lemma RearrangedSummaryNames(groups: map<string, Group>, order: seq<string>, sorted: seq<CompanySummary>)
    requires forall c :: c in order <==> c in groups
    requires Distinct(sorted)
    requires forall y :: y in sorted <==> y in Summaries(groups, order)
    ensures CompanyNames(sorted) == groups.Keys
    ensures forall i, j :: 0 <= i < j < |sorted| ==> sorted[i].name != sorted[j].name
  {
    var summary := Summaries(groups, order);
    forall i, j | 0 <= i < j < |sorted|
      ensures sorted[i].name != sorted[j].name
    {
      assert sorted[i] in summary && sorted[j] in summary;
      var p :| 0 <= p < |summary| && summary[p] == sorted[i];
      var q :| 0 <= q < |summary| && summary[q] == sorted[j];
      assert sorted[i] != sorted[j];
    }
    forall x | x in groups
      ensures x in CompanyNames(sorted)
    {
      var k :| 0 <= k < |order| && order[k] == x;
      assert summary[k] in sorted;
    }
    forall x | x in CompanyNames(sorted)
      ensures x in groups
    {
      var c :| c in sorted && c.name == x;
      var k :| 0 <= k < |summary| && summary[k] == c;
    }
  }

  /** Each company of the day appears once in the summary. */
  lemma DailySummaryCompanies(orders: seq<ReportOrder>, date: int)
    ensures var r := DailySummaryOf(orders, date);
            && CompanyNames(r) == ReportCompanies(orders, date)
            && forall i, j :: 0 <= i < j < |r| ==> r[i].name != r[j].name
  {
    GroupsOfCompanies(orders, date);
    NameLeTotal();
    var groups, order := GroupsOf(orders, date), CompanyOrder(orders, date);
    SummariesDistinct(groups, order);
    SortKeepsDistinct(Summaries(groups, order), NameLe);
    RearrangedSummaryNames(groups, order, DailySummaryOf(orders, date));
  }

  /** Each entry of the summary carries its company's counts and status. */
  lemma DailySummaryEntries(orders: seq<ReportOrder>, date: int, c: CompanySummary, n: string)
    requires c in DailySummaryOf(orders, date)
    ensures WellFormed(c.items)
    ensures CountOf(c.items, n) == CompanyCount(orders, date, c.name, n)
    ensures c.status == AllConfirmed <==> AllSettled(CompanyStatuses(orders, date, c.name))
  {
    GroupsOfCompanies(orders, date);
    NameLeTotal();
    var order := CompanyOrder(orders, date);
    var summary := Summaries(GroupsOf(orders, date), order);
    var k :| 0 <= k < |summary| && summary[k] == c;
    GroupsOfCounts(orders, date, c.name, n);
    GroupsOfStatuses(orders, date, c.name);
  }

  /**
   * `DailyOrderSummaryView.get`, without the per-food totals: one entry per company in name
   * order, counting each food and side name and marking the company CONFIRMED exactly when all
   * its orders are DELIVERED or CONFIRMED. `parse` reads an ISO date.
   */
  method DailyOrderSummary(dateParam: Option<string>, parse: string -> Option<int>, orders: seq<ReportOrder>)
    returns (r: Result<seq<CompanySummary>, ReportError>)
    ensures r == Err(MissingDate) <==> dateParam.None? || dateParam.value == ""
    ensures r == Err(InvalidDate) <==> dateParam.Some? && dateParam.value != "" && parse(dateParam.value).None?
    ensures r.Ok? ==>
              && dateParam.Some? && parse(dateParam.value).Some?
              && var date := parse(dateParam.value).value;
              && SortedBy(r.value, NameLe)
              && CompanyNames(r.value) == ReportCompanies(orders, date)
              && (forall i, j :: 0 <= i < j < |r.value| ==> r.value[i].name != r.value[j].name)
              && (forall c :: c in r.value ==>
                    && WellFormed(c.items)
                    && (c.status == AllConfirmed <==> AllSettled(CompanyStatuses(orders, date, c.name))))
              && (forall c, n :: c in r.value ==> CountOf(c.items, n) == CompanyCount(orders, date, c.name, n))
              && r.value == DailySummaryOf(orders, date)
  {
    if dateParam.None? || dateParam.value == "" {
      return Err(MissingDate);
    }
    var parsed := parse(dateParam.value);
    if parsed.None? {
      return Err(InvalidDate);
    }
    var date := parsed.value;
    var groups, order := GroupByCompany(orders, date);
    GroupsOfCompanies(orders, date);
    var summary := SummarizeGroups(groups, order);
    NameLeTotal();
    var sorted := SortBy(summary, NameLe);
    DailySummaryCompanies(orders, date);
    forall c | c in sorted
      ensures WellFormed(c.items)
      ensures c.status == AllConfirmed <==> AllSettled(CompanyStatuses(orders, date, c.name))
    {
      DailySummaryEntries(orders, date, c, "");
    }
    forall c, n | c in sorted
      ensures CountOf(c.items, n) == CompanyCount(orders, date, c.name, n)
    {
      DailySummaryEntries(orders, date, c, n);
    }
    r := Ok(sorted);
  }

  // ---------------------------------------------------------------- weekly summary

  /** Python's weekday (Monday 0 ... Sunday 6) of day number `d`; day 0, 1970-01-01, was a Thursday. */
  function Weekday(d: int): int
  {
    (d + 3) % 7
  }

  const Saturday := 5

  lemma WeekdayAfter(d: int, k: nat)
    requires k < 7
    ensures Weekday(d + k) == (Weekday(d) + k) % 7
  {
    var q := (d + 3) / 7;
    assert d + 3 == 7 * q + Weekday(d);
    assert d + k + 3 == 7 * q + (Weekday(d) + k);
  }

  /** The default week start: the most recent Saturday on or before `today`. */
  function StartOfWeek(today: int): (s: int)
    ensures 0 <= today - s <= 6
    ensures Weekday(s) == Saturday
    ensures forall d :: s < d <= today ==> Weekday(d) != Saturday
  {
    var s := today - (Weekday(today) + 2) % 7;
    WeekdayAfter(s, today - s);
    assert Weekday(s) == Saturday;
    assert forall d :: s < d <= today ==> Weekday(d) != Saturday by {
      forall d | s < d <= today
        ensures Weekday(d) != Saturday
      {
        WeekdayAfter(s, d - s);
      }
    }
    s
  }

  datatype ItemKind = FoodKind | SideKind

  /** A weekly counter key: food and side names are counted apart. */
  type ItemKey = (ItemKind, string)

  function Tagged(sides: seq<string>): seq<ItemKey>
  {
    if sides == [] then [] else Tagged(sides[..|sides| - 1]) + [(SideKind, sides[|sides| - 1])]
  }

  /** The orders of the weekly summary: menu date within `[start, end]`, with a food item. */
  predicate InWeek(o: ReportOrder, start: int, end: int)
  {
    o.menuDate.Some? && start <= o.menuDate.value <= end && o.food.Some?
  }

  /** The dates that appear in the weekly summary. */
  function WeekDates(orders: seq<ReportOrder>, start: int, end: int): set<int>
  {
    if orders == [] then {}
    else
      var o := orders[|orders| - 1];
      WeekDates(orders[..|orders| - 1], start, end) + (if InWeek(o, start, end) then {o.menuDate.value} else {})
  }

  /** How often `key` was ordered for `date` within the week. */
  function DayCount(orders: seq<ReportOrder>, start: int, end: int, date: int, key: ItemKey): (n: nat)
    ensures n > 0 ==> date in WeekDates(orders, start, end)
  {
    if orders == [] then 0
    else
      var o := orders[|orders| - 1];
      DayCount(orders[..|orders| - 1], start, end, date, key) +
      (if InWeek(o, start, end) && o.menuDate.value == date
       then (if key == (FoodKind, o.food.value) then 1 else 0) + Occurrences(Tagged(o.sides), key)
       else 0)
  }

  /** One pass of the weekly loop: the order's day counts its food and its sides. */
  function AddToWeek(counts: map<int, seq<Tally<ItemKey>>>, o: ReportOrder): map<int, seq<Tally<ItemKey>>>
    requires o.menuDate.Some? && o.food.Some?
  {
    var date := o.menuDate.value;
    var items := if date in counts then counts[date] else [];
    counts[date := BumpAll(Bump(items, (FoodKind, o.food.value)), Tagged(o.sides))]
  }

  /** The per-day counters after the weekly loop has seen `orders`. */
  function WeekCounts(orders: seq<ReportOrder>, start: int, end: int): map<int, seq<Tally<ItemKey>>>
  {
    if orders == [] then map[]
    else
      var o := orders[|orders| - 1];
      var counts := WeekCounts(orders[..|orders| - 1], start, end);
      if InWeek(o, start, end) then AddToWeek(counts, o) else counts
  }

  lemma {:induction false} WeekCountsDates(orders: seq<ReportOrder>, start: int, end: int)
    ensures WeekCounts(orders, start, end).Keys == WeekDates(orders, start, end)
  {
    if orders != [] {
      WeekCountsDates(orders[..|orders| - 1], start, end);
    }
  }

  /** Every day's counters count each (kind, name) as often as it was ordered that day. */
  lemma {:induction false} WeekCountsCounts(orders: seq<ReportOrder>, start: int, end: int, date: int, key: ItemKey)
    requires date in WeekCounts(orders, start, end)
    ensures WellFormed(WeekCounts(orders, start, end)[date])
    ensures CountOf(WeekCounts(orders, start, end)[date], key) == DayCount(orders, start, end, date, key)
  {
    var init := orders[..|orders| - 1];
    var o := orders[|orders| - 1];
    var before := WeekCounts(init, start, end);
    var items := if date in before then before[date] else [];
    if date in before {
      WeekCountsCounts(init, start, end, date, key);
    } else {
      WeekCountsDates(init, start, end);
    }
    if InWeek(o, start, end) && o.menuDate.value == date {
      BumpWellFormed(items, (FoodKind, o.food.value));
      assert WeekCounts(orders, start, end)[date] == BumpAll(Bump(items, (FoodKind, o.food.value)), Tagged(o.sides));
    }
  }

  /** The counting loop of the weekly summary. */
  method CountWeek(orders: seq<ReportOrder>, start: int, end: int) returns (counts: map<int, seq<Tally<ItemKey>>>)
    ensures counts == WeekCounts(orders, start, end)
  {
    counts := map[];
    for i := 0 to |orders|
      invariant counts == WeekCounts(orders[..i], start, end)
    {
      var o := orders[i];
      assert orders[..i + 1][..i] == orders[..i];
      if InWeek(o, start, end) {
        var date := o.menuDate.value;
        var items := if date in counts then counts[date] else [];
        items := Bump(items, (FoodKind, o.food.value));
        items := TallyEach(items, Tagged(o.sides));
        counts := counts[date := items];
      }
    }
    assert orders[..|orders|] == orders;
  }

  function KindRank(k: ItemKind): nat
  {
    if k == FoodKind then 0 else 1
  }

  /** The weekly sort key `(type, -count)`: "food" before "side", then the larger count first. */
  predicate EntryLe(a: Tally<ItemKey>, b: Tally<ItemKey>)
  {
    KindRank(a.key.0) < KindRank(b.key.0) || (a.key.0 == b.key.0 && a.count >= b.count)
  }

  lemma EntryLeTotal()
    ensures IsTotal(EntryLe)
  {
    forall a: Tally<ItemKey>, b: Tally<ItemKey>
      ensures EntryLe(a, b) || EntryLe(b, a)
    {
      if a.key.0 != b.key.0 {
        assert KindRank(a.key.0) != KindRank(b.key.0);
      }
    }
  }

  /** Sorting one day's counters keeps every entry and its count. */
  lemma SortKeepsCounts(ts: seq<Tally<ItemKey>>)
    requires WellFormed(ts)
    ensures IsTotal(EntryLe)
    ensures var s := SortBy(ts, EntryLe);
            WellFormed(s) && Keys(s) == Keys(ts) && forall t :: t in s ==> t.count == CountOf(ts, t.key)
  {
    EntryLeTotal();
    var s := SortBy(ts, EntryLe);
    assert Distinct(ts);
    SortKeepsDistinct(ts, EntryLe);
    UniqueKeysOfRearrangement(ts, s);
    forall t | t in s
      ensures t.count == CountOf(ts, t.key)
    {
      CountOfMember(ts, t);
    }
  }

  datatype WeeklySummary = WeeklySummary(start: int, end: int, days: map<int, seq<Tally<ItemKey>>>)

  /**
   * `WeeklyOrderSummaryView.get`: the week from `start` (the given date, else the latest
   * Saturday) to `start + 6`; per day, each (kind, name) counted once per order, sorted by kind
   * and then by count descending. `parse` reads an ISO date.
   */
  method WeeklyOrderSummary(startParam: Option<string>, parse: string -> Option<int>, today: int,
                            orders: seq<ReportOrder>)
    returns (r: Result<WeeklySummary, ReportError>)
    ensures r.Err? <==> startParam.Some? && startParam.value != "" && parse(startParam.value).None?
    ensures r.Err? ==> r.error == InvalidDate
    ensures r.Ok? && (startParam.None? || startParam.value == "") ==> r.value.start == StartOfWeek(today)
    ensures r.Ok? && startParam.Some? && startParam.value != "" ==> parse(startParam.value) == Some(r.value.start)
    ensures r.Ok? ==>
              && r.value.end == r.value.start + 6
              && r.value.days.Keys == WeekDates(orders, r.value.start, r.value.end)
              && forall d :: d in r.value.days ==>
                   && SortedBy(r.value.days[d], EntryLe)
                   && WellFormed(r.value.days[d])
                   && (forall t :: t in r.value.days[d] ==> t.count == DayCount(orders, r.value.start, r.value.end, d, t.key))
                   && (forall key :: DayCount(orders, r.value.start, r.value.end, d, key) > 0 ==> key in Keys(r.value.days[d]))
  {
    var start: int;
    if startParam.None? || startParam.value == "" {
      start := StartOfWeek(today);
    } else {
      var parsed := parse(startParam.value);
      if parsed.None? {
        return Err(InvalidDate);
      }
      start := parsed.value;
    }
    var end := start + 6;
    var counts := CountWeek(orders, start, end);
    WeekCountsDates(orders, start, end);
    EntryLeTotal();
    var days: map<int, seq<Tally<ItemKey>>> := map d | d in counts :: SortBy(counts[d], EntryLe);
    forall d | d in days
      ensures SortedBy(days[d], EntryLe) && WellFormed(days[d])
      ensures forall t :: t in days[d] ==> t.count == DayCount(orders, start, end, d, t.key)
      ensures forall key :: DayCount(orders, start, end, d, key) > 0 ==> key in Keys(days[d])
    {
      WeekCountsCounts(orders, start, end, d, (FoodKind, ""));
      SortKeepsCounts(counts[d]);
      forall t | t in days[d]
        ensures t.count == DayCount(orders, start, end, d, t.key)
      {
        WeekCountsCounts(orders, start, end, d, t.key);
      }
      forall key | DayCount(orders, start, end, d, key) > 0
        ensures key in Keys(days[d])
      {
        WeekCountsCounts(orders, start, end, d, key);
        if key !in Keys(counts[d]) {
          CountOfAbsent(counts[d], key);
        }
      }
    }
    r := Ok(WeeklySummary(start, end, days));
  }
}
