/**
 * The daily-menu table as `batch_save_daily_menus` and the company view's custom-schedule helper
 * change it. A batch is not one transaction: each row write commits on its own, so an integrity
 * error stops the batch with the earlier items already applied.
 */
module MenuStore {
  import opened Wrappers
  import opened Companies
  import opened Schedules
  import Tallies

  /** The `payload` of a batch item: the date and the chosen food and side ids. */
  datatype Payload = Payload(date: int, foods: seq<FoodId>, sides: seq<SideId>)

  /** One batch item: the id of the menu it targets, if any, and its payload (absent or empty: `None`). */
  datatype BatchItem = BatchItem(menuId: Option<MenuId>, payload: Option<Payload>)

  /** The daily-menu rows with the next automatically assigned id. */
  datatype Table = Table(menus: map<MenuId, DailyMenu>, nextId: nat)

  /** The table after a write, and whether the write raised an integrity error. */
  datatype Step = Step(table: Table, failed: bool)

  /** Python truthiness of an optional id: `None` and `0` are false. */
  predicate Truthy(id: Option<MenuId>)
  {
    id.Some? && id.value != 0
  }

  /** The row `update_or_create(id=…, schedule_id=…, date=…)` finds: all three must match. */
  predicate Matches(menus: map<MenuId, DailyMenu>, id: Option<MenuId>, schedule: ScheduleId, date: int)
  {
    id.Some? && id.value in menus && menus[id.value].schedule == schedule && menus[id.value].date == date
  }

  /** The menu a stored selection leaves: the id sets replace whatever the row held. */
  function Selected(schedule: ScheduleId, p: Payload): DailyMenu
  {
    DailyMenu(schedule, p.date, Tallies.Members(p.foods), Tallies.Members(p.sides))
  }

  /**
   * `update_or_create` followed by setting both id sets: an update when a row matches the id, the
   * schedule and the date; otherwise an insert under the given id (or the next automatic one),
   * which fails on a taken id, a taken (schedule, date) pair or a missing schedule.
   */
  function Upsert(schedules: set<ScheduleId>, t: Table, schedule: ScheduleId, id: Option<MenuId>, p: Payload): Step
  {
    if Matches(t.menus, id, schedule, p.date) then
      Step(Table(t.menus[id.value := Selected(schedule, p)], t.nextId), false)
    else
      var newId := if id.Some? then id.value else t.nextId;
      var next := if id.Some? then t.nextId else t.nextId + 1;
      if newId in t.menus || HasMenuOn(t.menus, schedule, p.date) || schedule !in schedules then
        Step(Table(t.menus, next), true)
      else
        Step(Table(t.menus[newId := Selected(schedule, p)], next), false)
  }

  /** One iteration of the batch loop. */
  function ApplyItem(schedules: set<ScheduleId>, t: Table, schedule: ScheduleId, item: BatchItem): Step
  {
    if item.payload.None? then Step(t, false)
    else
      var p := item.payload.value;
      if p.foods == [] && Truthy(item.menuId) then
        var id := item.menuId.value;
        if id in t.menus && t.menus[id].schedule == schedule then Step(Table(t.menus - {id}, t.nextId), false)
        else Step(t, false)
      else if p.foods != [] then Upsert(schedules, t, schedule, item.menuId, p)
      else Step(t, false)
  }

  /** The batch in list order, stopping at the first integrity error. */
  function ApplyBatch(schedules: set<ScheduleId>, t: Table, schedule: ScheduleId, items: seq<BatchItem>): Step
  {
    if items == [] then Step(t, false)
    else
      var before := ApplyBatch(schedules, t, schedule, items[..|items| - 1]);
      if before.failed then before else ApplyItem(schedules, before.table, schedule, items[|items| - 1])
  }

  /** Rows the table may hold: under the (schedule, date) constraint and pointing at existing schedules. */
  predicate Consistent(schedules: set<ScheduleId>, menus: map<MenuId, DailyMenu>)
  {
    UniqueScheduleDate(menus) && forall i :: i in menus ==> menus[i].schedule in schedules
  }

  /** An item without a payload, or with neither foods nor a menu id, changes nothing. */
  lemma ApplyItemSkips(schedules: set<ScheduleId>, t: Table, schedule: ScheduleId, item: BatchItem)
    requires item.payload.None? || (item.payload.value.foods == [] && !Truthy(item.menuId))
    ensures ApplyItem(schedules, t, schedule, item) == Step(t, false)
  {
  }

  /** Empty foods with a menu id delete that row, but only when it belongs to the batch's schedule. */
  lemma ApplyItemDeletes(schedules: set<ScheduleId>, t: Table, schedule: ScheduleId, item: BatchItem)
    requires item.payload.Some? && item.payload.value.foods == [] && Truthy(item.menuId)
    ensures var id := item.menuId.value;
            id in t.menus && t.menus[id].schedule == schedule ==>
              ApplyItem(schedules, t, schedule, item) == Step(Table(t.menus - {id}, t.nextId), false)
    ensures var id := item.menuId.value;
            !(id in t.menus && t.menus[id].schedule == schedule) ==>
              ApplyItem(schedules, t, schedule, item) == Step(t, false)
  {
  }

  /** An item with foods that goes through leaves exactly one row of the schedule on its date, holding its selection. */
  lemma ApplyItemStoresSelection(schedules: set<ScheduleId>, t: Table, schedule: ScheduleId, item: BatchItem)
    requires UniqueScheduleDate(t.menus)
    requires item.payload.Some? && item.payload.value.foods != []
    requires !ApplyItem(schedules, t, schedule, item).failed
    ensures var menus := ApplyItem(schedules, t, schedule, item).table.menus;
            exists i :: i in menus && menus[i] == Selected(schedule, item.payload.value)
    ensures var menus := ApplyItem(schedules, t, schedule, item).table.menus;
            forall i, j ::
              (i in menus && j in menus && menus[i] == Selected(schedule, item.payload.value) &&
               menus[j].schedule == schedule && menus[j].date == item.payload.value.date) ==> i == j
  {
    var p := item.payload.value;
    var menus := ApplyItem(schedules, t, schedule, item).table.menus;
    var id := if Matches(t.menus, item.menuId, schedule, p.date) || item.menuId.Some? then item.menuId.value else t.nextId;
    assert menus == t.menus[id := Selected(schedule, p)];
    assert menus[id] == Selected(schedule, p);
    ApplyItemKeepsUnique(schedules, t, schedule, item);
  }

  /** Every write keeps the (schedule, date) constraint. */
  lemma ApplyItemKeepsUnique(schedules: set<ScheduleId>, t: Table, schedule: ScheduleId, item: BatchItem)
    requires UniqueScheduleDate(t.menus)
    ensures UniqueScheduleDate(ApplyItem(schedules, t, schedule, item).table.menus)
  {
    var r := ApplyItem(schedules, t, schedule, item);
    if item.payload.Some? && item.payload.value.foods != [] && !r.failed {
      var p := item.payload.value;
      if Matches(t.menus, item.menuId, schedule, p.date) {
        var id := item.menuId.value;
        forall i, j | i in r.table.menus && j in r.table.menus && i != j
          ensures r.table.menus[i].schedule != r.table.menus[j].schedule || r.table.menus[i].date != r.table.menus[j].date
        {
          if i != id && j != id {
          } else if i == id {
            assert t.menus[j].schedule != t.menus[id].schedule || t.menus[j].date != t.menus[id].date;
          } else {
            assert t.menus[i].schedule != t.menus[id].schedule || t.menus[i].date != t.menus[id].date;
          }
        }
      } else {
        var id := if item.menuId.Some? then item.menuId.value else t.nextId;
        forall i, j | i in r.table.menus && j in r.table.menus && i != j
          ensures r.table.menus[i].schedule != r.table.menus[j].schedule || r.table.menus[i].date != r.table.menus[j].date
        {
          if i == id {
            assert !(t.menus[j].schedule == schedule && t.menus[j].date == p.date);
          } else if j == id {
            assert !(t.menus[i].schedule == schedule && t.menus[i].date == p.date);
          }
        }
      }
    }
  }

  /** Rows of other schedules survive every write unchanged. */
  lemma ApplyItemKeepsOtherSchedules(schedules: set<ScheduleId>, t: Table, schedule: ScheduleId, item: BatchItem, i: MenuId)
    requires i in t.menus && t.menus[i].schedule != schedule
    ensures var menus := ApplyItem(schedules, t, schedule, item).table.menus;
            i in menus && menus[i] == t.menus[i]
  {
  }

  /** A write keeps every row pointing at an existing schedule. */
  lemma ApplyItemKeepsConsistent(schedules: set<ScheduleId>, t: Table, schedule: ScheduleId, item: BatchItem)
    requires Consistent(schedules, t.menus)
    ensures Consistent(schedules, ApplyItem(schedules, t, schedule, item).table.menus)
  {
    ApplyItemKeepsUnique(schedules, t, schedule, item);
  }

  /** The whole batch keeps the table consistent, whether or not it stops early. */
  lemma {:induction false} ApplyBatchKeepsConsistent(schedules: set<ScheduleId>, t: Table, schedule: ScheduleId, items: seq<BatchItem>)
    requires Consistent(schedules, t.menus)
    ensures Consistent(schedules, ApplyBatch(schedules, t, schedule, items).table.menus)
    decreases |items|
  {
    if items != [] {
      var before := ApplyBatch(schedules, t, schedule, items[..|items| - 1]);
      ApplyBatchKeepsConsistent(schedules, t, schedule, items[..|items| - 1]);
      if !before.failed {
        ApplyItemKeepsConsistent(schedules, before.table, schedule, items[|items| - 1]);
      }
    }
  }

  /** The whole batch leaves the rows of other schedules as they were. */
  lemma {:induction false} ApplyBatchKeepsOtherSchedules(schedules: set<ScheduleId>, t: Table, schedule: ScheduleId,
                                                         items: seq<BatchItem>, i: MenuId)
    requires i in t.menus && t.menus[i].schedule != schedule
    ensures var menus := ApplyBatch(schedules, t, schedule, items).table.menus;
            i in menus && menus[i] == t.menus[i]
    decreases |items|
  {
    if items != [] {
      var before := ApplyBatch(schedules, t, schedule, items[..|items| - 1]);
      ApplyBatchKeepsOtherSchedules(schedules, t, schedule, items[..|items| - 1], i);
      if !before.failed {
        ApplyItemKeepsOtherSchedules(schedules, before.table, schedule, items[|items| - 1], i);
      }
    }
  }

  /** Items apply in list order: a batch is its first part followed by the rest, unless the first part failed. */
  lemma {:induction false} ApplyBatchAppend(schedules: set<ScheduleId>, t: Table, schedule: ScheduleId, a: seq<BatchItem>, b: seq<BatchItem>)
    ensures var first := ApplyBatch(schedules, t, schedule, a);
            ApplyBatch(schedules, t, schedule, a + b) ==
              if first.failed then first else ApplyBatch(schedules, first.table, schedule, b)
    decreases |b|
  {
    if b == [] {
      assert a + b == a;
    } else {
      assert (a + b)[..|a + b| - 1] == a + b[..|b| - 1];
      ApplyBatchAppend(schedules, t, schedule, a, b[..|b| - 1]);
    }
  }

  /** A batch whose first part failed ends as that part left the table: later items never run. */
  lemma BatchStopsAtFailure(schedules: set<ScheduleId>, t: Table, schedule: ScheduleId, items: seq<BatchItem>, k: nat)
    requires k <= |items| && ApplyBatch(schedules, t, schedule, items[..k]).failed
    ensures ApplyBatch(schedules, t, schedule, items) == ApplyBatch(schedules, t, schedule, items[..k])
  {
    assert items == items[..k] + items[k..];
    ApplyBatchAppend(schedules, t, schedule, items[..k], items[k..]);
  }

  /** Drops the `None` entries of a list of ids, keeping the order of the rest. */
  function SomeValues(s: seq<Option<FoodId>>): (r: seq<FoodId>)
    ensures |r| <= |s|
    ensures forall x :: x in r <==> Some(x) in s
  {
    if s == [] then []
    else if s[|s| - 1].None? then SomeValues(s[..|s| - 1])
    else SomeValues(s[..|s| - 1]) + [s[|s| - 1].value]
  }

  /** The selections of one date in `menu_state`. */
  datatype Selections = Selections(foods: seq<Option<FoodId>>, sides: seq<SideId>)

  /** The schedule fields a custom-schedule request carries; the dates are given. */
  datatype ScheduleData = ScheduleData(name: Option<string>, start: int, end: int)

  /** `{menu.date: menu.id}` over the menus of `schedule`; the constraint makes each date name one row. */
  function ExistingMenusByDate(menus: map<MenuId, DailyMenu>, schedule: ScheduleId): (r: map<int, MenuId>)
    requires UniqueScheduleDate(menus)
    ensures forall d :: d in r ==> r[d] in menus && menus[r[d]].schedule == schedule && menus[r[d]].date == d
    ensures forall i :: i in menus && menus[i].schedule == schedule ==> menus[i].date in r
  {
    map i | i in menus && menus[i].schedule == schedule :: menus[i].date := i
  }

  /** The batch item built for one date of `menu_state`. */
  function PayloadItem(date: int, sel: Selections, existing: map<int, MenuId>): (item: BatchItem)
  {
    BatchItem(if date in existing then Some(existing[date]) else None, Some(Payload(date, SomeValues(sel.foods), sel.sides)))
  }

  /** The batch items for the whole of `menu_state`, one per date in its order. */
  function PayloadItems(state: seq<(int, Selections)>, existing: map<int, MenuId>): (items: seq<BatchItem>)
  {
    seq(|state|, k requires 0 <= k < |state| => PayloadItem(state[k].0, state[k].1, existing))
  }

  /**
   * Each item targets the menu already stored for its date, or none; carries the date; and keeps
   * exactly the non-`None` food ids and the side ids.
   */
  lemma PayloadItemsTarget(state: seq<(int, Selections)>, menus: map<MenuId, DailyMenu>, schedule: ScheduleId, k: nat)
    requires UniqueScheduleDate(menus) && k < |state|
    ensures var item := PayloadItems(state, ExistingMenusByDate(menus, schedule))[k];
            && (item.menuId.Some? <==> HasMenuOn(menus, schedule, state[k].0))
            && (item.menuId.Some? ==> Matches(menus, item.menuId, schedule, state[k].0))
            && item.payload.Some? && item.payload.value.date == state[k].0
            && (forall x :: x in item.payload.value.foods <==> Some(x) in state[k].1.foods)
            && item.payload.value.sides == state[k].1.sides
  {
    var existing := ExistingMenusByDate(menus, schedule);
    if HasMenuOn(menus, schedule, state[k].0) {
      var i :| i in menus && menus[i].schedule == schedule && menus[i].date == state[k].0;
      assert menus[i].date in existing;
    }
  }

  /** A stored payload item names, for an existing menu of its date, exactly the row `update_or_create` updates. */
  lemma PayloadItemsUpdateExisting(state: seq<(int, Selections)>, menus: map<MenuId, DailyMenu>, schedule: ScheduleId, k: nat)
    requires UniqueScheduleDate(menus) && k < |state| && HasMenuOn(menus, schedule, state[k].0)
    ensures var item := PayloadItems(state, ExistingMenusByDate(menus, schedule))[k];
            Matches(menus, item.menuId, schedule, item.payload.value.date)
  {
    PayloadItemsTarget(state, menus, schedule, k);
  }

  /** The default name of a company's own schedule. */
  function CustomScheduleName(companyName: string): string
  {
    "منوی اختصاصی " + companyName
  }

  /** The schedule `update_or_create(company=…)` leaves: the request's fields, active, owned by the company. */
  function UpsertedSchedule(company: CompanyId, companyName: string, data: ScheduleData): (s: Schedule)
    ensures s.company == Some(company) && s.isActive
    ensures s.start == data.start && s.end == data.end
  {
    Schedule(if data.name.Some? then data.name.value else CustomScheduleName(companyName), Some(company), data.start, data.end, true)
  }

  /** The schedules a company owns. */
  function Owned(schedules: map<ScheduleId, Schedule>, company: CompanyId): set<ScheduleId>
  {
    set s | s in schedules && schedules[s].company == Some(company)
  }

  /** The result of the custom-schedule helper. */
  datatype HandleOutcome = Skipped | Saved | MultipleSchedules | IntegrityFailure

  /** The menu side of the database: schedules, daily menus and each company's active schedule. */
  class Catalog {
    var schedules: map<ScheduleId, Schedule>
    var menus: map<MenuId, DailyMenu>
    var nextMenuId: nat
    var nextScheduleId: nat
    /** `Company.active_schedule`, for the companies that have one. */
    var activeSchedule: map<CompanyId, ScheduleId>

    ghost predicate Valid()
      reads this
    {
      && Consistent(schedules.Keys, menus)
      && (forall s :: s in schedules ==> s < nextScheduleId)
      && (forall c :: c in activeSchedule ==> activeSchedule[c] in schedules)
    }

    constructor ()
      ensures Valid()
      ensures schedules == map[] && menus == map[] && activeSchedule == map[]
    {
      schedules, menus, activeSchedule := map[], map[], map[];
      nextMenuId, nextScheduleId := 1, 1;
    }

    /** The table part of the state. */
    function TableOf(): Table
      reads this
    {
      Table(menus, nextMenuId)
    }

    /** `update_or_create` on the daily-menu table, with empty id sets for a new row. */
    method UpdateOrCreate(schedule: ScheduleId, id: Option<MenuId>, date: int) returns (found: Option<MenuId>)
      requires Valid()
      modifies this
      ensures Valid()
      ensures schedules == old(schedules) && activeSchedule == old(activeSchedule) && nextScheduleId == old(nextScheduleId)
      ensures nextMenuId == if Matches(old(menus), id, schedule, date) || id.Some? then old(nextMenuId) else old(nextMenuId) + 1
      ensures Matches(old(menus), id, schedule, date) ==> found == id && menus == old(menus)
      ensures !Matches(old(menus), id, schedule, date) ==>
                var newId := if id.Some? then id.value else old(nextMenuId);
                if newId in old(menus) || HasMenuOn(old(menus), schedule, date) || schedule !in schedules then
                  found.None? && menus == old(menus)
                else
                  found == Some(newId) && menus == old(menus)[newId := DailyMenu(schedule, date, {}, {})]
    {
      if Matches(menus, id, schedule, date) {
        return id;
      }
      var newId := nextMenuId;
      if id.Some? {
        newId := id.value;
      } else {
        nextMenuId := nextMenuId + 1;
      }
      if newId in menus || HasMenuOn(menus, schedule, date) || schedule !in schedules {
        return None;
      }
      menus := menus[newId := DailyMenu(schedule, date, {}, {})];
      found := Some(newId);
      assert Valid() by {
        forall i, j | i in menus && j in menus && i != j
          ensures menus[i].schedule != menus[j].schedule || menus[i].date != menus[j].date
        {
          if i == newId {
            assert !(old(menus)[j].schedule == schedule && old(menus)[j].date == date);
          } else if j == newId {
            assert !(old(menus)[i].schedule == schedule && old(menus)[i].date == date);
          }
        }
      }
    }

    /** `available_foods.set(…)` and `available_sides.set(…)` on one row. */
    method SetSelection(id: MenuId, foods: seq<FoodId>, sides: seq<SideId>)
      requires Valid() && id in menus
      modifies this
      ensures Valid()
      ensures menus == old(menus)[id := old(menus)[id].(foods := Tallies.Members(foods), sides := Tallies.Members(sides))]
      ensures schedules == old(schedules) && activeSchedule == old(activeSchedule)
      ensures nextMenuId == old(nextMenuId) && nextScheduleId == old(nextScheduleId)
    {
      menus := menus[id := menus[id].(foods := Tallies.Members(foods), sides := Tallies.Members(sides))];
      assert Valid() by {
        forall i, j | i in menus && j in menus && i != j
          ensures menus[i].schedule != menus[j].schedule || menus[i].date != menus[j].date
        {
          assert old(menus)[i].schedule != old(menus)[j].schedule || old(menus)[i].date != old(menus)[j].date;
        }
      }
    }

    /** One iteration of `batch_save_daily_menus`; `failed` reports an integrity error. */
    method SaveItem(schedule: ScheduleId, item: BatchItem) returns (failed: bool)
      requires Valid()
      modifies this
      ensures Valid()
      ensures Step(TableOf(), failed) == ApplyItem(old(schedules).Keys, old(TableOf()), schedule, item)
      ensures schedules == old(schedules) && activeSchedule == old(activeSchedule) && nextScheduleId == old(nextScheduleId)
    {
      failed := false;
      if item.payload.None? {
        return;
      }
      var p := item.payload.value;
      if p.foods == [] && Truthy(item.menuId) {
        var id := item.menuId.value;
        if id in menus && menus[id].schedule == schedule {
          menus := menus - {id};
        }
        return;
      }
      if p.foods != [] {
        var found := UpdateOrCreate(schedule, item.menuId, p.date);
        if found.None? {
          return true;
        }
        SetSelection(found.value, p.foods, p.sides);
      }
    }

    /** `batch_save_daily_menus`: the items in order; the first integrity error ends the batch. */
    method BatchSaveDailyMenus(schedule: ScheduleId, items: seq<BatchItem>) returns (failed: bool)
      requires Valid()
      modifies this
      ensures Valid()
      ensures Step(TableOf(), failed) == ApplyBatch(old(schedules).Keys, old(TableOf()), schedule, items)
      ensures schedules == old(schedules) && activeSchedule == old(activeSchedule) && nextScheduleId == old(nextScheduleId)
    {
      failed := false;
      for k := 0 to |items|
        invariant Valid()
        invariant Step(TableOf(), false) == ApplyBatch(old(schedules).Keys, old(TableOf()), schedule, items[..k])
        invariant schedules == old(schedules) && activeSchedule == old(activeSchedule) && nextScheduleId == old(nextScheduleId)
      {
        assert items[..k + 1][..k] == items[..k];
        failed := SaveItem(schedule, items[k]);
        if failed {
          BatchStopsAtFailure(old(schedules).Keys, old(TableOf()), schedule, items, k + 1);
          return;
        }
      }
      assert items[..|items|] == items;
    }

    /** The loop building `payload_items` from `menu_state`. */
    method BuildPayloadItems(state: seq<(int, Selections)>, existing: map<int, MenuId>) returns (items: seq<BatchItem>)
      ensures items == PayloadItems(state, existing)
    {
      items := [];
      for k := 0 to |state|
        invariant items == PayloadItems(state[..k], existing)
      {
        var foodIds := SomeValues(state[k].1.foods);
        var existingMenu := if state[k].0 in existing then Some(existing[state[k].0]) else None;
        items := items + [BatchItem(existingMenu, Some(Payload(state[k].0, foodIds, state[k].1.sides)))];
      }
      assert state[..|state|] == state;
    }

    /**
     * `CompanyViewSet._handle_custom_schedule`: with both a schedule and a menu state, upserts the
     * company's own schedule (active, with the given dates), makes it the company's active
     * schedule, and batch-saves one item per date of the menu state.
     */
    method HandleCustomSchedule(company: CompanyId, companyName: string, newSchedule: Option<ScheduleData>,
                                menuState: seq<(int, Selections)>)
      returns (r: HandleOutcome, schedule: ScheduleId)
      requires Valid()
      modifies this
      ensures Valid()
      ensures newSchedule.None? || menuState == [] ==> r == Skipped && unchanged(this)
      ensures newSchedule.Some? && menuState != [] && |Owned(old(schedules), company)| > 1 ==>
                r == MultipleSchedules && unchanged(this)
      ensures r == Saved || r == IntegrityFailure ==>
                && newSchedule.Some? && menuState != []
                && (|Owned(old(schedules), company)| == 0 ==> schedule == old(nextScheduleId))
                && (|Owned(old(schedules), company)| == 1 ==> schedule in Owned(old(schedules), company))
                && schedules == old(schedules)[schedule := UpsertedSchedule(company, companyName, newSchedule.value)]
                && activeSchedule == old(activeSchedule)[company := schedule]
                && Step(TableOf(), r == IntegrityFailure) ==
                     ApplyBatch(schedules.Keys, old(TableOf()), schedule, PayloadItems(menuState, ExistingMenusByDate(old(menus), schedule)))
      ensures newSchedule.Some? && menuState != [] && |Owned(old(schedules), company)| <= 1 ==> r == Saved || r == IntegrityFailure
    {
      schedule := 0;
      if newSchedule.None? || menuState == [] {
        return Skipped, schedule;
      }
      var owned := Owned(schedules, company);
      if |owned| > 1 {
        return MultipleSchedules, schedule;
      }
      if |owned| == 1 {
        schedule :| schedule in owned;
      } else {
        schedule := nextScheduleId;
        nextScheduleId := nextScheduleId + 1;
      }
      schedules := schedules[schedule := UpsertedSchedule(company, companyName, newSchedule.value)];
      activeSchedule := activeSchedule[company := schedule];
      var existing := ExistingMenusByDate(menus, schedule);
      var items := BuildPayloadItems(menuState, existing);
      r := Saved;
      if |items| > 0 {
        var failed := BatchSaveDailyMenus(schedule, items);
        if failed {
          r := IntegrityFailure;
        }
      }
    }
  }
}
