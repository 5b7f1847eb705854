/** Meal schedules and their daily menus: the records and the checks their models run on save. */
module Schedules {
  import opened Wrappers
  import opened Companies

  type ScheduleId = nat
  type MenuId = nat
  type FoodId = nat
  type SideId = nat

  /** A schedule: a company's own one, or (without a company) a default one, over a date range. */
  datatype Schedule = Schedule(name: string, company: Option<CompanyId>, start: int, end: int, isActive: bool)

  /** One day of a schedule with the foods and side dishes offered that day. */
  datatype DailyMenu = DailyMenu(schedule: ScheduleId, date: int, foods: set<FoodId>, sides: set<SideId>)

  datatype CleanError = EndBeforeStart | DateOutOfRange

  /** `Schedule.clean`: a start after the end is refused; a one-day schedule is allowed. */
  function CleanSchedule(s: Schedule): (r: Result<Schedule, CleanError>)
    ensures r.Ok? <==> s.start <= s.end
    ensures r.Ok? ==> r.value == s
    ensures r.Err? ==> r.error == EndBeforeStart
  {
    if s.start > s.end then Err(EndBeforeStart) else Ok(s)
  }

  /** The inclusive date range of a schedule. */
  predicate InRange(s: Schedule, date: int)
  {
    s.start <= date <= s.end
  }

  /** `DailyMenu.clean`: the menu's date must lie in its schedule's range, both ends included. */
  function CleanDailyMenu(m: DailyMenu, s: Schedule): (r: Result<DailyMenu, CleanError>)
    ensures r.Ok? <==> s.start <= m.date && m.date <= s.end
    ensures r.Ok? ==> r.value == m
    ensures r.Err? ==> r.error == DateOutOfRange
  {
    if !InRange(s, m.date) then Err(DateOutOfRange) else Ok(m)
  }

  /** Both ends of the range are accepted, so every date of a schedule that passes its own check is. */
  lemma RangeEndsAccepted(m: DailyMenu, s: Schedule)
    requires CleanSchedule(s).Ok?
    requires m.date == s.start || m.date == s.end
    ensures CleanDailyMenu(m, s).Ok?
  {
  }

  /** A schedule whose start is after its end accepts no daily menu at all. */
  lemma InvertedScheduleAcceptsNoMenu(m: DailyMenu, s: Schedule)
    requires CleanSchedule(s).Err?
    ensures CleanDailyMenu(m, s).Err?
  {
  }

  /** The table constraint `unique_together = ('schedule', 'date')`. */
  predicate UniqueScheduleDate(menus: map<MenuId, DailyMenu>)
  {
    forall i, j :: i in menus && j in menus && i != j ==>
      menus[i].schedule != menus[j].schedule || menus[i].date != menus[j].date
  }

  /** The menu of `schedule` on `date`, if the table holds one (at most one under the constraint). */
  predicate HasMenuOn(menus: map<MenuId, DailyMenu>, schedule: ScheduleId, date: int)
  {
    exists i :: i in menus && menus[i].schedule == schedule && menus[i].date == date
  }
}
