/** Which schedules a user's menu listing shows. */
module ScheduleSelection {
  import opened Wrappers
  import opened Companies
  import opened Users
  import opened Schedules

  /** A default schedule the listing may fall back on: no company, and active. */
  predicate IsActiveDefault(schedules: map<ScheduleId, Schedule>, s: ScheduleId)
  {
    s in schedules && schedules[s].company.None? && schedules[s].isActive
  }

  /**
   * The first active default schedule with id at least `k`, scanning ids below `bound`. A query
   * without an ordering yields its rows by primary key, so `.first()` is the lowest such id.
   */
  function FirstDefaultFrom(schedules: map<ScheduleId, Schedule>, k: nat, bound: nat): (r: Option<ScheduleId>)
    ensures r.Some? ==> k <= r.value < bound && IsActiveDefault(schedules, r.value)
    ensures r.Some? ==> forall s :: k <= s < r.value ==> !IsActiveDefault(schedules, s)
    ensures r.None? ==> forall s :: k <= s < bound ==> !IsActiveDefault(schedules, s)
    decreases bound - k
  {
    if k >= bound then None
    else if IsActiveDefault(schedules, k) then Some(k)
    else FirstDefaultFrom(schedules, k + 1, bound)
  }

  /** `Schedule.objects.filter(company__isnull=True, is_active=True).first()` over ids below `bound`. */
  function FirstDefault(schedules: map<ScheduleId, Schedule>, bound: nat): (r: Option<ScheduleId>)
    requires forall s :: s in schedules ==> s < bound
    ensures r.Some? ==> IsActiveDefault(schedules, r.value)
    ensures r.Some? ==> forall s :: IsActiveDefault(schedules, s) ==> r.value <= s
    ensures r.None? <==> forall s :: !IsActiveDefault(schedules, s)
  {
    FirstDefaultFrom(schedules, 0, bound)
  }

  /** A super admin (by role or as a Django superuser) manages every schedule. */
  predicate SeesAll(user: Profile)
  {
    user.isSuperuser || user.role == SuperAdmin
  }

  /** The active schedule of the user's company, if the company has one. */
  function CompanySchedule(user: Profile, activeSchedule: map<CompanyId, ScheduleId>): Option<ScheduleId>
  {
    if user.company.Some? && user.company.value in activeSchedule then Some(activeSchedule[user.company.value]) else None
  }

  /**
   * `MyCompanyMenuView.get_queryset`: all schedules for a super admin; otherwise the company's
   * active schedule, else the first active default schedule, else none.
   */
  function VisibleSchedules(user: Profile, schedules: map<ScheduleId, Schedule>,
                            activeSchedule: map<CompanyId, ScheduleId>, bound: nat): (r: set<ScheduleId>)
    requires forall s :: s in schedules ==> s < bound
    requires forall c :: c in activeSchedule ==> activeSchedule[c] in schedules
    ensures SeesAll(user) ==> r == schedules.Keys
    ensures !SeesAll(user) ==> r <= schedules.Keys && |r| <= 1
    ensures !SeesAll(user) && CompanySchedule(user, activeSchedule).Some? ==> r == {CompanySchedule(user, activeSchedule).value}
    ensures !SeesAll(user) && CompanySchedule(user, activeSchedule).None? ==>
              forall s :: s in r <==> IsActiveDefault(schedules, s) && forall t :: IsActiveDefault(schedules, t) ==> s <= t
    ensures r == {} <==>
              schedules == map[] ||
              (!SeesAll(user) && CompanySchedule(user, activeSchedule).None? && forall s :: !IsActiveDefault(schedules, s))
  {
    if SeesAll(user) then schedules.Keys
    else
      var chosen := if CompanySchedule(user, activeSchedule).Some? then CompanySchedule(user, activeSchedule)
                    else FirstDefault(schedules, bound);
      if chosen.Some? then {chosen.value} else {}
  }

  /** The company's own schedule is shown even when it is switched off. */
  lemma CompanyScheduleShownWhenInactive(user: Profile, schedules: map<ScheduleId, Schedule>,
                                         activeSchedule: map<CompanyId, ScheduleId>, bound: nat)
    requires forall s :: s in schedules ==> s < bound
    requires forall c :: c in activeSchedule ==> activeSchedule[c] in schedules
    requires !SeesAll(user) && user.company.Some? && user.company.value in activeSchedule
    requires !schedules[activeSchedule[user.company.value]].isActive
    ensures activeSchedule[user.company.value] in VisibleSchedules(user, schedules, activeSchedule, bound)
  {
  }
}
