/** The role checks and the reservation-window check that gate requests. */
module Permissions {
  import opened Wrappers
  import opened Companies
  import opened Users

  /** `RESERVATION_LEAD_DAYS` from the deployment settings. */
  const ReservationLeadDays: int := 1

  datatype HttpMethod = Get | Head | Options | Post | Put | Patch | Delete

  /** GET, HEAD and OPTIONS only read. */
  predicate IsSafe(m: HttpMethod)
  {
    m == Get || m == Head || m == Options
  }

  /** What a permission check decides; `NotFound` and `ServerError` are exceptions escaping the check. */
  datatype Decision = Allow | Deny | NotFound | ServerError

  predicate HasRole(c: Caller, role: Role)
  {
    c.Member? && c.profile.role == role
  }

  /** `IsSuperAdmin.has_permission`. */
  predicate IsSuperAdmin(c: Caller)
  {
    HasRole(c, SuperAdmin)
  }

  /** `IsCompanyAdmin.has_permission`. */
  predicate IsCompanyAdmin(c: Caller)
  {
    HasRole(c, CompanyAdmin)
  }

  /** `IsAdmin.has_permission`: exactly the super admins and the company admins. */
  predicate IsAdmin(c: Caller)
    ensures IsAdmin(c) <==> IsSuperAdmin(c) || IsCompanyAdmin(c)
    ensures IsAdmin(c) ==> c.Member? && c.profile.role != Employee
  {
    c.Member? && (c.profile.role == SuperAdmin || c.profile.role == CompanyAdmin)
  }

  /** `IsSuperAdminOrReadOnly.has_permission`: any signed-in user may read, only super admins write. */
  predicate IsSuperAdminOrReadOnly(c: Caller, m: HttpMethod)
    ensures IsSuperAdminOrReadOnly(c, m) <==> c.Member? && (IsSafe(m) || c.profile.role == SuperAdmin)
  {
    if IsSafe(m) then c.Member? else IsSuperAdmin(c)
  }

  /** `CanManageUsers.has_permission`: the admin roles. */
  predicate CanManageUsers(c: Caller)
    ensures CanManageUsers(c) <==> IsAdmin(c)
  {
    c.Member? && (c.profile.role == SuperAdmin || c.profile.role == CompanyAdmin)
  }

  /** `CanManageUsers.has_object_permission` on a user whose company is `targetCompany`. */
  predicate CanManageUser(c: Caller, targetCompany: Option<CompanyId>)
    ensures IsSuperAdmin(c) ==> CanManageUser(c, targetCompany)
    ensures IsCompanyAdmin(c) ==> (CanManageUser(c, targetCompany) <==> targetCompany == c.profile.company)
    ensures CanManageUser(c, targetCompany) ==> IsAdmin(c)
  {
    if c.Anonymous? then false
    else if c.profile.role == SuperAdmin then true
    else if c.profile.role == CompanyAdmin then targetCompany == c.profile.company
    else false
  }

  /**
   * `IsCompanyAdminOfTargetUser.has_permission`. `userIdArg` is the `user_id` URL argument and
   * `userCompanies` maps every existing user to its company. An unknown user makes the lookup raise a
   * not-found error that the check does not catch.
   */
  function IsCompanyAdminOfTargetUser(c: Caller, userIdArg: Option<nat>, userCompanies: map<UserId, Option<CompanyId>>)
    : (d: Decision)
    ensures d == Allow <==>
              IsCompanyAdmin(c) && userIdArg.Some? && userIdArg.value != 0 && userIdArg.value in userCompanies &&
              userCompanies[userIdArg.value] == c.profile.company
    ensures d == NotFound <==>
              IsCompanyAdmin(c) && userIdArg.Some? && userIdArg.value != 0 && userIdArg.value !in userCompanies
    ensures d != ServerError
  {
    if !IsCompanyAdmin(c) then Deny
    else if userIdArg.None? || userIdArg.value == 0 then Deny
    else if userIdArg.value !in userCompanies then NotFound
    else if c.profile.company == userCompanies[userIdArg.value] then Allow
    else Deny
  }

  /** Whole days from `today` to `deliveryDate` meet the lead time. */
  predicate FarEnough(deliveryDate: int, today: int, leadDays: int)
  {
    deliveryDate - today >= leadDays
  }

  /**
   * `CanModifyOrder.has_object_permission`: reads always pass; a write passes when the order's
   * menu date is at least `leadDays` days away. An order whose menu was deleted has no date, and
   * reading it raises.
   */
  function CanModifyOrder(m: HttpMethod, menuDate: Option<int>, today: int, leadDays: int): (d: Decision)
    ensures IsSafe(m) ==> d == Allow
    ensures !IsSafe(m) && menuDate.Some? ==>
              (d == Allow <==> menuDate.value - today >= leadDays) && d != NotFound && d != ServerError
    ensures d == ServerError <==> !IsSafe(m) && menuDate.None?
  {
    if IsSafe(m) then Allow
    else if menuDate.None? then ServerError
    else if FarEnough(menuDate.value, today, leadDays) then Allow
    else Deny
  }

  /** Write permission is monotone in the date: a later delivery date is never refused when an earlier one passes. */
  lemma CanModifyOrderMonotone(m: HttpMethod, d1: int, d2: int, today: int, leadDays: int)
    requires d1 <= d2
    requires CanModifyOrder(m, Some(d1), today, leadDays) == Allow
    ensures CanModifyOrder(m, Some(d2), today, leadDays) == Allow
  {
  }

  /** With the deployed lead time, an order for tomorrow can still be changed and one for today cannot. */
  lemma DeployedLeadTime(m: HttpMethod, today: int)
    requires !IsSafe(m)
    ensures CanModifyOrder(m, Some(today + 1), today, ReservationLeadDays) == Allow
    ensures CanModifyOrder(m, Some(today), today, ReservationLeadDays) == Deny
  {
  }
}
