/** Users as the permission checks and the ledger see them: a role, an optional company. */
module Users {
  import opened Wrappers
  import opened Companies

  type UserId = nat

  datatype Role = SuperAdmin | CompanyAdmin | Employee

  /** The stored attributes of a user other than the budget (which the ledger keeps). */
  datatype Profile = Profile(role: Role, company: Option<CompanyId>, isSuperuser: bool)

  /** The requesting user: anonymous, or an authenticated account with its profile. */
  datatype Caller = Anonymous | Member(id: UserId, profile: Profile)
}
