/** Service contracts with client companies: the status values and the date-order check. */
module Contracts {
  import opened Wrappers
  import opened Companies

  datatype ContractStatus = Pending | Active | Expired | Canceled

  /** A new contract starts out pending. */
  const DefaultContractStatus: ContractStatus := Pending

  /** The contract fields the check reads; the serializer may see either date missing. */
  datatype ContractData = ContractData(company: CompanyId, start: Option<int>, end: Option<int>, status: ContractStatus)

  datatype ContractError = EndBeforeStart

  /** A new contract for `company` over the given dates, with the default status. */
  function NewContract(company: CompanyId, start: Option<int>, end: Option<int>): (c: ContractData)
    ensures c.status == Pending
    ensures c.company == company && c.start == start && c.end == end
  {
    ContractData(company, start, end, DefaultContractStatus)
  }

  /** Both dates are present and the end lies before the start. */
  predicate EndsBeforeStart(c: ContractData)
  {
    c.start.Some? && c.end.Some? && c.end.value < c.start.value
  }

  /** `ContractSerializer.validate`: refuses an end before the start; a missing date skips the check. */
  function ValidateContract(data: ContractData): (r: Result<ContractData, ContractError>)
    ensures r.Ok? <==> data.start.None? || data.end.None? || data.start.value <= data.end.value
    ensures r.Ok? ==> r.value == data
    ensures data.start.Some? && data.start == data.end ==> r.Ok?
  {
    if EndsBeforeStart(data) then Err(EndBeforeStart) else Ok(data)
  }

  /** `Contract.clean`: the same date-order rule, checked on the model. */
  function CleanContract(c: ContractData): (r: Result<ContractData, ContractError>)
    ensures r.Err? <==> c.start.Some? && c.end.Some? && c.end.value < c.start.value
    ensures r.Ok? ==> r.value == c
  {
    if c.start.Some? && c.end.Some? && c.end.value < c.start.value then Err(EndBeforeStart) else Ok(c)
  }

  /** The serializer and the model accept exactly the same contracts. */
  lemma ValidateAgreesWithClean(c: ContractData)
    ensures ValidateContract(c) == CleanContract(c)
  {
  }
}
