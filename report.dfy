/** The report query filter of services/report.service.js. */
module Report {
  import opened Common
  import opened Store

  /** `buildFilters({dateFrom, dateTo, status, agentId})`, built key by key. */
  method BuildFilters(dateFrom: Option<string>, dateTo: Option<string>, status: Option<string>, agentId: Option<Id>)
    returns (filters: ParcelFilter)
    ensures filters.status.Some? <==> Truthy(status)
    ensures filters.status.Some? ==> filters.status == status
    ensures filters.assignedAgentId.Some? <==> Truthy(agentId)
    ensures filters.assignedAgentId.Some? ==> filters.assignedAgentId == agentId
    ensures filters.customerId.None?
    ensures filters.createdAt.Some? <==> Truthy(dateFrom) || Truthy(dateTo)
    ensures filters.createdAt.Some? ==>
      (filters.createdAt.value.gte.Some? <==> Truthy(dateFrom)) &&
      (filters.createdAt.value.lte.Some? <==> Truthy(dateTo)) &&
      (Truthy(dateFrom) ==> filters.createdAt.value.gte == dateFrom) &&
      (Truthy(dateTo) ==> filters.createdAt.value.lte == dateTo)
    ensures !Truthy(dateFrom) && !Truthy(dateTo) && !Truthy(status) && !Truthy(agentId) ==> filters == EmptyFilter
  {
    filters := EmptyFilter;
    if Truthy(status) {
      filters := filters.(status := status);
    }
    if Truthy(agentId) {
      filters := filters.(assignedAgentId := agentId);
    }
    if Truthy(dateFrom) || Truthy(dateTo) {
      var range := DateRange(None, None);
      if Truthy(dateFrom) {
        range := range.(gte := dateFrom);
      }
      if Truthy(dateTo) {
        range := range.(lte := dateTo);
      }
      filters := filters.(createdAt := Some(range));
    }
  }
}
