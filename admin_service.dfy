/** The administrator operations of services/admin.service.js: agent
    assignment, the parcel list's filter and page window, and the dashboard
    figures. */
module AdminService {
  import opened Common
  import opened ParcelModel
  import opened UserModel
  import opened StatusMachine
  import opened Store
  import opened Emitter
  import opened ParcelService

  /** The parcel after `findByIdAndUpdate` with `{assignedAgentId, status: "ASSIGNED"}`. */
  function AssignedTo(p: Parcel, agentId: Id): (q: Parcel)
    ensures q.status == Assigned && q.assignedAgentId == Some(agentId)
    ensures q.(status := p.status, assignedAgentId := p.assignedAgentId) == p
  {
    p.(status := Assigned, assignedAgentId := Some(agentId))
  }

  /** Assignment ignores the transition table: it yields ASSIGNED from every
      status, while the table allows ASSIGNED only from BOOKED and FAILED. */
  lemma AssignmentBypassesTable(p: Parcel, agentId: Id)
    ensures AssignedTo(p, agentId).status == Assigned
    ensures CanTransition(p.status, "ASSIGNED") <==> p.status == Booked || p.status == Failed
  {
  }

  /** So a delivered parcel can be assigned again, keeping its delivery time:
      the result is ASSIGNED with `deliveredAt` set, which no sequence of
      allowed status changes produces. */
  lemma AssignmentCanBreakConsistency(p: Parcel, agentId: Id, at: Timestamp)
    requires p.status == Delivered && p.deliveredAt == Some(at)
    ensures LifecycleConsistent(p) == (p.failureReason.None?)
    ensures !LifecycleConsistent(AssignedTo(p, agentId))
    ensures !CanTransition(p.status, "ASSIGNED")
  {
  }

  /** The checks of `assignParcelAgent`, in order: the agent first, then the
      parcel (whether or not it is deleted). */
  function AssignCheck(users: seq<User>, parcels: seq<Parcel>, parcelId: Id, agentId: Id): (o: Outcome)
    ensures o == Pass <==>
      LookupUser(users, agentId).Some? && LookupUser(users, agentId).value.role == Agent &&
      LookupParcel(parcels, parcelId).Some?
    ensures (LookupUser(users, agentId).None? || LookupUser(users, agentId).value.role != Agent) ==>
      o == Fail(AppError(BAD_REQUEST, "Invalid agent"))
    ensures LookupUser(users, agentId).Some? && LookupUser(users, agentId).value.role == Agent &&
            LookupParcel(parcels, parcelId).None? ==>
      o == Fail(PARCEL_NOT_FOUND)
  {
    var agent := LookupUser(users, agentId);
    if agent.None? || agent.value.role != Agent then Fail(AppError(BAD_REQUEST, "Invalid agent"))
    else if LookupParcel(parcels, parcelId).None? then Fail(PARCEL_NOT_FOUND)
    else Pass
  }

  /** `assignParcelAgent({parcelId, agentId, actorId})`. */
  method AssignParcelAgent(db: Database, em: SocketEmitter, parcelId: Id, agentId: Id, actorId: Id, now: Timestamp)
    returns (r: Result<Parcel>)
    requires db.Valid()
    modifies db, em
    ensures db.Valid()
    ensures AssignCheck(old(db.users), old(db.parcels), parcelId, agentId).Fail? ==>
      (r == Err(AssignCheck(old(db.users), old(db.parcels), parcelId, agentId).error) &&
       SnapshotOf(db) == old(SnapshotOf(db)) && em.published == old(em.published))
    ensures AssignCheck(old(db.users), old(db.parcels), parcelId, agentId) == Pass ==>
      (var i := FindParcel(old(db.parcels), parcelId).value;
       var q := AssignedTo(old(db.parcels)[i], agentId);
       var agent := LookupUser(old(db.users), agentId).value;
       r == Ok(q) && db.parcels == old(db.parcels)[i := q] &&
       db.history == old(db.history) +
         [StatusHistoryRecord(parcelId, "ASSIGNED", Some("Assigned to " + agent.name), actorId, now)] &&
       db.audit == old(db.audit) + [AuditEntry(actorId, "PARCEL_ASSIGNED", Assignment(parcelId, agentId))] &&
       em.published == old(em.published) +
         StatusFanOut(em.io, q.id, q.customerId, Some(agentId), StatusPayload("ASSIGNED", None)))
    ensures db.users == old(db.users) && db.addresses == old(db.addresses) && db.tracking == old(db.tracking)
    ensures db.notificationLogs == old(db.notificationLogs) && db.notifications == old(db.notifications)
    ensures em.io == old(em.io) && em.userEvents == old(em.userEvents)
  {
    var check := AssignCheck(db.users, db.parcels, parcelId, agentId);
    if check.Fail? {
      return Err(check.error);
    }
    var agent := LookupUser(db.users, agentId).value;
    var i := FindParcel(db.parcels, parcelId).value;
    var q := AssignedTo(db.parcels[i], agentId);
    ReplaceKeepsUnique(db.parcels, i, q);
    db.parcels := db.parcels[i := q];

    db.history := db.history + [StatusHistoryRecord(parcelId, "ASSIGNED", Some("Assigned to " + agent.name), actorId, now)];
    db.audit := db.audit + [AuditEntry(actorId, "PARCEL_ASSIGNED", Assignment(parcelId, agentId))];
    em.EmitParcelStatus(q.id, q.customerId, q.assignedAgentId, StatusPayload("ASSIGNED", None));
    r := Ok(q);
  }

  /** The filter of `adminParcelList`, built key by key: each key is present
      exactly when its parameter is truthy, and `createdAt` only carries the
      bounds that were given. */
  method AdminParcelFilters(status: Option<string>, agentId: Option<Id>, customerId: Option<Id>,
                            dateFrom: Option<string>, dateTo: Option<string>) returns (filters: ParcelFilter)
    ensures filters.status == (if Truthy(status) then status else None)
    ensures filters.assignedAgentId == (if Truthy(agentId) then agentId else None)
    ensures filters.customerId == (if Truthy(customerId) then customerId else None)
    ensures filters.createdAt.Some? <==> Truthy(dateFrom) || Truthy(dateTo)
    ensures filters.createdAt.Some? ==>
      filters.createdAt.value.gte == (if Truthy(dateFrom) then dateFrom else None) &&
      filters.createdAt.value.lte == (if Truthy(dateTo) then dateTo else None)
  {
    filters := EmptyFilter;
    if Truthy(status) {
      filters := filters.(status := status);
    }
    if Truthy(agentId) {
      filters := filters.(assignedAgentId := agentId);
    }
    if Truthy(customerId) {
      filters := filters.(customerId := customerId);
    }
    if Truthy(dateFrom) || Truthy(dateTo) {
      var range := DateRange(None, None);
      if Truthy(dateFrom) {
        range := range.(gte := dateFrom);
      }
      if Truthy(dateTo) {
        range := range.(lte := dateTo);
      }
      filters := filters.(createdAt := Some(range));
    }
  }

  /** The page window of the list query: skip `(page - 1) * limit` records of
      the newest-first result and keep at most `limit`; as in MongoDB,
      `limit(0)` sets no limit (and then nothing is skipped either). */
  function PageOf<T>(newestFirst: seq<T>, page: nat, limit: nat): (r: seq<T>)
    requires page >= 1
    ensures limit == 0 ==> r == newestFirst
    ensures limit > 0 ==> |r| <= limit && (r == [] || (page - 1) * limit + |r| <= |newestFirst|)
    ensures limit > 0 ==> forall i :: 0 <= i < |r| ==> r[i] == newestFirst[(page - 1) * limit + i]
    ensures limit > 0 && (page - 1) * limit + limit <= |newestFirst| ==> |r| == limit
    ensures limit > 0 && (page - 1) * limit >= |newestFirst| ==> r == []
  {
    var skip := (page - 1) * limit;
    if limit == 0 then newestFirst
    else if skip >= |newestFirst| then [] else Limit(newestFirst[skip..], limit)
  }

  /** A full page and the page after it are together the records from the
      first one's offset on, up to two pages' worth. */
  lemma {:induction false} PagesAreConsecutive<T>(s: seq<T>, page: nat, limit: nat)
    requires page >= 1 && limit >= 1 && (page - 1) * limit + limit <= |s|
    ensures PageOf(s, page, limit) + PageOf(s, page + 1, limit) ==
      s[(page - 1) * limit..(if (page + 1) * limit <= |s| then (page + 1) * limit else |s|)]
  {
    var lo := (page - 1) * limit;
    var mid := page * limit;
    var hi := if (page + 1) * limit <= |s| then (page + 1) * limit else |s|;
    assert mid == lo + limit && (page + 1) * limit == mid + limit;
    assert PageOf(s, page, limit) == s[lo..mid] by {
      assert PageOf(s, page, limit) == Limit(s[lo..], limit);
    }
    assert PageOf(s, page + 1, limit) == s[mid..hi] by {
      if mid < |s| {
        assert PageOf(s, page + 1, limit) == Limit(s[mid..], limit);
      }
    }
    assert s[lo..mid] + s[mid..hi] == s[lo..hi];
  }

  /** How many parcels have status `s` (`countDocuments({status})`). */
  function CountStatus(parcels: seq<Parcel>, s: ParcelStatus): (n: nat)
    ensures n <= |parcels|
    ensures n == 0 <==> forall i :: 0 <= i < |parcels| ==> parcels[i].status != s
  {
    if parcels == [] then 0
    else CountStatus(parcels[..|parcels| - 1], s) + (if parcels[|parcels| - 1].status == s then 1 else 0)
  }

  /** The sum of `codAmount` over COD parcels (the `$match`/`$group` pipeline);
      with no COD parcel the pipeline yields no group and the figure is 0, and
      non-negative amounts give a non-negative total. */
  function CodTotal(parcels: seq<Parcel>): (t: int)
    ensures (forall i :: 0 <= i < |parcels| ==> parcels[i].paymentType == Prepaid) ==> t == 0
    ensures (forall i :: 0 <= i < |parcels| ==> parcels[i].codAmount >= 0) ==> t >= 0
  {
    if parcels == [] then 0
    else
      var init := parcels[..|parcels| - 1];
      assert forall i :: 0 <= i < |init| ==> init[i] == parcels[i];
      CodTotal(init) + (if parcels[|parcels| - 1].paymentType == COD then parcels[|parcels| - 1].codAmount else 0)
  }

  /** Counting the parcels of two different statuses counts each parcel at most once. */
  lemma {:induction false} CountsAreDisjoint(parcels: seq<Parcel>, s: ParcelStatus, t: ParcelStatus)
    requires s != t
    ensures CountStatus(parcels, s) + CountStatus(parcels, t) <= |parcels|
  {
    if parcels != [] {
      CountsAreDisjoint(parcels[..|parcels| - 1], s, t);
    }
  }

  /** A new parcel adds to the figures of its own status and payment only. */
  lemma {:induction false} FiguresAppend(parcels: seq<Parcel>, p: Parcel, s: ParcelStatus)
    ensures CountStatus(parcels + [p], s) == CountStatus(parcels, s) + (if p.status == s then 1 else 0)
    ensures CodTotal(parcels + [p]) == CodTotal(parcels) + (if p.paymentType == COD then p.codAmount else 0)
  {
    assert (parcels + [p])[..|parcels + [p]| - 1] == parcels;
  }

  /** The dashboard figures (the 24-hour booking count is not modelled). */
  datatype Metrics = Metrics(failedDeliveries: nat, codTotal: int, deliveredTotal: nat)

  /** `dashboardMetrics()`. */
  function DashboardMetrics(parcels: seq<Parcel>): (m: Metrics)
    ensures m.failedDeliveries + m.deliveredTotal <= |parcels|
    ensures m.failedDeliveries == CountStatus(parcels, Failed) && m.deliveredTotal == CountStatus(parcels, Delivered)
    ensures m.codTotal == CodTotal(parcels)
  {
    CountsAreDisjoint(parcels, Failed, Delivered);
    Metrics(CountStatus(parcels, Failed), CodTotal(parcels), CountStatus(parcels, Delivered))
  }
}
