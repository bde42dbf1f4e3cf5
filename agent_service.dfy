/** The agent operations of services/agent.service.js: the code scan, the
    checks and split of route optimisation, and the two operations that hand
    straight on to the parcel service. */
module AgentService {
  import opened Common
  import opened ParcelModel
  import opened UserModel
  import opened StatusMachine
  import opened Store
  import opened Emitter
  import opened NotificationModel
  import opened Templates
  import opened NotificationService
  import opened ParcelService

  /** `{ parcelId, verified: true }`. */
  datatype ScanResult = ScanResult(parcelId: Id, verified: bool)

  /** `[trackingCode, qrCodeData, barcodeData].filter(Boolean)`. */
  function ScanCodes(p: Parcel): (codes: seq<string>)
    ensures forall i :: 0 <= i < |codes| ==> codes[i] != ""
    ensures forall c :: c in codes <==>
      c != "" && (c == p.trackingCode || Some(c) == p.qrCodeData || Some(c) == p.barcodeData)
  {
    (if p.trackingCode != "" then [p.trackingCode] else []) +
    (if Truthy(p.qrCodeData) then [p.qrCodeData.value] else []) +
    (if Truthy(p.barcodeData) then [p.barcodeData.value] else [])
  }

  /** `scanParcelCode({parcelId, agentId, code})`: only the assigned agent may
      scan, and the scan verifies iff the code is one of the parcel's non-empty
      codes. Nothing is written. */
  function ScanParcelCode(parcels: seq<Parcel>, parcelId: Id, agentId: Id, code: string): (r: Result<ScanResult>)
    ensures AgentAssignmentCheck(LookupParcel(parcels, parcelId), agentId).Fail? ==>
      r == Err(AppError(FORBIDDEN, "Parcel not assigned to agent"))
    ensures AgentAssignmentCheck(LookupParcel(parcels, parcelId), agentId) == Pass ==>
      (var p := LookupParcel(parcels, parcelId).value;
       (r.Ok? <==> code != "" && (code == p.trackingCode || Some(code) == p.qrCodeData || Some(code) == p.barcodeData)) &&
       (r.Err? ==> r.error == AppError(BAD_REQUEST, "Invalid code for parcel")))
    ensures r.Ok? ==> r.value == ScanResult(parcelId, true)
  {
    var parcel := LookupParcel(parcels, parcelId);
    match AgentAssignmentCheck(parcel, agentId)
    case Fail(e) => Err(e)
    case Pass =>
      if code !in ScanCodes(parcel.value) then Err(AppError(BAD_REQUEST, "Invalid code for parcel"))
      else Ok(ScanResult(parcelId, true))
  }

  /** An empty code never verifies, whatever the parcel holds. */
  lemma EmptyCodeNeverVerifies(parcels: seq<Parcel>, parcelId: Id, agentId: Id)
    ensures ScanParcelCode(parcels, parcelId, agentId, "").Err?
  {
  }

  /** A waypoint; coordinates are opaque numbers. */
  datatype Waypoint = Waypoint(lat: int, lng: int)

  /** One entry of the `waypoints` parameter of the directions request. */
  datatype WaypointParam = OptimizeFlag | Via(point: Waypoint)

  /** The directions request `optimizeRoute` sends. */
  datatype DirectionsRequest = DirectionsRequest(
    key: string, origin: Waypoint, destination: Waypoint, waypoints: seq<WaypointParam>)

  /** The first route of the directions response, as far as it is read. */
  datatype RouteData = RouteData(waypointOrder: Option<seq<int>>, polyline: Option<string>)

  /** `{ order, polyline }`. */
  datatype OptimizedRoute = OptimizedRoute(order: seq<int>, polyline: string)

  /** The request for a key and at least two waypoints: the first is the
      origin, the last the destination, and the ones between become the stops
      after the `optimize:true` flag, in order. */
  function BuildDirectionsRequest(key: string, waypoints: seq<Waypoint>): (q: DirectionsRequest)
    requires |waypoints| >= 2
    ensures q.key == key && q.origin == waypoints[0] && q.destination == waypoints[|waypoints| - 1]
    ensures |q.waypoints| == |waypoints| - 1 && q.waypoints[0] == OptimizeFlag
    ensures forall i :: 1 <= i < |q.waypoints| ==> q.waypoints[i] == Via(waypoints[i])
  {
    var middle := waypoints[1..|waypoints| - 1];
    DirectionsRequest(key, waypoints[0], waypoints[|waypoints| - 1],
                      [OptimizeFlag] + seq(|middle|, i requires 0 <= i < |middle| => Via(middle[i])))
  }

  /** The stops of a request: the points of the entries after the flag. */
  function Stops(q: DirectionsRequest): seq<Waypoint> {
    if q.waypoints == [] then []
    else
      seq(|q.waypoints| - 1, i requires 0 <= i < |q.waypoints| - 1 =>
        if q.waypoints[i + 1].Via? then q.waypoints[i + 1].point else q.origin)
  }

  /** The split loses nothing: origin, stops and destination are the waypoints
      again. */
  lemma SplitRoundTrip(key: string, waypoints: seq<Waypoint>)
    requires |waypoints| >= 2
    ensures var q := BuildDirectionsRequest(key, waypoints);
      [q.origin] + Stops(q) + [q.destination] == waypoints
  {
    var q := BuildDirectionsRequest(key, waypoints);
    var w := [q.origin] + Stops(q) + [q.destination];
    assert |w| == |waypoints|;
    forall i | 0 <= i < |w| ensures w[i] == waypoints[i] {
      if 0 < i < |w| - 1 {
        assert w[i] == Stops(q)[i - 1];
      }
    }
  }

  /** `optimizeRoute({agentId, waypoints})`. The directions service is the
      parameter `directions`; it answers with its first route, or none. */
  function OptimizeRoute(apiKey: Option<string>, waypoints: seq<Waypoint>,
                         directions: DirectionsRequest -> Option<RouteData>): (r: Result<OptimizedRoute>)
    ensures !Truthy(apiKey) ==> r == Err(AppError(BAD_REQUEST, "Google Maps API key missing"))
    ensures Truthy(apiKey) && |waypoints| < 2 ==> r == Err(AppError(BAD_REQUEST, "At least two waypoints are required"))
    ensures Truthy(apiKey) && |waypoints| >= 2 ==>
      (var answer := directions(BuildDirectionsRequest(apiKey.value, waypoints));
       (answer.None? ==> r == Err(AppError(BAD_REQUEST, "Unable to optimize route"))) &&
       (answer.Some? ==> r == Ok(OptimizedRoute(answer.value.waypointOrder.GetOr([]), answer.value.polyline.GetOr("")))))
  {
    if !Truthy(apiKey) then Err(AppError(BAD_REQUEST, "Google Maps API key missing"))
    else if |waypoints| < 2 then Err(AppError(BAD_REQUEST, "At least two waypoints are required"))
    else match directions(BuildDirectionsRequest(apiKey.value, waypoints))
      case None => Err(AppError(BAD_REQUEST, "Unable to optimize route"))
      case Some(route) => Ok(OptimizedRoute(route.waypointOrder.GetOr([]), route.polyline.GetOr("")))
  }

  /** The input checks come before any remote call: when they fail, the answer
      does not depend on the directions service at all. */
  lemma ChecksPrecedeRemoteCall(apiKey: Option<string>, waypoints: seq<Waypoint>,
                                d1: DirectionsRequest -> Option<RouteData>, d2: DirectionsRequest -> Option<RouteData>)
    requires !Truthy(apiKey) || |waypoints| < 2
    ensures OptimizeRoute(apiKey, waypoints, d1) == OptimizeRoute(apiKey, waypoints, d2)
    ensures OptimizeRoute(apiKey, waypoints, d1).Err?
  {
  }

  /** `changeParcelStatus({parcelId, status, note, actor})`: the status
      update with `status` passed on as `nextStatus`, so everything
      `updateParcelStatus` promises holds of it. */
  method ChangeParcelStatus(db: Database, em: SocketEmitter, parcelId: Id, status: string, note: Option<string>,
                            actor: Actor, now: Timestamp, noticeId: Id,
                            emailTransport: SendOutcome, smsTransport: SendOutcome) returns (r: Result<Parcel>)
    requires db.Valid() && db.FreshId(noticeId)
    modifies db, em
    ensures db.Valid()
    ensures var check := StatusUpdateCheck(LookupParcel(old(db.parcels), parcelId), status, actor);
      check.Fail? ==>
        (r == Err(check.error) && SnapshotOf(db) == old(SnapshotOf(db)) &&
         em.published == old(em.published) && em.userEvents == old(em.userEvents))
    ensures var parcel := LookupParcel(old(db.parcels), parcelId);
      StatusUpdateCheck(parcel, status, actor) == Pass ==>
      var i := FindParcel(old(db.parcels), parcelId).value;
      var q := Transitioned(parcel.value, ParseStatus(status).value, note, now);
      r == Ok(q) &&
      db.parcels == old(db.parcels)[i := q] &&
      db.history == old(db.history) + [ChangeRecord(parcelId, status, note, actor, now)] &&
      db.audit == old(db.audit) + StatusAudit(parcelId, status, actor) &&
      em.published == old(em.published) + StatusFanOut(em.io, q.id, q.customerId, q.assignedAgentId,
                                                       StatusPayload(status, note)) &&
      db.notifications == old(db.notifications) +
        (if actor.role == Agent && q.customerId != "" then [AgentUpdateNotice(noticeId, q, status, note, now)] else []) &&
      em.userEvents == old(em.userEvents) +
        (if actor.role == Agent then AgentNoticeEvents(old(db.notifications), noticeId, q, status, note, now) else []) &&
      db.notificationLogs == old(db.notificationLogs) +
        EventLogs(old(db.users), old(db.addresses), q, PARCEL_STATUS_UPDATED,
                  EventContext(Some(status), note, None, None), emailTransport, smsTransport)
    ensures db.users == old(db.users) && db.addresses == old(db.addresses) && db.tracking == old(db.tracking)
    ensures em.io == old(em.io)
  {
    r := UpdateParcelStatus(db, em, parcelId, status, actor, note, now, noticeId, emailTransport, smsTransport);
  }

  /** `recordTrackingPoint(params)`: tracking ingestion with the same
      arguments, so everything `createTracking` promises holds of it. */
  method RecordTrackingPoint(db: Database, em: SocketEmitter, parcelId: Id, agentId: Id, lat: int, lng: int,
                             speed: Option<int>, heading: Option<int>, now: Timestamp) returns (r: Result<TrackingPoint>)
    requires db.Valid()
    modifies db, em
    ensures db.Valid()
    ensures AgentAssignmentCheck(LookupParcel(old(db.parcels), parcelId), agentId).Fail? ==>
      r == Err(AppError(FORBIDDEN, "Parcel not assigned to agent")) && db.tracking == old(db.tracking) &&
      em.published == old(em.published)
    ensures AgentAssignmentCheck(LookupParcel(old(db.parcels), parcelId), agentId) == Pass ==>
      var point := TrackingPoint(parcelId, agentId, lat, lng, speed, heading, now);
      r == Ok(point) && db.tracking == old(db.tracking) + [point] &&
      em.published == old(em.published) + TrackingFanOut(em.io, parcelId, TrackingPayload(point))
    ensures db.users == old(db.users) && db.addresses == old(db.addresses) && db.parcels == old(db.parcels)
    ensures db.history == old(db.history) && db.audit == old(db.audit)
    ensures db.notificationLogs == old(db.notificationLogs) && db.notifications == old(db.notifications)
    ensures em.io == old(em.io) && em.userEvents == old(em.userEvents)
  {
    r := CreateTracking(db, em, parcelId, agentId, lat, lng, speed, heading, now);
  }
}
