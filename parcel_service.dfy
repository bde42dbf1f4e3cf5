/** The parcel lifecycle engine (services/parcel.service.js): the access
    guard, booking, tracking ingestion, the status transition operation and
    the read views over a parcel's history and tracking trail. */
module ParcelService {
  import opened Common
  import opened ParcelModel
  import opened UserModel
  import opened NotificationModel
  import opened StatusMachine
  import opened Templates
  import opened Store
  import opened Emitter
  import opened NotificationService

  /** `ensureParcelAccess(parcel, user)`: who may see a parcel. An admin
      always, a customer iff it is theirs, an agent iff it is assigned to
      them; a missing parcel is let through (the caller reports it), and a
      refusal is always 403. This is the id comparison the guard is meant to
      make, and the one the rest of the model uses; the guard as written
      compares populated documents (`EnsureParcelAccessAsWritten`). */
  function EnsureParcelAccess(parcel: Option<Parcel>, user: Actor): (o: Outcome)
    ensures parcel.None? ==> o == Pass
    ensures parcel.Some? && user.role == Admin ==> o == Pass
    ensures parcel.Some? && user.role == Customer ==> (o == Pass <==> parcel.value.customerId == user.id)
    ensures parcel.Some? && user.role == Agent ==> (o == Pass <==> parcel.value.assignedAgentId == Some(user.id))
    ensures o.Fail? ==> o.error.AppError? && o.error.statusCode == FORBIDDEN
  {
    if parcel.None? then Pass
    else if user.role == Admin then Pass
    else if user.role == Customer && parcel.value.customerId != user.id then
      Fail(AppError(FORBIDDEN, "Parcel not available for this user"))
    else if user.role == Agent && (parcel.value.assignedAgentId.None? || parcel.value.assignedAgentId.value != user.id) then
      Fail(AppError(FORBIDDEN, "Parcel not assigned to this agent"))
    else Pass
  }

  /** The text `toString()` gives for a populated user reference: Mongoose
      prints the document, its `_id` among the selected fields, and never the
      bare id. Only that shape matters here: the id is a proper part of it. */
  function DocumentText(u: User): (t: string)
    ensures |t| > |u.id|
  {
    "{ _id: " + u.id + ", name: '" + u.name + "' }"
  }

  /** `ensureParcelAccess` as written, on a parcel read with
      `populate(parcelInclude)`: `customerId` and `assignedAgentId` then hold
      the referenced user documents (null when no user has the id), and
      `toString()` prints the document. A null customer throws. The owner and
      the assigned agent are refused. */
  function EnsureParcelAccessAsWritten(users: seq<User>, parcel: Option<Parcel>, user: Actor): (o: Outcome)
    ensures parcel.None? || user.role == Admin ==> o == Pass
    ensures parcel.Some? && user.role == Customer && parcel.value.customerId == user.id ==> o.Fail?
    ensures parcel.Some? && user.role == Agent && parcel.value.assignedAgentId == Some(user.id) ==>
      o == Fail(AppError(FORBIDDEN, "Parcel not assigned to this agent"))
  {
    if parcel.None? then Pass
    else if user.role == Admin then Pass
    else
      var customer := LookupUser(users, parcel.value.customerId);
      var agent := if parcel.value.assignedAgentId.Some? then LookupUser(users, parcel.value.assignedAgentId.value) else None;
      if user.role == Customer && customer.None? then Fail(NullReference("toString"))
      else if user.role == Customer && DocumentText(customer.value) != user.id then
        Fail(AppError(FORBIDDEN, "Parcel not available for this user"))
      else if user.role == Agent && (agent.None? || DocumentText(agent.value) != user.id) then
        Fail(AppError(FORBIDDEN, "Parcel not assigned to this agent"))
      else Pass
  }

  /** The discrepancy: every owning customer and every assigned agent passes
      the id comparison the guard is meant to make, and is refused by the
      guard as written. */
  lemma OwnerRefusedAsWritten(users: seq<User>, parcel: Parcel, user: Actor)
    requires (user.role == Customer && parcel.customerId == user.id) ||
             (user.role == Agent && parcel.assignedAgentId == Some(user.id))
    ensures EnsureParcelAccess(Some(parcel), user) == Pass
    ensures EnsureParcelAccessAsWritten(users, Some(parcel), user).Fail?
  {
  }

  const PARCEL_NOT_FOUND: ServiceError := AppError(NOT_FOUND, "Parcel not found")

  /** A parcel that is missing or soft-deleted counts as not found. */
  predicate Live(parcel: Option<Parcel>) {
    parcel.Some? && parcel.value.deletedAt.None?
  }

  /** `findParcelForUser(id, user)`. */
  function FindParcelForUser(parcels: seq<Parcel>, id: Id, user: Actor): (r: Result<Parcel>)
    ensures r.Ok? <==> Live(LookupParcel(parcels, id)) && EnsureParcelAccess(LookupParcel(parcels, id), user) == Pass
    ensures r.Ok? ==> r.value.id == id && r.value in parcels
    ensures !Live(LookupParcel(parcels, id)) ==> r == Err(PARCEL_NOT_FOUND)
  {
    var parcel := LookupParcel(parcels, id);
    if !Live(parcel) then Err(PARCEL_NOT_FOUND)
    else match EnsureParcelAccess(parcel, user)
      case Fail(e) => Err(e)
      case Pass => Ok(parcel.value)
  }

  // ----- status transitions -----

  /** The checks of `updateParcelStatus`, in order: not found, then (for
      agents only) the assignment guard, then the transition table. */
  function StatusUpdateCheck(parcel: Option<Parcel>, nextStatus: string, actor: Actor): Outcome {
    if !Live(parcel) then Fail(PARCEL_NOT_FOUND)
    else if actor.role == Agent && EnsureParcelAccess(parcel, actor).Fail? then EnsureParcelAccess(parcel, actor)
    else if !CanTransition(parcel.value.status, nextStatus) then
      Fail(AppError(BAD_REQUEST, "Invalid status change from " + StatusName(parcel.value.status) + " to " + nextStatus))
    else Pass
  }

  /** The checks pass exactly for a live parcel, an actor who is no agent or
      is the assigned agent, and an allowed move; which check fails first
      decides the error. */
  lemma StatusUpdateCheckCases(parcel: Option<Parcel>, nextStatus: string, actor: Actor)
    ensures StatusUpdateCheck(parcel, nextStatus, actor) == Pass <==>
      Live(parcel) && (actor.role == Agent ==> parcel.value.assignedAgentId == Some(actor.id)) &&
      CanTransition(parcel.value.status, nextStatus)
    ensures !Live(parcel) ==> StatusUpdateCheck(parcel, nextStatus, actor) == Fail(PARCEL_NOT_FOUND)
    ensures Live(parcel) && actor.role == Agent && parcel.value.assignedAgentId != Some(actor.id) ==>
      StatusUpdateCheck(parcel, nextStatus, actor) == Fail(AppError(FORBIDDEN, "Parcel not assigned to this agent"))
    ensures (Live(parcel) && (actor.role == Agent ==> parcel.value.assignedAgentId == Some(actor.id)) &&
             !CanTransition(parcel.value.status, nextStatus)) ==>
      StatusUpdateCheck(parcel, nextStatus, actor) ==
        Fail(AppError(BAD_REQUEST, "Invalid status change from " + StatusName(parcel.value.status) + " to " + nextStatus))
  {
  }

  /** The parcel after `updateParcelStatus` has assigned its fields: the new
      status, a delivery time only when delivered (otherwise the old one), and
      the note as failure reason only when failed (otherwise none). */
  function Transitioned(p: Parcel, next: ParcelStatus, note: Option<string>, now: Timestamp): (q: Parcel)
    ensures q.status == next
    ensures q.deliveredAt == (if next == Delivered then Some(now) else p.deliveredAt)
    ensures q.failureReason == (if next == Failed then note else None)
    ensures q.(status := p.status, deliveredAt := p.deliveredAt, failureReason := p.failureReason) == p
  {
    p.(status := next,
       deliveredAt := if next == Delivered then Some(now) else p.deliveredAt,
       failureReason := if next == Failed then note else None)
  }

  /** A delivery time only on a delivered parcel, a failure reason only on a
      failed one. */
  predicate LifecycleConsistent(p: Parcel) {
    (p.deliveredAt.Some? ==> p.status == Delivered) && (p.failureReason.Some? ==> p.status == Failed)
  }

  /** Every allowed transition keeps a parcel lifecycle-consistent: a parcel
      with a delivery time is DELIVERED, which has no way out. */
  lemma TransitionKeepsConsistent(p: Parcel, nextStatus: string, note: Option<string>, now: Timestamp)
    requires LifecycleConsistent(p) && CanTransition(p.status, nextStatus)
    ensures LifecycleConsistent(Transitioned(p, ParseStatus(nextStatus).value, note, now))
  {
  }

  /** The history record of one status change. */
  function ChangeRecord(parcelId: Id, status: string, note: Option<string>, actor: Actor, now: Timestamp)
    : StatusHistoryRecord
  {
    StatusHistoryRecord(parcelId, status, note, actor.id, now)
  }

  /** The audit entries of one status change: one for an admin, none otherwise. */
  function StatusAudit(parcelId: Id, nextStatus: string, actor: Actor): (es: seq<AuditEntry>)
    ensures |es| == (if actor.role == Admin then 1 else 0)
    ensures actor.role == Admin ==>
      es[0] == AuditEntry(actor.id, "PARCEL_STATUS_UPDATED", StatusChange(parcelId, nextStatus))
  {
    if actor.role == Admin then [AuditEntry(actor.id, "PARCEL_STATUS_UPDATED", StatusChange(parcelId, nextStatus))]
    else []
  }

  /** The in-app notification an agent's status change sends the customer. */
  function AgentUpdateNotice(id: Id, q: Parcel, nextStatus: string, note: Option<string>, now: Timestamp)
    : UserNotification
  {
    NewNotification(id, q.customerId, "CUSTOMER", PARCEL_STATUS_UPDATED, "Parcel is now " + nextStatus,
                    Some("Parcel " + q.trackingCode + " is now " + nextStatus),
                    ParcelUpdate(q.id, q.trackingCode, nextStatus, note), now)
  }

  /** The user event an agent's notice hands to the socket layer: the
      serialized notice with the customer's unread count once it is stored;
      nothing when the parcel has no customer. */
  function AgentNoticeEvents(before: seq<UserNotification>, id: Id, q: Parcel, nextStatus: string,
                             note: Option<string>, now: Timestamp): (es: seq<UserEvent>)
    ensures |es| == (if q.customerId != "" then 1 else 0)
    ensures q.customerId != "" ==>
      es[0].userId == q.customerId && es[0].role == "CUSTOMER" &&
      es[0].notification == Serialize(AgentUpdateNotice(id, q, nextStatus, note, now)) &&
      es[0].unreadCount == UnreadCount(before, q.customerId) + 1
  {
    if q.customerId == "" then []
    else
      var n := AgentUpdateNotice(id, q, nextStatus, note, now);
      UnreadCountAppend(before, n, q.customerId);
      [UserEvent(q.customerId, "CUSTOMER", Serialize(n), UnreadCount(before + [n], q.customerId))]
  }

  /** The database sequences, compared as a whole. */
  datatype Snapshot = Snapshot(
    users: seq<User>, addresses: seq<Address>, parcels: seq<Parcel>, history: seq<StatusHistoryRecord>,
    tracking: seq<TrackingPoint>, audit: seq<AuditEntry>, notificationLogs: seq<NotificationLogEntry>,
    notifications: seq<UserNotification>)

  function SnapshotOf(db: Database): Snapshot
    reads db
  {
    Snapshot(db.users, db.addresses, db.parcels, db.history, db.tracking, db.audit, db.notificationLogs,
             db.notifications)
  }

  /** `updateParcelStatus({parcelId, nextStatus, actor, note})`. A failed check
      throws before anything is written or published. Otherwise the parcel's
      fields are assigned and saved, one history record is appended, an audit
      entry for an admin, the status event is published, an agent's change
      notifies the customer in-app, and the customer notification runs. */
  method UpdateParcelStatus(db: Database, em: SocketEmitter, parcelId: Id, nextStatus: string, actor: Actor,
                            note: Option<string>, now: Timestamp, noticeId: Id,
                            emailTransport: SendOutcome, smsTransport: SendOutcome) returns (r: Result<Parcel>)
    requires db.Valid() && db.FreshId(noticeId)
    modifies db, em
    ensures db.Valid()
    ensures var check := StatusUpdateCheck(LookupParcel(old(db.parcels), parcelId), nextStatus, actor);
      check.Fail? ==>
        (r == Err(check.error) && SnapshotOf(db) == old(SnapshotOf(db)) &&
         em.published == old(em.published) && em.userEvents == old(em.userEvents))
    ensures var parcel := LookupParcel(old(db.parcels), parcelId);
      StatusUpdateCheck(parcel, nextStatus, actor) == Pass ==>
      var i := FindParcel(old(db.parcels), parcelId).value;
      var q := Transitioned(parcel.value, ParseStatus(nextStatus).value, note, now);
      r == Ok(q) &&
      db.parcels == old(db.parcels)[i := q] &&
      db.history == old(db.history) + [ChangeRecord(parcelId, nextStatus, note, actor, now)] &&
      db.audit == old(db.audit) + StatusAudit(parcelId, nextStatus, actor) &&
      em.published == old(em.published) + StatusFanOut(em.io, q.id, q.customerId, q.assignedAgentId,
                                                       StatusPayload(nextStatus, note)) &&
      db.notifications == old(db.notifications) +
        (if actor.role == Agent && q.customerId != "" then [AgentUpdateNotice(noticeId, q, nextStatus, note, now)] else []) &&
      em.userEvents == old(em.userEvents) +
        (if actor.role == Agent then AgentNoticeEvents(old(db.notifications), noticeId, q, nextStatus, note, now) else []) &&
      db.notificationLogs == old(db.notificationLogs) +
        EventLogs(old(db.users), old(db.addresses), q, PARCEL_STATUS_UPDATED,
                  EventContext(Some(nextStatus), note, None, None), emailTransport, smsTransport)
    ensures db.users == old(db.users) && db.addresses == old(db.addresses) && db.tracking == old(db.tracking)
    ensures em.io == old(em.io)
  {
    var found := FindParcel(db.parcels, parcelId);
    var parcel := LookupParcel(db.parcels, parcelId);
    var check := StatusUpdateCheck(parcel, nextStatus, actor);
    if check.Fail? {
      return Err(check.error);
    }
    var i := found.value;
    var q := Transitioned(parcel.value, ParseStatus(nextStatus).value, note, now);
    SaveStatusChange(db, em, i, q, nextStatus, actor, note, now);
    if actor.role == Agent {
      NoticeCustomer(db, em, q, nextStatus, note, noticeId, now);
    }
    NotifyParcelEvent(db, q, PARCEL_STATUS_UPDATED, EventContext(Some(nextStatus), note, None, None),
                      emailTransport, smsTransport);
    r := Ok(q);
  }

  /** The first writes of a status change that has passed its checks: save
      the parcel at index `i`, then the history record, an admin's audit
      entry and the status fan-out. */
  method SaveStatusChange(db: Database, em: SocketEmitter, i: nat, q: Parcel, nextStatus: string, actor: Actor,
                          note: Option<string>, now: Timestamp)
    requires db.Valid()
    requires i < |db.parcels| && q.id == db.parcels[i].id && q.trackingCode == db.parcels[i].trackingCode
    modifies db, em
    ensures db.Valid()
    ensures db.parcels == old(db.parcels)[i := q]
    ensures db.history == old(db.history) + [ChangeRecord(q.id, nextStatus, note, actor, now)]
    ensures db.audit == old(db.audit) + StatusAudit(q.id, nextStatus, actor)
    ensures em.published == old(em.published) + StatusFanOut(em.io, q.id, q.customerId, q.assignedAgentId,
                                                              StatusPayload(nextStatus, note))
    ensures db.users == old(db.users) && db.addresses == old(db.addresses) && db.tracking == old(db.tracking)
    ensures db.notifications == old(db.notifications) && db.notificationLogs == old(db.notificationLogs)
    ensures em.io == old(em.io) && em.userEvents == old(em.userEvents)
  {
    ReplaceKeepsUnique(db.parcels, i, q);
    db.parcels := db.parcels[i := q];

    db.history := db.history + [ChangeRecord(q.id, nextStatus, note, actor, now)];
    if actor.role == Admin {
      db.audit := db.audit + [AuditEntry(actor.id, "PARCEL_STATUS_UPDATED", StatusChange(q.id, nextStatus))];
    }
    em.EmitParcelStatus(q.id, q.customerId, q.assignedAgentId, StatusPayload(nextStatus, note));
  }

  /** The in-app notice an agent's status change sends the parcel's customer
      (none when the parcel has no customer id). */
  method NoticeCustomer(db: Database, em: SocketEmitter, q: Parcel, nextStatus: string, note: Option<string>,
                        noticeId: Id, now: Timestamp)
    requires db.Valid() && db.FreshId(noticeId)
    modifies db, em
    ensures db.Valid()
    ensures db.notifications == old(db.notifications) +
      (if q.customerId != "" then [AgentUpdateNotice(noticeId, q, nextStatus, note, now)] else [])
    ensures em.userEvents == old(em.userEvents) + AgentNoticeEvents(old(db.notifications), noticeId, q, nextStatus, note, now)
    ensures db.users == old(db.users) && db.addresses == old(db.addresses) && db.parcels == old(db.parcels)
    ensures db.history == old(db.history) && db.tracking == old(db.tracking) && db.audit == old(db.audit)
    ensures db.notificationLogs == old(db.notificationLogs)
    ensures em.io == old(em.io) && em.published == old(em.published)
  {
    var title := "Parcel is now " + nextStatus;
    assert title != "" by {
      assert |title| >= |"Parcel is now "|;
    }
    var _ := CreateUserNotification(db, em, q.customerId, "CUSTOMER", PARCEL_STATUS_UPDATED, title,
                                    Some("Parcel " + q.trackingCode + " is now " + nextStatus),
                                    ParcelUpdate(q.id, q.trackingCode, nextStatus, note), noticeId, now);
  }

  // ----- booking -----

  /** The address part of a booking payload (`payload.pickupAddress`). */
  datatype AddressInput = AddressInput(fullAddress: string)

  /** The booking request body. */
  datatype BookingPayload = BookingPayload(
    pickupAddress: AddressInput,
    deliveryAddress: AddressInput,
    parcelType: string,
    parcelSize: string,
    weight: Option<int>,
    paymentType: string,
    codAmount: Option<int>,
    scheduledPickupAt: Option<Timestamp>)

  /** The document `createParcelBooking` hands to `Parcel.create`. */
  function BookingDocument(customerId: Id, payload: BookingPayload, payment: PaymentType, trackingCode: string,
                           parcelId: Id, pickupId: Id, deliveryId: Id): ParcelDocument
  {
    ParcelDocument(parcelId, trackingCode, customerId, pickupId, deliveryId, payload.parcelType, payload.parcelSize,
                   payload.weight, payment, if payment == Prepaid then Some(0) else payload.codAmount, None,
                   payload.scheduledPickupAt, Some(trackingCode), Some(trackingCode))
  }

  /** The parcel a booking stores: BOOKED, no agent, no delivery time or
      failure reason; a prepaid parcel carries no cash on delivery and a COD
      parcel the amount given (0 when none); both scan codes are the tracking
      code. */
  lemma BookedParcelRules(customerId: Id, payload: BookingPayload, payment: PaymentType, trackingCode: string,
                          parcelId: Id, pickupId: Id, deliveryId: Id)
    ensures var p := ApplySchemaDefaults(BookingDocument(customerId, payload, payment, trackingCode, parcelId,
                                                         pickupId, deliveryId));
      p.status == Booked && p.assignedAgentId.None? && p.deletedAt.None? &&
      (payment == Prepaid ==> p.codAmount == 0) &&
      (payment == COD ==> p.codAmount == payload.codAmount.GetOr(0)) &&
      p.qrCodeData == Some(trackingCode) && p.barcodeData == Some(trackingCode) &&
      p.trackingCode == trackingCode && p.customerId == customerId && LifecycleConsistent(p)
  {
  }

  /** `createParcelBooking(customerId, payload)`. The tracking code is the one
      generated for this call. An unknown payment type throws before anything
      is created; a tracking code that is already taken makes `Parcel.create`
      throw after both addresses exist. */
  method CreateParcelBooking(db: Database, em: SocketEmitter, customerId: Id, payload: BookingPayload,
                             trackingCode: string, parcelId: Id, pickupId: Id, deliveryId: Id, now: Timestamp,
                             emailTransport: SendOutcome, smsTransport: SendOutcome) returns (r: Result<Parcel>)
    requires db.Valid() && db.FreshId(parcelId)
    requires db.FreshId(pickupId) && db.FreshId(deliveryId)
    requires parcelId != pickupId && parcelId != deliveryId && pickupId != deliveryId
    modifies db, em
    ensures db.Valid()
    ensures ParsePayment(payload.paymentType).None? ==>
      (r == Err(AppError(BAD_REQUEST, "Invalid payment type")) && SnapshotOf(db) == old(SnapshotOf(db)) &&
       em.published == old(em.published))
    ensures ParsePayment(payload.paymentType).Some? ==>
      db.addresses == old(db.addresses) + [Address(pickupId, customerId, payload.pickupAddress.fullAddress),
                                           Address(deliveryId, customerId, payload.deliveryAddress.fullAddress)]
    ensures ParsePayment(payload.paymentType).Some? && TrackingCodeTaken(old(db.parcels), trackingCode) ==>
      (r == Err(DuplicateKey("trackingCode", trackingCode)) && db.parcels == old(db.parcels) &&
       db.history == old(db.history) && db.notificationLogs == old(db.notificationLogs) &&
       em.published == old(em.published))
    ensures ParsePayment(payload.paymentType).Some? && !TrackingCodeTaken(old(db.parcels), trackingCode) ==>
      (var p := ApplySchemaDefaults(BookingDocument(customerId, payload, ParsePayment(payload.paymentType).value,
                                                    trackingCode, parcelId, pickupId, deliveryId));
       r == Ok(p) && db.parcels == old(db.parcels) + [p] &&
       db.history == old(db.history) + [StatusHistoryRecord(parcelId, "BOOKED", Some("Booking created"), customerId, now)] &&
       em.published == old(em.published) + StatusFanOut(em.io, parcelId, customerId, None, StatusPayload("BOOKED", None)) &&
       db.notificationLogs == old(db.notificationLogs) +
         EventLogs(old(db.users), db.addresses, p, PARCEL_BOOKED,
                   EventContext(None, None, p.scheduledPickupAt, None), emailTransport, smsTransport))
    ensures db.users == old(db.users) && db.tracking == old(db.tracking) && db.audit == old(db.audit)
    ensures db.notifications == old(db.notifications)
    ensures em.io == old(em.io) && em.userEvents == old(em.userEvents)
  {
    var payment := ParsePayment(payload.paymentType);
    if payment.None? {
      return Err(AppError(BAD_REQUEST, "Invalid payment type"));
    }
    db.addresses := db.addresses + [Address(pickupId, customerId, payload.pickupAddress.fullAddress),
                                    Address(deliveryId, customerId, payload.deliveryAddress.fullAddress)];

    var taken := FindFirst(db.parcels, (q: Parcel) => q.trackingCode == trackingCode);
    if taken.Some? {
      return Err(DuplicateKey("trackingCode", trackingCode));
    }
    var p := ApplySchemaDefaults(BookingDocument(customerId, payload, payment.value, trackingCode, parcelId,
                                                 pickupId, deliveryId));
    SaveBooking(db, em, p, now);
    NotifyParcelEvent(db, p, PARCEL_BOOKED, EventContext(None, None, p.scheduledPickupAt, None),
                      emailTransport, smsTransport);
    r := Ok(p);
  }

  /** The first writes of a booking whose checks passed: the parcel, its
      BOOKED history record and the status fan-out. */
  method SaveBooking(db: Database, em: SocketEmitter, p: Parcel, now: Timestamp)
    requires db.Valid()
    requires (forall j :: 0 <= j < |db.parcels| ==> db.parcels[j].id != p.id) &&
             !TrackingCodeTaken(db.parcels, p.trackingCode)
    modifies db, em
    ensures db.Valid()
    ensures db.parcels == old(db.parcels) + [p]
    ensures db.history == old(db.history) + [StatusHistoryRecord(p.id, "BOOKED", Some("Booking created"), p.customerId, now)]
    ensures em.published == old(em.published) + StatusFanOut(em.io, p.id, p.customerId, None, StatusPayload("BOOKED", None))
    ensures db.users == old(db.users) && db.addresses == old(db.addresses) && db.tracking == old(db.tracking)
    ensures db.audit == old(db.audit) && db.notifications == old(db.notifications)
    ensures db.notificationLogs == old(db.notificationLogs)
    ensures em.io == old(em.io) && em.userEvents == old(em.userEvents)
  {
    AppendKeepsUnique(db.parcels, p);
    db.parcels := db.parcels + [p];

    db.history := db.history + [StatusHistoryRecord(p.id, "BOOKED", Some("Booking created"), p.customerId, now)];
    em.EmitParcelStatus(p.id, p.customerId, None, StatusPayload("BOOKED", None));
  }

  // ----- tracking -----

  /** The guard of `createTracking`: the parcel must exist and be assigned to
      exactly this agent (a deleted parcel is not excluded). */
  function AgentAssignmentCheck(parcel: Option<Parcel>, agentId: Id): (o: Outcome)
    ensures o == Pass <==> parcel.Some? && parcel.value.assignedAgentId == Some(agentId)
    ensures o.Fail? ==> o.error == AppError(FORBIDDEN, "Parcel not assigned to agent")
  {
    if parcel.None? || parcel.value.assignedAgentId != Some(agentId) then
      Fail(AppError(FORBIDDEN, "Parcel not assigned to agent"))
    else Pass
  }

  /** `createTracking({parcelId, agentId, lat, lng, speed, heading})`: one new
      point, published only to the parcel's room. */
  method CreateTracking(db: Database, em: SocketEmitter, parcelId: Id, agentId: Id, lat: int, lng: int,
                        speed: Option<int>, heading: Option<int>, now: Timestamp) returns (r: Result<TrackingPoint>)
    requires db.Valid()
    modifies db, em
    ensures db.Valid()
    ensures AgentAssignmentCheck(LookupParcel(old(db.parcels), parcelId), agentId).Fail? ==>
      r == Err(AppError(FORBIDDEN, "Parcel not assigned to agent")) && db.tracking == old(db.tracking) &&
      em.published == old(em.published)
    ensures AgentAssignmentCheck(LookupParcel(old(db.parcels), parcelId), agentId) == Pass ==>
      var point := TrackingPoint(parcelId, agentId, lat, lng, speed, heading, now);
      r == Ok(point) && db.tracking == old(db.tracking) + [point] &&
      em.published == old(em.published) + TrackingFanOut(em.io, parcelId, TrackingPayload(point))
    ensures db.users == old(db.users) && db.addresses == old(db.addresses) && db.parcels == old(db.parcels)
    ensures db.history == old(db.history) && db.audit == old(db.audit)
    ensures db.notificationLogs == old(db.notificationLogs) && db.notifications == old(db.notifications)
    ensures em.io == old(em.io) && em.userEvents == old(em.userEvents)
  {
    var parcel := LookupParcel(db.parcels, parcelId);
    var check := AgentAssignmentCheck(parcel, agentId);
    if check.Fail? {
      return Err(check.error);
    }
    var point := TrackingPoint(parcelId, agentId, lat, lng, speed, heading, now);
    db.tracking := db.tracking + [point];
    em.EmitTrackingPoint(parcelId, TrackingPayload(point));
    r := Ok(point);
  }

  /** `{ latest, history }` of a tracking trail. */
  datatype TrackingFeed = TrackingFeed(latest: Option<TrackingPoint>, history: seq<TrackingPoint>)

  /** A parcel's tracking points, oldest first (`TrackingPoint.find({parcelId})`). */
  function TrailOf(tracking: seq<TrackingPoint>, parcelId: Id): (r: seq<TrackingPoint>)
    ensures forall i :: 0 <= i < |r| ==> r[i] in tracking && r[i].parcelId == parcelId
    ensures forall i :: 0 <= i < |tracking| && tracking[i].parcelId == parcelId ==> tracking[i] in r
  {
    Where(tracking, (t: TrackingPoint) => t.parcelId == parcelId)
  }

  /** The newest `n` points of a parcel, newest first, and the first of them. */
  function FeedOf(tracking: seq<TrackingPoint>, parcelId: Id, n: nat): (f: TrackingFeed)
    ensures |f.history| == (if n == 0 || |TrailOf(tracking, parcelId)| < n then |TrailOf(tracking, parcelId)| else n)
    ensures forall i :: 0 <= i < |f.history| ==>
      f.history[i] == TrailOf(tracking, parcelId)[|TrailOf(tracking, parcelId)| - 1 - i]
    ensures forall i :: 0 <= i < |f.history| ==> f.history[i] in tracking && f.history[i].parcelId == parcelId
    ensures f.latest == (if f.history == [] then None else Some(f.history[0]))
  {
    var trail := TrailOf(tracking, parcelId);
    var history := Limit(NewestFirst(trail), n);
    NewestPrefix(trail, n);
    TrackingFeed(if history == [] then None else Some(history[0]), history)
  }

  /** `getTrackingFeed(parcelId, user)`: at most 20 points, newest first. */
  function GetTrackingFeed(parcels: seq<Parcel>, tracking: seq<TrackingPoint>, parcelId: Id, user: Actor)
    : (r: Result<TrackingFeed>)
    ensures FindParcelForUser(parcels, parcelId, user).Err? ==> r == Err(FindParcelForUser(parcels, parcelId, user).error)
    ensures FindParcelForUser(parcels, parcelId, user).Ok? ==> r.Ok?
    ensures r.Ok? ==> r.value == FeedOf(tracking, parcelId, 20) && |r.value.history| <= 20
  {
    match FindParcelForUser(parcels, parcelId, user)
    case Err(e) => Err(e)
    case Ok(_) => Ok(FeedOf(tracking, parcelId, 20))
  }

  /** A parcel's status history, newest first. */
  function HistoryOf(history: seq<StatusHistoryRecord>, parcelId: Id): (h: seq<StatusHistoryRecord>)
    ensures forall i :: 0 <= i < |h| ==> h[i] in history && h[i].parcelId == parcelId
    ensures forall i :: 0 <= i < |history| && history[i].parcelId == parcelId ==> history[i] in h
  {
    var own := Where(history, (e: StatusHistoryRecord) => e.parcelId == parcelId);
    var h := NewestFirst(own);
    assert forall k :: 0 <= k < |own| ==> own[k] == h[|own| - 1 - k];
    h
  }

  /** A status change puts its record at the head of the parcel's history. */
  lemma ChangeIsNewest(history: seq<StatusHistoryRecord>, record: StatusHistoryRecord)
    ensures HistoryOf(history + [record], record.parcelId)[0] == record
    ensures HistoryOf(history + [record], record.parcelId)[1..] == HistoryOf(history, record.parcelId)
  {
    var p := (e: StatusHistoryRecord) => e.parcelId == record.parcelId;
    WhereAppend(history, record, p);
    NewestFirstAppend(Where(history, p), record);
  }

  /** `getStatusHistory(parcelId, user)`. */
  function GetStatusHistory(parcels: seq<Parcel>, history: seq<StatusHistoryRecord>, parcelId: Id, user: Actor)
    : (r: Result<seq<StatusHistoryRecord>>)
    ensures FindParcelForUser(parcels, parcelId, user).Err? ==> r == Err(FindParcelForUser(parcels, parcelId, user).error)
    ensures FindParcelForUser(parcels, parcelId, user).Ok? ==> r.Ok?
    ensures r.Ok? ==> r.value == HistoryOf(history, parcelId)
  {
    match FindParcelForUser(parcels, parcelId, user)
    case Err(e) => Err(e)
    case Ok(_) => Ok(HistoryOf(history, parcelId))
  }

  /** `Parcel.findOne({ trackingCode, deletedAt: null })`, as an index. */
  function FindLiveByCode(parcels: seq<Parcel>, trackingCode: string): Option<nat> {
    FindFirst(parcels, (p: Parcel) => p.trackingCode == trackingCode && p.deletedAt.None?)
  }

  /** What `getParcelTrackingByCode` returns. */
  datatype TrackingView = TrackingView(parcel: Parcel, history: seq<StatusHistoryRecord>, tracking: TrackingFeed)

  /** `getParcelTrackingByCode(trackingCode, user)`: the live parcel with that
      code, its whole history and its newest 50 points. */
  function GetParcelTrackingByCode(parcels: seq<Parcel>, history: seq<StatusHistoryRecord>,
                                   tracking: seq<TrackingPoint>, trackingCode: string, user: Actor)
    : (r: Result<TrackingView>)
    ensures (forall i :: 0 <= i < |parcels| ==> !(parcels[i].trackingCode == trackingCode && parcels[i].deletedAt.None?))
      ==> r == Err(PARCEL_NOT_FOUND)
    ensures FindLiveByCode(parcels, trackingCode).Some? ==>
      var p := parcels[FindLiveByCode(parcels, trackingCode).value];
      (EnsureParcelAccess(Some(p), user) == Pass ==> r.Ok? && r.value.parcel == p) &&
      (EnsureParcelAccess(Some(p), user).Fail? ==> r == Err(EnsureParcelAccess(Some(p), user).error))
    ensures r.Ok? ==>
      (r.value.parcel in parcels && r.value.parcel.trackingCode == trackingCode &&
       r.value.parcel.deletedAt.None? && EnsureParcelAccess(Some(r.value.parcel), user) == Pass &&
       r.value.history == HistoryOf(history, r.value.parcel.id) &&
       r.value.tracking == FeedOf(tracking, r.value.parcel.id, 50) && |r.value.tracking.history| <= 50)
  {
    match FindLiveByCode(parcels, trackingCode)
    case None => Err(PARCEL_NOT_FOUND)
    case Some(i) =>
      var parcel := parcels[i];
      match EnsureParcelAccess(Some(parcel), user)
      case Fail(e) => Err(e)
      case Pass => Ok(TrackingView(parcel, HistoryOf(history, parcel.id), FeedOf(tracking, parcel.id, 50)))
  }
}
