/** The notification pipeline (services/notification.service.js): channel
    dispatch with its log entry, the per-event channel choice, and the in-app
    notifications a user creates, reads and clears. The e-mail and SMS
    transports are outside the model: their results are inputs. */
module NotificationService {
  import opened Common
  import opened ParcelModel
  import opened UserModel
  import opened NotificationModel
  import opened Templates
  import opened Store
  import opened Emitter

  /** What a channel action settles with: an object with an optional `status`
      and `providerMessageId`, or a thrown error. */
  datatype SendOutcome = Resolved(status: Option<string>, providerMessageId: Option<string>) | Threw

  /** The e-mail action `sendEmail(...).then(() => ({ status: "SENT" }))`:
      whatever the transport resolves with becomes `{status: "SENT"}`. */
  function EmailAction(transport: SendOutcome): (r: SendOutcome)
    ensures r.Threw? <==> transport.Threw?
    ensures r.Resolved? ==> r.status == Some("SENT") && r.providerMessageId.None?
  {
    if transport.Threw? then Threw else Resolved(Some("SENT"), None)
  }

  /** The log entry `dispatchChannel` writes for one action result: FAILED when
      the action threw or reported FAILED, SENT for every other result. */
  function DispatchLogEntry(parcelId: Id, recipient: string, templateKey: string, channel: Channel,
                            result: SendOutcome): (e: NotificationLogEntry)
    ensures e.status == LogFailed <==> result.Threw? || result.status == Some("FAILED")
    ensures e.parcelId == parcelId && e.recipient == recipient && e.templateKey == templateKey && e.channel == channel
    ensures e.providerMessageId == (if result.Resolved? then result.providerMessageId else None)
  {
    match result
    case Threw => NotificationLogEntry(parcelId, channel, recipient, templateKey, LogFailed, None)
    case Resolved(status, id) =>
      NotificationLogEntry(parcelId, channel, recipient, templateKey,
                           if status == Some("FAILED") then LogFailed else Sent, id)
  }

  /** A transport that skipped the message is logged as SENT. */
  lemma SkippedIsLoggedAsSent(parcelId: Id, recipient: string, templateKey: string, channel: Channel,
                              id: Option<string>)
    ensures DispatchLogEntry(parcelId, recipient, templateKey, channel, Resolved(Some("SKIPPED"), id)).status == Sent
  {
  }

  /** One channel `notifyParcelEvent` decided to use. */
  datatype Dispatch = Dispatch(channel: Channel, recipient: string)

  /** `customer.email && rendered.emailSubject && rendered.emailHtml`. */
  predicate EmailEligible(customer: User, rendered: Rendered) {
    customer.email != "" && rendered.emailSubject != "" && rendered.emailHtml != ""
  }

  /** `customer.phone && rendered.smsText`. */
  predicate SmsEligible(customer: User, rendered: Rendered) {
    Truthy(customer.phone) && rendered.smsText != ""
  }

  /** The channels of one event, in push order: e-mail iff it is eligible,
      then SMS iff it is eligible; no channel twice. */
  function PlannedDispatches(customer: User, rendered: Rendered): (ds: seq<Dispatch>)
    ensures |ds| == (if EmailEligible(customer, rendered) then 1 else 0) + (if SmsEligible(customer, rendered) then 1 else 0)
    ensures EmailEligible(customer, rendered) ==> ds[0] == Dispatch(Email, customer.email)
    ensures SmsEligible(customer, rendered) ==> ds[|ds| - 1] == Dispatch(Sms, customer.phone.value)
    ensures !EmailEligible(customer, rendered) ==> forall i :: 0 <= i < |ds| ==> ds[i].channel != Email
    ensures !SmsEligible(customer, rendered) ==> forall i :: 0 <= i < |ds| ==> ds[i].channel != Sms
  {
    (if EmailEligible(customer, rendered) then [Dispatch(Email, customer.email)] else []) +
    (if SmsEligible(customer, rendered) then [Dispatch(Sms, customer.phone.value)] else [])
  }

  /** The result each channel's action settles with. */
  function ActionResult(channel: Channel, emailTransport: SendOutcome, smsTransport: SendOutcome): SendOutcome {
    if channel == Email then EmailAction(emailTransport) else smsTransport
  }

  /** The log entries the dispatches of one event write, one per dispatch. */
  function DispatchLogs(ds: seq<Dispatch>, parcelId: Id, templateKey: string,
                        emailTransport: SendOutcome, smsTransport: SendOutcome): (logs: seq<NotificationLogEntry>)
    ensures |logs| == |ds|
    ensures forall i :: 0 <= i < |ds| ==>
      logs[i].channel == ds[i].channel && logs[i].recipient == ds[i].recipient &&
      logs[i].parcelId == parcelId && logs[i].templateKey == templateKey
  {
    seq(|ds|, i requires 0 <= i < |ds| =>
      DispatchLogEntry(parcelId, ds[i].recipient, templateKey, ds[i].channel,
                       ActionResult(ds[i].channel, emailTransport, smsTransport)))
  }

  /** What the caller adds to the template context; `status` falls back to
      the parcel's own status. */
  datatype EventContext = EventContext(
    status: Option<string>, note: Option<string>, scheduledPickupAt: Option<Timestamp>, eta: Option<string>)

  /** The render context of `notifyParcelEvent`: the caller's values, the
      status defaulted from the parcel, and the tracking code, customer name
      and address texts taken from the parcel and its populated references. */
  function MergeContext(parcel: Parcel, customer: User, pickup: Option<Address>, delivery: Option<Address>,
                        context: EventContext): (c: RenderContext)
    ensures c.status == (if context.status.Some? then context.status.value else StatusName(parcel.status))
    ensures c.trackingCode == parcel.trackingCode && c.customerName == customer.name
    ensures c.pickupAddress == (if pickup.Some? then Some(pickup.value.fullAddress) else None)
    ensures c.deliveryAddress == (if delivery.Some? then Some(delivery.value.fullAddress) else None)
    ensures c.note == context.note && c.eta == context.eta && c.scheduledPickupAt == context.scheduledPickupAt
  {
    RenderContext(
      context.status.GetOr(StatusName(parcel.status)),
      context.note,
      parcel.trackingCode,
      customer.name,
      if pickup.Some? then Some(pickup.value.fullAddress) else None,
      if delivery.Some? then Some(delivery.value.fullAddress) else None,
      context.scheduledPickupAt,
      context.eta)
  }

  /** What `notifyParcelEvent` renders for a resolved customer. */
  function EventRendering(parcel: Parcel, customer: User, addresses: seq<Address>, templateKey: string,
                          context: EventContext): Rendered
  {
    Render(templateKey, Some(LanguageName(customer.language)),
           MergeContext(parcel, customer, LookupAddress(addresses, parcel.pickupAddressId),
                        LookupAddress(addresses, parcel.deliveryAddressId), context))
  }

  /** The log entries one `notifyParcelEvent` call writes: none when the
      parcel's customer cannot be resolved, else one per planned channel. */
  function EventLogs(users: seq<User>, addresses: seq<Address>, parcel: Parcel, templateKey: string,
                     context: EventContext, emailTransport: SendOutcome, smsTransport: SendOutcome)
    : seq<NotificationLogEntry>
  {
    match LookupUser(users, parcel.customerId)
    case None => []
    case Some(customer) =>
      DispatchLogs(PlannedDispatches(customer, EventRendering(parcel, customer, addresses, templateKey, context)),
                   parcel.id, templateKey, emailTransport, smsTransport)
  }

  /** Every planned channel is logged, whatever the other channel's action
      did: a thrown e-mail still leaves the SMS entry, and at most one entry
      per channel is written. */
  lemma {:induction false} EventLogsPerChannel(users: seq<User>, addresses: seq<Address>, parcel: Parcel,
                                                templateKey: string, context: EventContext,
                                                emailTransport: SendOutcome, smsTransport: SendOutcome)
    requires LookupUser(users, parcel.customerId).Some?
    ensures var customer := LookupUser(users, parcel.customerId).value;
      var rendered := EventRendering(parcel, customer, addresses, templateKey, context);
      var logs := EventLogs(users, addresses, parcel, templateKey, context, emailTransport, smsTransport);
      |logs| <= 2 &&
      ((exists i :: 0 <= i < |logs| && logs[i].channel == Sms) <==> Truthy(customer.phone) && rendered.smsText != "") &&
      ((exists i :: 0 <= i < |logs| && logs[i].channel == Email) <==>
         customer.email != "" && rendered.emailSubject != "" && rendered.emailHtml != "") &&
      (forall i, j :: 0 <= i < j < |logs| ==> logs[i].channel != logs[j].channel)
  {
    var customer := LookupUser(users, parcel.customerId).value;
    var rendered := EventRendering(parcel, customer, addresses, templateKey, context);
    PlannedLogsPerChannel(customer, rendered, parcel.id, templateKey, emailTransport, smsTransport);
  }

  /** `EventLogsPerChannel` for one customer and one rendering. */
  lemma PlannedLogsPerChannel(customer: User, rendered: Rendered, parcelId: Id, templateKey: string,
                              emailTransport: SendOutcome, smsTransport: SendOutcome)
    ensures var logs := DispatchLogs(PlannedDispatches(customer, rendered), parcelId, templateKey,
                                     emailTransport, smsTransport);
      |logs| <= 2 &&
      ((exists i :: 0 <= i < |logs| && logs[i].channel == Sms) <==> SmsEligible(customer, rendered)) &&
      ((exists i :: 0 <= i < |logs| && logs[i].channel == Email) <==> EmailEligible(customer, rendered)) &&
      (forall i, j :: 0 <= i < j < |logs| ==> logs[i].channel != logs[j].channel)
  {
    var ds := PlannedDispatches(customer, rendered);
    var logs := DispatchLogs(ds, parcelId, templateKey, emailTransport, smsTransport);
    if EmailEligible(customer, rendered) {
      assert logs[0].channel == Email;
    }
    if SmsEligible(customer, rendered) {
      assert logs[|logs| - 1].channel == Sms;
    }
  }

  /** A booking whose customer has an e-mail address always fires the e-mail
      channel: the booking template never renders an empty subject or body. */
  lemma BookingAlwaysEmails(users: seq<User>, addresses: seq<Address>, parcel: Parcel, context: EventContext,
                            emailTransport: SendOutcome, smsTransport: SendOutcome)
    requires LookupUser(users, parcel.customerId).Some?
    requires LookupUser(users, parcel.customerId).value.email != ""
    ensures var logs := EventLogs(users, addresses, parcel, PARCEL_BOOKED, context, emailTransport, smsTransport);
      |logs| >= 1 && logs[0].channel == Email &&
      (logs[0].status == LogFailed <==> emailTransport.Threw?)
  {
    var customer := LookupUser(users, parcel.customerId).value;
    var m := MergeContext(parcel, customer, LookupAddress(addresses, parcel.pickupAddressId),
                          LookupAddress(addresses, parcel.deliveryAddressId), context);
    var rendered := Render(PARCEL_BOOKED, Some(LanguageName(customer.language)), m);
    assert rendered.emailSubject != "" && rendered.emailHtml != "";
  }

  /** `dispatchChannel`: run the action (its result is given) and append the
      one log entry that result calls for; errors are never rethrown. */
  method DispatchChannel(db: Database, parcelId: Id, recipient: string, templateKey: string, channel: Channel,
                         result: SendOutcome)
    modifies db
    ensures db.notificationLogs == old(db.notificationLogs) + [DispatchLogEntry(parcelId, recipient, templateKey, channel, result)]
    ensures db.users == old(db.users) && db.addresses == old(db.addresses) && db.parcels == old(db.parcels)
    ensures db.history == old(db.history) && db.tracking == old(db.tracking) && db.audit == old(db.audit)
    ensures db.notifications == old(db.notifications)
  {
    db.notificationLogs := db.notificationLogs + [DispatchLogEntry(parcelId, recipient, templateKey, channel, result)];
  }

  /** `notifyParcelEvent({parcel, templateKey, context})`: resolve the customer,
      render, push one task per eligible channel, then settle every task in
      order. */
  method NotifyParcelEvent(db: Database, parcel: Parcel, templateKey: string, context: EventContext,
                           emailTransport: SendOutcome, smsTransport: SendOutcome)
    modifies db
    ensures db.notificationLogs == old(db.notificationLogs) +
      EventLogs(old(db.users), old(db.addresses), parcel, templateKey, context, emailTransport, smsTransport)
    ensures db.users == old(db.users) && db.addresses == old(db.addresses) && db.parcels == old(db.parcels)
    ensures db.history == old(db.history) && db.tracking == old(db.tracking) && db.audit == old(db.audit)
    ensures db.notifications == old(db.notifications)
  {
    var found := LookupUser(db.users, parcel.customerId);
    if found.None? {
      return;
    }
    var customer := found.value;
    var rendered := EventRendering(parcel, customer, db.addresses, templateKey, context);
    var tasks := PlannedDispatches(customer, rendered);
    SettleDispatches(db, tasks, parcel.id, templateKey, emailTransport, smsTransport);
  }

  /** `Promise.allSettled(tasks)`: every task runs its channel in push order,
      each leaving its own log entry. */
  method SettleDispatches(db: Database, tasks: seq<Dispatch>, parcelId: Id, templateKey: string,
                          emailTransport: SendOutcome, smsTransport: SendOutcome)
    modifies db
    ensures db.notificationLogs == old(db.notificationLogs) +
      DispatchLogs(tasks, parcelId, templateKey, emailTransport, smsTransport)
    ensures db.users == old(db.users) && db.addresses == old(db.addresses) && db.parcels == old(db.parcels)
    ensures db.history == old(db.history) && db.tracking == old(db.tracking) && db.audit == old(db.audit)
    ensures db.notifications == old(db.notifications)
  {
    ghost var expected := DispatchLogs(tasks, parcelId, templateKey, emailTransport, smsTransport);
    var k := 0;
    while k < |tasks|
      invariant 0 <= k <= |tasks|
      invariant db.notificationLogs == old(db.notificationLogs) + expected[..k]
      invariant db.users == old(db.users) && db.addresses == old(db.addresses) && db.parcels == old(db.parcels)
      invariant db.history == old(db.history) && db.tracking == old(db.tracking) && db.audit == old(db.audit)
      invariant db.notifications == old(db.notifications)
    {
      var t := tasks[k];
      DispatchChannel(db, parcelId, t.recipient, templateKey, t.channel,
                      ActionResult(t.channel, emailTransport, smsTransport));
      assert expected[..k + 1] == expected[..k] + [expected[k]];
      k := k + 1;
    }
    assert expected[..k] == expected;
  }

  /** A notification is created only when owner, role, type and title are all
      given. */
  predicate CanCreateNotification(userId: Id, role: string, kind: string, title: string) {
    userId != "" && role != "" && kind != "" && title != ""
  }

  /** The record `Notification.create` stores: unread, never read. */
  function NewNotification(id: Id, userId: Id, role: string, kind: string, title: string, body: Option<string>,
                           data: NotificationData, now: Timestamp): (n: UserNotification)
    ensures !n.isRead && n.readAt.None? && n.createdAt == now
    ensures n.id == id && n.userId == userId && n.role == role && n.kind == kind && n.title == title
    ensures n.body == body && n.data == data
  {
    UserNotification(id, userId, role, kind, title, body, data, false, None, now)
  }

  /** `createUserNotification`: `None` (null) and no effect when a required
      field is missing; otherwise one new unread record, published together
      with its owner's unread count, which has grown by one. */
  method CreateUserNotification(db: Database, em: SocketEmitter, userId: Id, role: string, kind: string,
                                title: string, body: Option<string>, data: NotificationData,
                                newId: Id, now: Timestamp) returns (r: Option<UserNotification>)
    requires db.Valid() && db.FreshId(newId)
    modifies db, em
    ensures db.Valid()
    ensures !CanCreateNotification(userId, role, kind, title) ==>
      r.None? && db.notifications == old(db.notifications) && em.userEvents == old(em.userEvents)
    ensures CanCreateNotification(userId, role, kind, title) ==>
      var n := NewNotification(newId, userId, role, kind, title, body, data, now);
      r == Some(n) && db.notifications == old(db.notifications) + [n] &&
      em.userEvents == old(em.userEvents) + [UserEvent(userId, role, Serialize(n), UnreadCount(db.notifications, userId))] &&
      UnreadCount(db.notifications, userId) == UnreadCount(old(db.notifications), userId) + 1
    ensures db.users == old(db.users) && db.addresses == old(db.addresses) && db.parcels == old(db.parcels)
    ensures db.history == old(db.history) && db.tracking == old(db.tracking) && db.audit == old(db.audit)
    ensures db.notificationLogs == old(db.notificationLogs)
    ensures em.io == old(em.io) && em.published == old(em.published)
  {
    if !CanCreateNotification(userId, role, kind, title) {
      return None;
    }
    var n := NewNotification(newId, userId, role, kind, title, body, data, now);
    db.notifications := db.notifications + [n];
    UnreadCountAppend(old(db.notifications), n, userId);
    var unreadCount := UnreadCount(db.notifications, userId);
    em.EmitUserNotification(UserEvent(userId, role, Serialize(n), unreadCount));
    r := Some(n);
  }

  /** Marking as read: an unread notification becomes read at `now`; a read
      one is returned as it is. */
  function MarkRead(n: UserNotification, now: Timestamp): (m: UserNotification)
    ensures m.isRead
    ensures m.readAt == (if n.isRead then n.readAt else Some(now))
    ensures m.(isRead := n.isRead, readAt := n.readAt) == n
  {
    if n.isRead then n else n.(isRead := true, readAt := Some(now))
  }

  /** Marking twice keeps the first read time. */
  lemma MarkReadIdempotent(n: UserNotification, first: Timestamp, second: Timestamp)
    ensures MarkRead(MarkRead(n, first), second) == MarkRead(n, first)
  {
  }

  /** `findOne({ _id: notificationId, userId })`. */
  function FindOwnNotification(ns: seq<UserNotification>, notificationId: Id, userId: Id): Option<nat> {
    FindFirst(ns, (n: UserNotification) => n.id == notificationId && n.userId == userId)
  }

  /** What `markNotificationAsRead` returns. */
  datatype ReadReply = ReadReply(notification: SerializedNotification, unreadCount: nat)

  /** `markNotificationAsRead({notificationId, userId})`. */
  method MarkNotificationAsRead(db: Database, notificationId: Id, userId: Id, now: Timestamp)
    returns (r: Result<ReadReply>)
    requires db.Valid()
    modifies db
    ensures db.Valid()
    ensures FindOwnNotification(old(db.notifications), notificationId, userId).None? ==>
      r == Err(AppError(NOT_FOUND, "Notification not found")) && db.notifications == old(db.notifications)
    ensures FindOwnNotification(old(db.notifications), notificationId, userId).Some? ==>
      var i := FindOwnNotification(old(db.notifications), notificationId, userId).value;
      var m := MarkRead(old(db.notifications)[i], now);
      db.notifications == old(db.notifications)[i := m] &&
      r == Ok(ReadReply(Serialize(m), UnreadCount(db.notifications, userId)))
    ensures db.users == old(db.users) && db.addresses == old(db.addresses) && db.parcels == old(db.parcels)
    ensures db.history == old(db.history) && db.tracking == old(db.tracking) && db.audit == old(db.audit)
    ensures db.notificationLogs == old(db.notificationLogs)
  {
    var found := FindOwnNotification(db.notifications, notificationId, userId);
    if found.None? {
      return Err(AppError(NOT_FOUND, "Notification not found"));
    }
    var i := found.value;
    var n := db.notifications[i];
    if !n.isRead {
      n := n.(isRead := true, readAt := Some(now));
      db.notifications := db.notifications[i := n];
    }
    var unreadCount := UnreadCount(db.notifications, userId);
    r := Ok(ReadReply(Serialize(n), unreadCount));
  }

  /** `Notification.updateMany({userId, isRead: false}, {$set: {isRead: true, readAt: now}})`. */
  function MarkAllRead(ns: seq<UserNotification>, userId: Id, now: Timestamp): (ms: seq<UserNotification>)
    ensures |ms| == |ns|
    ensures forall i :: 0 <= i < |ns| ==> ms[i] == (if ns[i].userId == userId then MarkRead(ns[i], now) else ns[i])
    ensures forall i :: 0 <= i < |ns| ==> (ms[i].isRead <==> ns[i].isRead || ns[i].userId == userId)
  {
    seq(|ns|, i requires 0 <= i < |ns| =>
      if ns[i].userId == userId && !ns[i].isRead then ns[i].(isRead := true, readAt := Some(now)) else ns[i])
  }

  /** After the bulk update the user has no unread notification left, so the
      constant 0 the service returns is the true count; nobody else's
      notifications change. */
  lemma MarkAllReadClears(ns: seq<UserNotification>, userId: Id, now: Timestamp)
    ensures UnreadCount(MarkAllRead(ns, userId, now), userId) == 0
    ensures forall i :: 0 <= i < |ns| && ns[i].userId != userId ==> MarkAllRead(ns, userId, now)[i] == ns[i]
    ensures forall other :: other != userId ==>
      UnreadCount(MarkAllRead(ns, userId, now), other) == UnreadCount(ns, other)
  {
    forall other | other != userId
      ensures UnreadCount(MarkAllRead(ns, userId, now), other) == UnreadCount(ns, other)
    {
      MarkAllReadKeepsCount(ns, userId, now, other);
    }
  }

  /** The bulk update for `userId` leaves another user's unread count alone. */
  lemma {:induction false} MarkAllReadKeepsCount(ns: seq<UserNotification>, userId: Id, now: Timestamp, other: Id)
    requires other != userId
    ensures UnreadCount(MarkAllRead(ns, userId, now), other) == UnreadCount(ns, other)
  {
    if ns != [] {
      var front := ns[..|ns| - 1];
      var last := ns[|ns| - 1];
      var ms := MarkAllRead(ns, userId, now);
      var mf := MarkAllRead(front, userId, now);
      MarkAllReadKeepsCount(front, userId, now, other);
      assert ms == mf + [ms[|ns| - 1]] by {
        assert forall i :: 0 <= i < |front| ==> front[i] == ns[i];
      }
      assert ns == front + [last];
      UnreadCountAppend(mf, ms[|ns| - 1], other);
      UnreadCountAppend(front, last, other);
    }
  }

  /** `markAllNotificationsAsRead({userId})`: returns `unreadCount: 0`. */
  method MarkAllNotificationsAsRead(db: Database, userId: Id, now: Timestamp) returns (unreadCount: nat)
    requires db.Valid()
    modifies db
    ensures db.Valid()
    ensures db.notifications == MarkAllRead(old(db.notifications), userId, now)
    ensures unreadCount == 0 == UnreadCount(db.notifications, userId)
    ensures db.users == old(db.users) && db.addresses == old(db.addresses) && db.parcels == old(db.parcels)
    ensures db.history == old(db.history) && db.tracking == old(db.tracking) && db.audit == old(db.audit)
    ensures db.notificationLogs == old(db.notificationLogs)
  {
    MarkAllReadClears(db.notifications, userId, now);
    db.notifications := MarkAllRead(db.notifications, userId, now);
    unreadCount := 0;
  }
}
