/** Notification records: the channel and status enums of the notification
    log, the log entry itself, and the in-app notification a user reads. */
module NotificationModel {
  import opened Common
  import opened UserModel

  /** The log's `channel` enum. */
  datatype Channel = Email | Sms

  function ChannelName(c: Channel): string {
    match c
    case Email => "EMAIL"
    case Sms => "SMS"
  }

  /** The log's `status` enum: a dispatch is recorded only as SENT or FAILED. */
  datatype LogStatus = Sent | LogFailed

  function LogStatusName(s: LogStatus): string {
    match s
    case Sent => "SENT"
    case LogFailed => "FAILED"
  }

  /** One `NotificationLog` entry. */
  datatype NotificationLogEntry = NotificationLogEntry(
    parcelId: Id, channel: Channel, recipient: string, templateKey: string,
    status: LogStatus, providerMessageId: Option<string>)

  /** The `data` object of an in-app notification (`{}` when none was given). */
  datatype NotificationData =
    | NoData
    | ParcelUpdate(parcelId: Id, trackingCode: string, status: string, note: Option<string>)

  /** One in-app `Notification`; `isRead` starts false and `readAt` unset. */
  datatype UserNotification = UserNotification(
    id: Id, userId: Id, role: string, kind: string, title: string, body: Option<string>,
    data: NotificationData, isRead: bool, readAt: Option<Timestamp>, createdAt: Timestamp)

  /** What `serializeNotification` sends to clients. */
  datatype SerializedNotification = SerializedNotification(
    id: Id, kind: string, title: string, body: Option<string>, data: NotificationData,
    isRead: bool, readAt: Option<Timestamp>, createdAt: Timestamp)

  /** `serializeNotification`: the client view keeps every field a client
      shows and drops the owner and role. */
  function Serialize(n: UserNotification): (s: SerializedNotification)
    ensures s.id == n.id && s.kind == n.kind && s.title == n.title && s.body == n.body
    ensures s.data == n.data && s.isRead == n.isRead && s.readAt == n.readAt && s.createdAt == n.createdAt
  {
    SerializedNotification(n.id, n.kind, n.title, n.body, n.data, n.isRead, n.readAt, n.createdAt)
  }

  /** The client view loses exactly the owner and the role: two
      notifications look the same to a client iff they differ in no other
      field. */
  lemma SerializeForgetsOnlyOwner(n: UserNotification, m: UserNotification)
    ensures Serialize(n) == Serialize(m) <==> n.(userId := m.userId, role := m.role) == m
  {
  }

  /** The number of unread notifications of `user` (the `countDocuments`
      query `{userId, isRead: false}`). */
  function UnreadCount(ns: seq<UserNotification>, user: Id): (c: nat)
    ensures c <= |ns|
    ensures c == 0 <==> forall i :: 0 <= i < |ns| ==> !(ns[i].userId == user && !ns[i].isRead)
  {
    if ns == [] then 0
    else UnreadCount(ns[..|ns| - 1], user) + (if ns[|ns| - 1].userId == user && !ns[|ns| - 1].isRead then 1 else 0)
  }

  /** Appending a notification adds one to its owner's unread count when it is
      unread, and nothing otherwise. */
  lemma {:induction false} UnreadCountAppend(ns: seq<UserNotification>, n: UserNotification, user: Id)
    ensures UnreadCount(ns + [n], user) ==
      UnreadCount(ns, user) + (if n.userId == user && !n.isRead then 1 else 0)
  {
    assert (ns + [n])[..|ns + [n]| - 1] == ns;
  }
}
