/** The collections the services read and write, held as in-memory sequences
    in insertion order (which is also `createdAt` order), and the lookups the
    services use on them (`findById`, `findOne`). */
module Store {
  import opened Common
  import opened ParcelModel
  import opened UserModel
  import opened NotificationModel

  /** The index of the first element satisfying `p` (`findOne` on a
      collection), or `None` when there is none. */
  function FindFirst<T>(s: seq<T>, p: T -> bool): (r: Option<nat>)
    ensures r.Some? ==> r.value < |s| && p(s[r.value]) && forall j :: 0 <= j < r.value ==> !p(s[j])
    ensures r.None? ==> forall j :: 0 <= j < |s| ==> !p(s[j])
  {
    if s == [] then None
    else if p(s[0]) then Some(0)
    else match FindFirst(s[1..], p)
      case None => None
      case Some(k) => Some(k + 1)
  }

  /** `find(filter)`: the elements satisfying `p`, in collection order. */
  function Where<T>(s: seq<T>, p: T -> bool): (r: seq<T>)
    ensures |r| <= |s|
    ensures forall i :: 0 <= i < |r| ==> p(r[i]) && r[i] in s
    ensures forall i :: 0 <= i < |s| && p(s[i]) ==> s[i] in r
  {
    if s == [] then []
    else
      var rest := Where(s[..|s| - 1], p);
      assert forall i :: 0 <= i < |s| - 1 ==> s[i] == s[..|s| - 1][i];
      if p(s[|s| - 1]) then rest + [s[|s| - 1]] else rest
  }

  /** Filtering and then adding an element is adding it, if it passes, after
      filtering. */
  lemma WhereAppend<T>(s: seq<T>, x: T, p: T -> bool)
    ensures Where(s + [x], p) == Where(s, p) + (if p(x) then [x] else [])
  {
    assert (s + [x])[..|s + [x]| - 1] == s;
  }

  /** `.sort({ createdAt: -1 })` on records kept in creation order. */
  function NewestFirst<T>(s: seq<T>): (r: seq<T>)
    ensures |r| == |s|
    ensures forall i :: 0 <= i < |s| ==> r[i] == s[|s| - 1 - i]
  {
    seq(|s|, i requires 0 <= i < |s| => s[|s| - 1 - i])
  }

  /** Newest-first order is a reordering of the collection, and reading it
      newest first once more gives the creation order back. */
  lemma {:induction false} NewestFirstReorders<T>(s: seq<T>)
    ensures multiset(NewestFirst(s)) == multiset(s)
    ensures NewestFirst(NewestFirst(s)) == s
  {
    if s != [] {
      var init := s[..|s| - 1];
      NewestFirstReorders(init);
      assert s == init + [s[|s| - 1]];
      NewestFirstAppend(init, s[|s| - 1]);
    }
  }

  /** A record created last comes first in newest-first order. */
  lemma NewestFirstAppend<T>(s: seq<T>, x: T)
    ensures NewestFirst(s + [x]) == [x] + NewestFirst(s)
  {
    var a := NewestFirst(s + [x]);
    var b := [x] + NewestFirst(s);
    forall i | 0 <= i < |a| ensures a[i] == b[i] {
      if i > 0 {
        assert b[i] == NewestFirst(s)[i - 1] == s[|s| - i];
      }
    }
  }

  /** `.limit(n)`: the first `n` records, or all of them when there are
      fewer; as in MongoDB, `limit(0)` sets no limit. */
  function Limit<T>(s: seq<T>, n: nat): (r: seq<T>)
    ensures |r| == (if n == 0 || |s| < n then |s| else n)
    ensures r == s[..|r|]
  {
    if n == 0 || |s| < n then s else s[..n]
  }

  /** `sort({createdAt: -1}).limit(n)` keeps the `n` newest (all of them for
      `n` = 0), newest first. */
  lemma NewestPrefix<T>(s: seq<T>, n: nat)
    ensures var r := Limit(NewestFirst(s), n);
      |r| == (if n == 0 || |s| < n then |s| else n) && forall i :: 0 <= i < |r| ==> r[i] == s[|s| - 1 - i]
  {
    var r := Limit(NewestFirst(s), n);
    forall i | 0 <= i < |r| ensures r[i] == s[|s| - 1 - i] {
      assert r[i] == NewestFirst(s)[i];
    }
  }

  /** `Parcel.findById(id)`, as an index. */
  function FindParcel(ps: seq<Parcel>, id: Id): Option<nat> {
    FindFirst(ps, (q: Parcel) => q.id == id)
  }

  /** `User.findById(id)`. */
  function FindUser(us: seq<User>, id: Id): Option<nat> {
    FindFirst(us, (u: User) => u.id == id)
  }

  /** `User.findOne({ email })`. */
  function FindUserByEmail(us: seq<User>, email: string): Option<nat> {
    FindFirst(us, (u: User) => u.email == email)
  }

  /** `Address.findById(id)`, the lookup `populate` does. */
  function LookupAddress(addrs: seq<Address>, id: Id): (r: Option<Address>)
    ensures r.Some? ==> r.value in addrs && r.value.id == id
    ensures r.None? ==> forall j :: 0 <= j < |addrs| ==> addrs[j].id != id
  {
    match FindFirst(addrs, (a: Address) => a.id == id)
    case None => None
    case Some(i) => Some(addrs[i])
  }

  /** `User.findById(id)` as a record, the lookup `populate` does. */
  function LookupUser(us: seq<User>, id: Id): (r: Option<User>)
    ensures r.Some? ==> r.value in us && r.value.id == id
    ensures r.None? ==> forall j :: 0 <= j < |us| ==> us[j].id != id
  {
    match FindUser(us, id)
    case None => None
    case Some(i) => Some(us[i])
  }

  /** The parcel with id `id`, if any. */
  function LookupParcel(ps: seq<Parcel>, id: Id): (r: Option<Parcel>)
    ensures r.Some? ==> r.value in ps && r.value.id == id
    ensures r.None? ==> forall j :: 0 <= j < |ps| ==> ps[j].id != id
  {
    match FindParcel(ps, id)
    case None => None
    case Some(i) => Some(ps[i])
  }

  predicate UniqueParcelIds(ps: seq<Parcel>) {
    forall i, j :: 0 <= i < j < |ps| ==> ps[i].id != ps[j].id
  }

  /** The unique index on `trackingCode`. */
  predicate UniqueTrackingCodes(ps: seq<Parcel>) {
    forall i, j :: 0 <= i < j < |ps| ==> ps[i].trackingCode != ps[j].trackingCode
  }

  predicate UniqueUserIds(us: seq<User>) {
    forall i, j :: 0 <= i < j < |us| ==> us[i].id != us[j].id
  }

  predicate UniqueNotificationIds(ns: seq<UserNotification>) {
    forall i, j :: 0 <= i < j < |ns| ==> ns[i].id != ns[j].id
  }

  /** Replacing a parcel by one with the same id and tracking code keeps the
      ids and the tracking codes unique. */
  lemma ReplaceKeepsUnique(ps: seq<Parcel>, i: nat, p: Parcel)
    requires i < |ps| && p.id == ps[i].id && p.trackingCode == ps[i].trackingCode
    requires UniqueParcelIds(ps) && UniqueTrackingCodes(ps)
    ensures UniqueParcelIds(ps[i := p]) && UniqueTrackingCodes(ps[i := p])
  {
  }

  /** Some stored parcel already carries `code`. */
  predicate TrackingCodeTaken(ps: seq<Parcel>, code: string) {
    exists j :: 0 <= j < |ps| && ps[j].trackingCode == code
  }

  /** Appending a parcel whose id and tracking code are new keeps both unique. */
  lemma AppendKeepsUnique(ps: seq<Parcel>, p: Parcel)
    requires UniqueParcelIds(ps) && UniqueTrackingCodes(ps)
    requires forall j :: 0 <= j < |ps| ==> ps[j].id != p.id
    requires !TrackingCodeTaken(ps, p.trackingCode)
    ensures UniqueParcelIds(ps + [p]) && UniqueTrackingCodes(ps + [p])
  {
  }

  /** The `createdAt` part of a query filter: the `$gte` and `$lte` bounds,
      each the date text handed to `new Date(...)`. */
  datatype DateRange = DateRange(gte: Option<string>, lte: Option<string>)

  /** A parcel query filter: a key is present exactly when it is `Some`. */
  datatype ParcelFilter = ParcelFilter(
    status: Option<string>, assignedAgentId: Option<Id>, customerId: Option<Id>, createdAt: Option<DateRange>)

  const EmptyFilter: ParcelFilter := ParcelFilter(None, None, None, None)

  /** The database: one sequence per collection. */
  class Database {
    var users: seq<User>
    var addresses: seq<Address>
    var parcels: seq<Parcel>
    var history: seq<StatusHistoryRecord>
    var tracking: seq<TrackingPoint>
    var audit: seq<AuditEntry>
    var notificationLogs: seq<NotificationLogEntry>
    var notifications: seq<UserNotification>

    /** An empty database. */
    constructor()
      ensures users == [] && addresses == [] && parcels == [] && history == [] && tracking == []
      ensures audit == [] && notificationLogs == [] && notifications == []
    {
      users := [];
      addresses := [];
      parcels := [];
      history := [];
      tracking := [];
      audit := [];
      notificationLogs := [];
      notifications := [];
    }

    /** What the `_id` fields and the unique indexes guarantee. */
    predicate Valid()
      reads this
    {
      UniqueParcelIds(parcels) && UniqueTrackingCodes(parcels) &&
      UniqueUserIds(users) && UniqueNotificationIds(notifications)
    }

    /** An id no parcel, address or notification uses yet. */
    predicate FreshId(id: Id)
      reads this
    {
      (forall i :: 0 <= i < |parcels| ==> parcels[i].id != id) &&
      (forall i :: 0 <= i < |addresses| ==> addresses[i].id != id) &&
      (forall i :: 0 <= i < |notifications| ==> notifications[i].id != id)
    }
  }
}
