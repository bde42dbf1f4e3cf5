/** The parcel status state machine of `canTransition`
    (services/parcel.service.js): an explicit lookup table from each status to
    the statuses it may move to, and what follows from it. */
module StatusMachine {
  import opened Common
  import opened ParcelModel

  /** The lookup table: the allowed targets of each status, in table order. */
  function Successors(s: ParcelStatus): seq<ParcelStatus> {
    match s
    case Booked => [Assigned, Cancelled]
    case Assigned => [PickedUp, Cancelled]
    case PickedUp => [InTransit, Failed]
    case InTransit => [Delivered, Failed]
    case Delivered => []
    case Failed => [Assigned, Cancelled]
    case Cancelled => []
  }

  /** `canTransition(current, next)`: true for exactly the ten listed pairs
      and false for every other pair of strings. `current` is a stored
      status, so it is always an enum member; `next` is whatever string the
      caller sent. */
  function CanTransition(current: ParcelStatus, next: string): (b: bool)
    ensures b <==> (StatusName(current), next) in AllowedPairs
  {
    SuccessorsArePairs(current, next);
    var n := ParseStatus(next);
    n.Some? && n.value in Successors(current)
  }

  /** The allowed pairs written out as strings, independently of the table. */
  const AllowedPairs: set<(string, string)> := {
    ("BOOKED", "ASSIGNED"), ("BOOKED", "CANCELLED"),
    ("ASSIGNED", "PICKED_UP"), ("ASSIGNED", "CANCELLED"),
    ("PICKED_UP", "IN_TRANSIT"), ("PICKED_UP", "FAILED"),
    ("IN_TRANSIT", "DELIVERED"), ("IN_TRANSIT", "FAILED"),
    ("FAILED", "ASSIGNED"), ("FAILED", "CANCELLED")
  }

  /** The successor table, read through the status spellings, is the set of
      listed pairs. */
  lemma SuccessorsArePairs(current: ParcelStatus, next: string)
    ensures (ParseStatus(next).Some? && ParseStatus(next).value in Successors(current)) <==>
      (StatusName(current), next) in AllowedPairs
  {
    var n := ParseStatus(next);
    if n.Some? {
      assert StatusName(n.value) == next;
      match current
      case Booked =>
      case Assigned =>
      case PickedUp =>
      case InTransit =>
      case Delivered =>
      case Failed =>
      case Cancelled =>
    } else {
      assert next !in ParcelStatusEnum;
    }
  }

  /** No status may move to itself. */
  lemma NoSelfLoop(s: ParcelStatus)
    ensures !CanTransition(s, StatusName(s))
  {
    StatusNameRoundTrip(s);
  }

  /** A string outside the enum is never an allowed target. */
  lemma UnknownTargetRejected(s: ParcelStatus, next: string)
    requires next !in ParcelStatusEnum
    ensures !CanTransition(s, next)
  {
  }

  predicate IsTerminal(s: ParcelStatus) {
    s == Delivered || s == Cancelled
  }

  /** DELIVERED and CANCELLED allow no move at all, and they are the only
      dead ends: every other status has an allowed target. */
  lemma TerminalsAreTheDeadEnds(s: ParcelStatus)
    ensures IsTerminal(s) <==> forall next: string :: !CanTransition(s, next)
  {
    if !IsTerminal(s) {
      var t := Successors(s)[0];
      StatusNameRoundTrip(t);
      assert CanTransition(s, StatusName(t));
    }
  }

  /** Consecutive statuses of `p` are allowed moves. */
  predicate ValidPath(p: seq<ParcelStatus>) {
    forall i :: 0 <= i < |p| - 1 ==> CanTransition(p[i], StatusName(p[i + 1]))
  }

  /** BOOKED -> ASSIGNED -> PICKED_UP -> IN_TRANSIT -> DELIVERED is allowed
      step by step. */
  lemma HappyPathAllowed()
    ensures ValidPath([Booked, Assigned, PickedUp, InTransit, Delivered])
  {
    var p := [Booked, Assigned, PickedUp, InTransit, Delivered];
    forall i | 0 <= i < |p| - 1 ensures CanTransition(p[i], StatusName(p[i + 1])) {
      StatusNameRoundTrip(p[i + 1]);
    }
  }

  /** How far along the journey a status is. */
  function Rank(s: ParcelStatus): nat {
    match s
    case Booked => 0
    case Assigned => 1
    case PickedUp => 2
    case InTransit => 3
    case Delivered => 4
    case Failed => 4
    case Cancelled => 4
  }

  /** Every allowed move goes forward, except the retry out of FAILED. */
  lemma StepGoesForward(c: ParcelStatus, n: ParcelStatus)
    requires CanTransition(c, StatusName(n))
    ensures Rank(n) > Rank(c) || c == Failed
  {
    StatusNameRoundTrip(n);
    assert ParseStatus(StatusName(n)) == Some(n);
  }

  /** Along a path that never leaves FAILED again, the rank climbs by at least
      one per move. */
  lemma {:induction false} PathClimbs(p: seq<ParcelStatus>)
    requires |p| >= 1 && ValidPath(p)
    requires forall i :: 0 <= i < |p| - 1 ==> p[i] != Failed
    ensures Rank(p[|p| - 1]) >= Rank(p[0]) + |p| - 1
  {
    if |p| > 1 {
      var q := p[..|p| - 1];
      assert ValidPath(q) by {
        forall i | 0 <= i < |q| - 1 ensures CanTransition(q[i], StatusName(q[i + 1])) {
          assert q[i] == p[i] && q[i + 1] == p[i + 1];
        }
      }
      PathClimbs(q);
      StepGoesForward(p[|p| - 2], p[|p| - 1]);
    }
  }

  /** Without a retry out of FAILED a parcel makes at most four moves, so it
      stops within four transitions or else passes through FAILED. */
  lemma BoundedWithoutRetry(p: seq<ParcelStatus>)
    requires |p| >= 1 && ValidPath(p)
    requires forall i :: 0 <= i < |p| - 1 ==> p[i] != Failed
    ensures |p| <= 5
  {
    PathClimbs(p);
  }
}
