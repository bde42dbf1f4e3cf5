/** The parcel schema: the status and payment enums, the parcel record with its
    required and optional fields, the schema defaults, and the records the
    services append next to it (status history, tracking points, audit entries,
    addresses). */
module ParcelModel {
  import opened Common

  /** `ParcelStatusEnum`. */
  datatype ParcelStatus = Booked | Assigned | PickedUp | InTransit | Delivered | Failed | Cancelled

  /** The enum's string spelling. */
  function StatusName(s: ParcelStatus): string {
    match s
    case Booked => "BOOKED"
    case Assigned => "ASSIGNED"
    case PickedUp => "PICKED_UP"
    case InTransit => "IN_TRANSIT"
    case Delivered => "DELIVERED"
    case Failed => "FAILED"
    case Cancelled => "CANCELLED"
  }

  /** The enum exactly as the schema lists it, in its order. */
  const ParcelStatusEnum: seq<string> :=
    ["BOOKED", "ASSIGNED", "PICKED_UP", "IN_TRANSIT", "DELIVERED", "FAILED", "CANCELLED"]

  /** Reads a status string; `None` for anything outside the enum. */
  function ParseStatus(s: string): (r: Option<ParcelStatus>)
    ensures r.Some? <==> s in ParcelStatusEnum
    ensures r.Some? ==> StatusName(r.value) == s
  {
    if s == "BOOKED" then Some(Booked)
    else if s == "ASSIGNED" then Some(Assigned)
    else if s == "PICKED_UP" then Some(PickedUp)
    else if s == "IN_TRANSIT" then Some(InTransit)
    else if s == "DELIVERED" then Some(Delivered)
    else if s == "FAILED" then Some(Failed)
    else if s == "CANCELLED" then Some(Cancelled)
    else None
  }

  /** Spelling a status and reading it back gives the status again, and the
      spellings are exactly the schema's enum. */
  lemma StatusNameRoundTrip(s: ParcelStatus)
    ensures ParseStatus(StatusName(s)) == Some(s)
    ensures StatusName(s) in ParcelStatusEnum
  {
  }

  /** `PaymentTypeEnum`. */
  datatype PaymentType = COD | Prepaid

  function PaymentName(p: PaymentType): string {
    match p
    case COD => "COD"
    case Prepaid => "PREPAID"
  }

  const PaymentTypeEnum: seq<string> := ["COD", "PREPAID"]

  /** `PaymentTypeEnum.includes(s)`, returning the member. */
  function ParsePayment(s: string): (r: Option<PaymentType>)
    ensures r.Some? <==> s in PaymentTypeEnum
    ensures r.Some? ==> PaymentName(r.value) == s
  {
    if s == "COD" then Some(COD) else if s == "PREPAID" then Some(Prepaid) else None
  }

  /** A stored parcel. Required schema fields are plain values; the optional
      ones (`assignedAgentId`, `scheduledPickupAt`, `deliveredAt`,
      `failureReason`, `qrCodeData`, `barcodeData`, `deletedAt`, `weight`) are
      `Option`s. `status` and `paymentType` can only hold enum members. */
  datatype Parcel = Parcel(
    id: Id,
    trackingCode: string,
    customerId: Id,
    pickupAddressId: Id,
    deliveryAddressId: Id,
    parcelType: string,
    parcelSize: string,
    weight: Option<int>,
    paymentType: PaymentType,
    codAmount: int,
    status: ParcelStatus,
    assignedAgentId: Option<Id>,
    scheduledPickupAt: Option<Timestamp>,
    deliveredAt: Option<Timestamp>,
    failureReason: Option<string>,
    qrCodeData: Option<string>,
    barcodeData: Option<string>,
    deletedAt: Option<Timestamp>)

  /** The document handed to `Parcel.create`: `status` and `codAmount` may be
      left out, in which case the schema defaults apply. */
  datatype ParcelDocument = ParcelDocument(
    id: Id,
    trackingCode: string,
    customerId: Id,
    pickupAddressId: Id,
    deliveryAddressId: Id,
    parcelType: string,
    parcelSize: string,
    weight: Option<int>,
    paymentType: PaymentType,
    codAmount: Option<int>,
    status: Option<ParcelStatus>,
    scheduledPickupAt: Option<Timestamp>,
    qrCodeData: Option<string>,
    barcodeData: Option<string>)

  /** What `Parcel.create` stores for a document: the supplied fields, the
      defaults `status = BOOKED` and `codAmount = 0` where they were left out,
      and no agent, delivery time, failure reason or deletion marker. */
  function ApplySchemaDefaults(d: ParcelDocument): (p: Parcel)
    ensures p.status == (if d.status.Some? then d.status.value else Booked)
    ensures p.codAmount == (if d.codAmount.Some? then d.codAmount.value else 0)
    ensures p.assignedAgentId.None? && p.deliveredAt.None? && p.failureReason.None? && p.deletedAt.None?
    ensures p.id == d.id && p.trackingCode == d.trackingCode && p.customerId == d.customerId
    ensures p.pickupAddressId == d.pickupAddressId && p.deliveryAddressId == d.deliveryAddressId
    ensures p.parcelType == d.parcelType && p.parcelSize == d.parcelSize && p.weight == d.weight
    ensures p.paymentType == d.paymentType && p.scheduledPickupAt == d.scheduledPickupAt
    ensures p.qrCodeData == d.qrCodeData && p.barcodeData == d.barcodeData
  {
    Parcel(d.id, d.trackingCode, d.customerId, d.pickupAddressId, d.deliveryAddressId,
           d.parcelType, d.parcelSize, d.weight, d.paymentType, d.codAmount.GetOr(0),
           d.status.GetOr(Booked), None, d.scheduledPickupAt, None, None,
           d.qrCodeData, d.barcodeData, None)
  }

  /** One `ParcelStatusHistory` record. `status` is a plain string in its schema. */
  datatype StatusHistoryRecord = StatusHistoryRecord(
    parcelId: Id, status: string, note: Option<string>, changedByUserId: Id, createdAt: Timestamp)

  /** One `TrackingPoint`. Coordinates, speed and heading are opaque numbers. */
  datatype TrackingPoint = TrackingPoint(
    parcelId: Id, agentId: Id, lat: int, lng: int,
    speed: Option<int>, heading: Option<int>, createdAt: Timestamp)

  /** The `details` object of an audit entry. */
  datatype AuditDetails =
    | StatusChange(parcelId: Id, status: string)
    | Assignment(parcelId: Id, agentId: Id)

  /** One `AuditLog` entry. */
  datatype AuditEntry = AuditEntry(actorId: Id, action: string, details: AuditDetails)

  /** One `Address`; of its fields only the owner and `fullAddress` matter here. */
  datatype Address = Address(id: Id, userId: Id, fullAddress: string)
}
