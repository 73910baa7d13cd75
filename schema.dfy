/** The Shipment document: its enumerations, defaults, required fields and the
    update hook, as the Mongoose schema declares them. */
module Schema {
  import opened Common

  /** The 19 values a shipment status (and every audit entry) may take. */
  const StatusValues: seq<string> := [
    "order-received",
    "awaiting-pickup",
    "picked-up",
    "in-transit",
    "arrived-at-sorting-facility",
    "departed-from-sorting-facility",
    "out-for-delivery",
    "delivered",
    "delivery-attempted",
    "failed-delivery",
    "address-issue",
    "held-at-customs",
    "delayed",
    "damaged-in-transit",
    "return-initiated",
    "return-in-transit",
    "return-received",
    "refund-processed",
    "cancelled"
  ]
  const PaymentValues: seq<string> := ["pending", "successful"]
  const ShipmentTypes: seq<string> := ["standard", "express"]

  const DefaultStatus: string := "order-received"
  const DefaultPaymentStatus: string := "pending"
  const DefaultAmount: int := 0

  datatype Address = Address(address: string, city: string, state: string, country: string)
  datatype Dimensions = Dimensions(length: int, width: int, height: int)
  datatype PackageDetails = PackageDetails(weight: int, dimensions: Dimensions, description: Option<string>)

  /** One audit entry. The status is stored under the key `shipment`, not `status`. */
  datatype StatusEntry = StatusEntry(shipment: string, timestamp: int)

  /** A stored shipment. Numbers are integers; timestamps are milliseconds. */
  datatype Shipment = Shipment(
    id: Id,
    trackingId: string,
    user: Id,
    amount: int,
    source: Address,
    destination: Address,
    packageDetails: PackageDetails,
    status: string,
    updatedStatus: seq<StatusEntry>,
    paymentStatus: string,
    shipmentType: string,
    createdAt: int,
    updatedAt: int)

  /** A required String path rejects both a missing value and the empty string. */
  predicate ValidAddress(a: Address) {
    a.address != "" && a.city != "" && a.state != "" && a.country != ""
  }

  /** What the schema guarantees of every stored document. `amount` has no bound. */
  predicate ValidShipment(s: Shipment) {
    && ValidAddress(s.source)
    && ValidAddress(s.destination)
    && s.status in StatusValues
    && (forall i :: 0 <= i < |s.updatedStatus| ==> s.updatedStatus[i].shipment in StatusValues)
    && s.paymentStatus in PaymentValues
    && s.shipmentType in ShipmentTypes
  }

  /** Setting an allowed status and appending its audit entry keeps a document valid. */
  lemma PushStatusKeepsValid(s: Shipment, status: string, now: int)
    requires ValidShipment(s) && status in StatusValues
    ensures ValidShipment(s.(status := status, updatedStatus := s.updatedStatus + [StatusEntry(status, now)]))
  {
    var es := s.updatedStatus + [StatusEntry(status, now)];
    assert forall i :: 0 <= i < |s.updatedStatus| ==> es[i] == s.updatedStatus[i];
  }

  // ---------------------------------------------------------------------------
  // Creating a document from a request body

  datatype AddressBody = AddressBody(address: Option<string>, city: Option<string>, state: Option<string>, country: Option<string>)
  datatype PackageBody = PackageBody(weight: Option<int>, length: Option<int>, width: Option<int>, height: Option<int>, description: Option<string>)
  datatype StatusEntryBody = StatusEntryBody(shipment: Option<string>, timestamp: Option<int>)

  /** The fields of a create request the schema knows; any other field is dropped. */
  datatype ShipmentBody = ShipmentBody(
    trackingId: Option<string>,
    user: Option<Id>,
    amount: Option<int>,
    source: AddressBody,
    destination: AddressBody,
    packageDetails: PackageBody,
    status: Option<string>,
    updatedStatus: seq<StatusEntryBody>,
    paymentStatus: Option<string>,
    shipmentType: Option<string>,
    createdAt: Option<int>,
    updatedAt: Option<int>)

  function Required(path: string, v: Option<string>): set<string> {
    if Truthy(v) then {} else {path}
  }

  function RequiredNumber(path: string, v: Option<int>): set<string> {
    if v.Some? then {} else {path}
  }

  /** An enum path with a default: only a given value is checked. */
  function Enum(path: string, v: Option<string>, values: seq<string>): set<string> {
    if v.Some? && v.value !in values then {path} else {}
  }

  function AddressErrors(prefix: string, a: AddressBody): set<string> {
    Required(prefix + ".address", a.address) + Required(prefix + ".city", a.city)
    + Required(prefix + ".state", a.state) + Required(prefix + ".country", a.country)
  }

  function PackageErrors(p: PackageBody): set<string> {
    RequiredNumber("packageDetails.weight", p.weight)
    + RequiredNumber("packageDetails.dimensions.length", p.length)
    + RequiredNumber("packageDetails.dimensions.width", p.width)
    + RequiredNumber("packageDetails.dimensions.height", p.height)
  }

  /** The path Mongoose reports for the status of audit entry `i`. */
  function EntryPath(i: nat): string {
    "updatedStatus." + NatString(i) + ".shipment"
  }

  /** An audit entry whose status is missing, empty or outside the enumeration. */
  predicate BadEntry(e: StatusEntryBody) {
    !Truthy(e.shipment) || e.shipment.value !in StatusValues
  }

  function EntryErrors(es: seq<StatusEntryBody>): set<string> {
    set i | 0 <= i < |es| && BadEntry(es[i]) :: EntryPath(i)
  }

  /** No path is reported exactly when every audit entry is acceptable. */
  lemma EntryErrorsEmpty(es: seq<StatusEntryBody>)
    ensures EntryErrors(es) == {} <==> forall i :: 0 <= i < |es| ==> !BadEntry(es[i])
  {
    forall i | 0 <= i < |es| && BadEntry(es[i]) ensures EntryPath(i) in EntryErrors(es) {
    }
  }

  /** Every path that fails validation when a document is built from `b`. */
  function BodyErrors(b: ShipmentBody): set<string> {
    (if b.user.Some? then {} else {"user"})
    + AddressErrors("source", b.source)
    + AddressErrors("destination", b.destination)
    + PackageErrors(b.packageDetails)
    + Enum("status", b.status, StatusValues)
    + EntryErrors(b.updatedStatus)
    + Enum("paymentStatus", b.paymentStatus, PaymentValues)
    + (if Truthy(b.shipmentType) && b.shipmentType.value in ShipmentTypes then {} else {"shipmentType"})
  }

  function UpperAscii(c: char): char {
    if 'a' <= c <= 'z' then (c as int - 32) as char else c
  }

  function LowerAscii(c: char): char {
    if 'A' <= c <= 'Z' then (c as int + 32) as char else c
  }

  /** The default tracking id: the first 8 characters of a uuid, upper-cased. */
  function DefaultTrackingId(uuid: string): (r: string)
    ensures |r| == if |uuid| < 8 then |uuid| else 8
    ensures forall i :: 0 <= i < |r| ==> !('a' <= r[i] <= 'z')
    ensures forall i :: 0 <= i < |r| ==> LowerAscii(r[i]) == LowerAscii(uuid[i])
  {
    var n := if |uuid| < 8 then |uuid| else 8;
    seq(n, i requires 0 <= i < n => UpperAscii(uuid[i]))
  }

  /** The request body an address is read from: every part given. */
  function AddressBodyOf(a: Address): AddressBody {
    AddressBody(Some(a.address), Some(a.city), Some(a.state), Some(a.country))
  }

  /** The request body package details are read from: every number given. */
  function PackageBodyOf(p: PackageDetails): PackageBody {
    PackageBody(Some(p.weight), Some(p.dimensions.length), Some(p.dimensions.width), Some(p.dimensions.height), p.description)
  }

  function GetOr<T>(v: Option<T>, default: T): T {
    if v.Some? then v.value else default
  }

  function BuildEntries(es: seq<StatusEntryBody>, now: int): (r: seq<StatusEntry>)
    requires forall i :: 0 <= i < |es| ==> es[i].shipment.Some?
    ensures |r| == |es|
    ensures forall i :: 0 <= i < |es| ==> r[i].shipment == es[i].shipment.value
    ensures forall i :: 0 <= i < |es| ==> r[i].timestamp == GetOr(es[i].timestamp, now)
  {
    seq(|es|, i requires 0 <= i < |es| => StatusEntry(es[i].shipment.value, GetOr(es[i].timestamp, now)))
  }

  /** `Shipment.create(body)`: defaults are filled in, then the document is validated.
      `id` is the new ObjectId, `uuid` the output of uuidv4, `now` the clock. */
  function NewShipment(b: ShipmentBody, id: Id, uuid: string, now: int): (r: Result<Shipment>)
    ensures r.Ok? <==> BodyErrors(b) == {}
    ensures r.Err? ==> r.error == Validation(BodyErrors(b))
    ensures r.Ok? ==> ValidShipment(r.value)
    ensures r.Ok? ==> r.value.id == id && Some(r.value.user) == b.user
    ensures r.Ok? ==> |r.value.updatedStatus| == |b.updatedStatus|
    ensures r.Ok? ==> b.source == AddressBodyOf(r.value.source) && b.destination == AddressBodyOf(r.value.destination)
    ensures r.Ok? ==> b.packageDetails == PackageBodyOf(r.value.packageDetails)
    ensures r.Ok? ==> b.shipmentType == Some(r.value.shipmentType)
    ensures r.Ok? ==> r.value.trackingId == if b.trackingId.Some? then b.trackingId.value else DefaultTrackingId(uuid)
    ensures r.Ok? ==> r.value.amount == if b.amount.Some? then b.amount.value else DefaultAmount
    ensures r.Ok? ==> r.value.status == if b.status.Some? then b.status.value else DefaultStatus
    ensures r.Ok? ==> r.value.paymentStatus == if b.paymentStatus.Some? then b.paymentStatus.value else DefaultPaymentStatus
    ensures r.Ok? ==> r.value.createdAt == if b.createdAt.Some? then b.createdAt.value else now
    ensures r.Ok? ==> r.value.updatedAt == if b.updatedAt.Some? then b.updatedAt.value else now
    ensures r.Ok? ==> forall i :: 0 <= i < |b.updatedStatus| ==>
              && b.updatedStatus[i].shipment == Some(r.value.updatedStatus[i].shipment)
              && r.value.updatedStatus[i].timestamp == if b.updatedStatus[i].timestamp.Some? then b.updatedStatus[i].timestamp.value else now
  {
    if BodyErrors(b) != {} then Err(Validation(BodyErrors(b)))
    else
      EntryErrorsEmpty(b.updatedStatus);
      var src, dst, pkg := b.source, b.destination, b.packageDetails;
      Ok(Shipment(
        id := id,
        trackingId := GetOr(b.trackingId, DefaultTrackingId(uuid)),
        user := b.user.value,
        amount := GetOr(b.amount, DefaultAmount),
        source := Address(src.address.value, src.city.value, src.state.value, src.country.value),
        destination := Address(dst.address.value, dst.city.value, dst.state.value, dst.country.value),
        packageDetails := PackageDetails(pkg.weight.value, Dimensions(pkg.length.value, pkg.width.value, pkg.height.value), pkg.description),
        status := GetOr(b.status, DefaultStatus),
        updatedStatus := BuildEntries(b.updatedStatus, now),
        paymentStatus := GetOr(b.paymentStatus, DefaultPaymentStatus),
        shipmentType := b.shipmentType.value,
        createdAt := GetOr(b.createdAt, now),
        updatedAt := GetOr(b.updatedAt, now)))
  }

  /** A body that leaves the defaulted fields out gets the schema's defaults. */
  lemma NewShipmentDefaults(b: ShipmentBody, id: Id, uuid: string, now: int)
    requires BodyErrors(b) == {}
    requires b.trackingId.None? && b.amount.None? && b.status.None? && b.paymentStatus.None?
    requires b.updatedStatus == [] && b.createdAt.None? && b.updatedAt.None?
    ensures var r := NewShipment(b, id, uuid, now);
      && r.Ok?
      && r.value.status == "order-received"
      && r.value.paymentStatus == "pending"
      && r.value.amount == 0
      && r.value.updatedStatus == []
      && r.value.trackingId == DefaultTrackingId(uuid)
      && r.value.createdAt == now == r.value.updatedAt
  {
  }

  // ---------------------------------------------------------------------------
  // Updates through findOneAndUpdate

  /** The two single-field updates the admin controller sends through `findByIdAndUpdate`. */
  datatype Update = SetPaymentStatus(paymentStatus: string) | SetAmount(amount: Option<int>)

  /** `runValidators: true` checks the updated paths only: the payment enum; `amount` has no validator. */
  function UpdateErrors(u: Update): set<string> {
    match u
    case SetPaymentStatus(p) => if p in PaymentValues then {} else {"paymentStatus"}
    case SetAmount(_) => {}
  }

  /** `findOneAndUpdate` with the schema's pre-hook: the update is applied and `updatedAt`
      is set to the current time. An absent amount is stripped from the update. */
  function FindOneAndUpdate(s: Shipment, u: Update, now: int): (r: Shipment)
    ensures r.updatedAt == now
    ensures r.(amount := s.amount, paymentStatus := s.paymentStatus, updatedAt := s.updatedAt) == s
    ensures r.paymentStatus == if u.SetPaymentStatus? then u.paymentStatus else s.paymentStatus
    ensures r.amount == if u.SetAmount? && u.amount.Some? then u.amount.value else s.amount
    ensures ValidShipment(s) && UpdateErrors(u) == {} ==> ValidShipment(r)
  {
    match u
    case SetPaymentStatus(p) => s.(paymentStatus := p, updatedAt := now)
    case SetAmount(a) => s.(amount := GetOr(a, s.amount), updatedAt := now)
  }
}
