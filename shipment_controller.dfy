/** The customer-facing shipment controller: create a shipment for the caller, list the
    caller's shipments, read one shipment (owner or admin), and the public tracking
    lookup with its reduced view. */
module ShipmentController {
  import opened Common
  import opened Schema
  import opened Store
  import opened Auth

  // ---------------------------------------------------------------------------
  // createShipment

  /** `req.body.user = req.user.id`: whatever owner the client sent is replaced. */
  function OwnedBody(body: ShipmentBody, requester: User): ShipmentBody {
    body.(user := Some(requester.id))
  }

  /** `createShipment`: the body's `user` is overwritten with the caller's id, then
      `Shipment.create` fills the defaults and validates; the insert then fails on a
      duplicate `_id` or on the unique `trackingId` index. `newId` is the new ObjectId,
      `uuid` the output of uuidv4 and `now` the clock. */
  method CreateShipment(store: ShipmentStore, requester: User, body: ShipmentBody,
                        newId: Id, uuid: string, now: int)
    returns (r: Result<Shipment>)
    requires store.Valid()
    modifies store
    ensures store.Valid()
    ensures var b := OwnedBody(body, requester);
      BodyErrors(b) != {} ==> r == Err(Validation(BodyErrors(b)))
    ensures var b := OwnedBody(body, requester);
      BodyErrors(b) == {} && newId in old(store.shipments) ==> r == Err(DuplicateKey("_id"))
    ensures var b := OwnedBody(body, requester);
      BodyErrors(b) == {} && newId !in old(store.shipments) ==>
      (TrackingIdTaken(old(store.shipments), NewShipment(b, newId, uuid, now).value.trackingId) <==>
       r == Err(DuplicateKey("trackingId")))
    ensures var b := OwnedBody(body, requester);
      r.Ok? <==> BodyErrors(b) == {} && newId !in old(store.shipments) && r != Err(DuplicateKey("trackingId"))
    ensures r.Ok? ==> r.value == NewShipment(OwnedBody(body, requester), newId, uuid, now).value
    ensures r.Ok? ==> r.value.user == requester.id && r.value.id == newId && ValidShipment(r.value)
    ensures r.Ok? ==> store.shipments == old(store.shipments)[newId := r.value]
    ensures r.Err? ==> store.shipments == old(store.shipments)
  {
    var b := OwnedBody(body, requester);
    var created := NewShipment(b, newId, uuid, now);
    if created.Err? {
      return created;
    }
    var shipment := created.value;
    if newId in store.shipments {
      return Err(DuplicateKey("_id"));
    }
    if TrackingIdTaken(store.shipments, shipment.trackingId) {
      return Err(DuplicateKey("trackingId"));
    }
    InsertKeepsValid(store.shipments, newId, shipment);
    store.shipments := store.shipments[newId := shipment];
    r := Ok(shipment);
  }

  // ---------------------------------------------------------------------------
  // getShipments

  /** The ids, in the database's order, of the documents `user` owns. */
  function OwnedIds(ordered: seq<Id>, db: map<Id, Shipment>, user: Id): (r: seq<Id>)
    requires forall i :: 0 <= i < |ordered| ==> ordered[i] in db
    ensures forall i :: 0 <= i < |r| ==> r[i] in db && db[r[i]].user == user
    ensures forall id :: id in db && db[id].user == user && id in ordered ==> id in r
    ensures forall id :: id in r ==> id in ordered
    ensures (forall i, j :: 0 <= i < j < |ordered| ==> ordered[i] != ordered[j]) ==>
              (forall i, j :: 0 <= i < j < |r| ==> r[i] != r[j])
  {
    if ordered == [] then []
    else
      var tail := OwnedIds(ordered[1..], db, user);
      assert forall id :: id in tail ==> id in ordered[1..];
      (if db[ordered[0]].user == user then [ordered[0]] else []) + tail
  }

  /** `getShipments`: `find({user: caller})`, so exactly the caller's documents, in the
      database's order, and `count` is their number. */
  function GetShipments(db: map<Id, Shipment>, ordered: seq<Id>, requester: User): (r: seq<Shipment>)
    requires Enumerates(ordered, db)
    ensures forall s :: s in r ==> s in db.Values && s.user == requester.id
    ensures forall id :: id in db && db[id].user == requester.id ==> db[id] in r
  {
    var ids := OwnedIds(ordered, db, requester.id);
    var r := seq(|ids|, i requires 0 <= i < |ids| => db[ids[i]]);
    assert forall id :: id in db && db[id].user == requester.id ==> db[id] in r by {
      forall id | id in db && db[id].user == requester.id
        ensures db[id] in r
      {
        assert id in ids;
        var i :| 0 <= i < |ids| && ids[i] == id;
        assert r[i] == db[id];
      }
    }
    r
  }

  /** A sequence without repetitions has as many elements as its set. */
  lemma {:induction false} DistinctCardinality(xs: seq<Id>)
    requires forall i, j :: 0 <= i < j < |xs| ==> xs[i] != xs[j]
    ensures |set x | x in xs| == |xs|
  {
    if xs != [] {
      var tail := xs[1..];
      DistinctCardinality(tail);
      assert forall i :: 0 <= i < |tail| ==> tail[i] == xs[i + 1];
      assert xs[0] !in tail;
      assert (set x | x in xs) == (set x | x in tail) + {xs[0]};
    }
  }

  /** The caller's `count` is the number of documents the caller owns. */
  lemma GetShipmentsCount(db: map<Id, Shipment>, ordered: seq<Id>, requester: User)
    requires Enumerates(ordered, db)
    ensures |GetShipments(db, ordered, requester)| == |set id | id in db && db[id].user == requester.id|
  {
    var ids := OwnedIds(ordered, db, requester.id);
    DistinctCardinality(ids);
    assert (set x | x in ids) == (set id | id in db && db[id].user == requester.id);
  }

  // ---------------------------------------------------------------------------
  // getShipment

  function Forbidden(requester: User): Error {
    Http(403, "User " + requester.id + " is not authorized to access this shipment")
  }

  /** `getShipment`: an unknown id is 404 whoever asks; a known one is 403 unless the
      caller owns it or is an admin. */
  function GetShipment(db: map<Id, Shipment>, requester: User, id: Id): (r: Result<Shipment>)
    ensures id !in db ==> r == Err(NotFound(id))
    ensures id in db ==> (r.Err? <==> db[id].user != requester.id && requester.role != "admin")
    ensures r.Err? && id in db ==> r.error == Forbidden(requester)
    ensures r.Ok? ==> id in db && r.value == db[id]
  {
    if id !in db then Err(NotFound(id))
    else if db[id].user != requester.id && requester.role != "admin" then Err(Forbidden(requester))
    else Ok(db[id])
  }

  /** A shipment created by a user is readable by that user and by every admin, and by
      no other non-admin user. */
  lemma GetShipmentAccess(db: map<Id, Shipment>, id: Id, owner: User, admin: User, other: User)
    requires id in db && db[id].user == owner.id
    requires admin.role == "admin"
    requires other.id != owner.id && other.role != "admin"
    ensures GetShipment(db, owner, id) == Ok(db[id])
    ensures GetShipment(db, admin, id) == Ok(db[id])
    ensures GetShipment(db, other, id) == Err(Forbidden(other))
  {
  }

  // ---------------------------------------------------------------------------
  // trackShipment

  /** The public view of a shipment: no owner, amount, package or history. */
  datatype TrackingView = TrackingView(
    id: Id,
    trackingId: string,
    status: string,
    payment: string,
    source: Address,
    destination: Address,
    createdAt: int,
    updatedAt: int)

  function Project(s: Shipment): TrackingView {
    TrackingView(s.id, s.trackingId, s.status, s.paymentStatus, s.source, s.destination, s.createdAt, s.updatedAt)
  }

  /** The view depends on the public fields only: two shipments that differ only in the
      owner, amount, package, history and type look the same. */
  lemma ProjectHidesPrivateFields(s: Shipment, t: Shipment)
    requires s.(user := t.user, amount := t.amount, packageDetails := t.packageDetails,
                updatedStatus := t.updatedStatus, shipmentType := t.shipmentType) == t
    ensures Project(s) == Project(t)
  {
  }

  /** And it shows every public field: two views are equal only when the public fields are. */
  lemma ProjectKeepsPublicFields(s: Shipment, t: Shipment)
    requires Project(s) == Project(t)
    ensures s.(user := t.user, amount := t.amount, packageDetails := t.packageDetails,
               updatedStatus := t.updatedStatus, shipmentType := t.shipmentType) == t
  {
  }

  /** `findOne({trackingId})`: the first id in the database's order whose document has
      that tracking id. */
  function FirstTracked(ordered: seq<Id>, db: map<Id, Shipment>, trackingId: string): (r: Option<Id>)
    requires forall i :: 0 <= i < |ordered| ==> ordered[i] in db
    ensures r.Some? ==> r.value in ordered && r.value in db && db[r.value].trackingId == trackingId
    ensures r.None? ==> forall i :: 0 <= i < |ordered| ==> db[ordered[i]].trackingId != trackingId
  {
    if ordered == [] then None
    else if db[ordered[0]].trackingId == trackingId then Some(ordered[0])
    else
      var r := FirstTracked(ordered[1..], db, trackingId);
      assert forall i :: 1 <= i < |ordered| ==> ordered[i] == ordered[1..][i - 1];
      r
  }

  /** `trackShipment`: 404 when no document has the tracking id, otherwise the public view
      of the document found. */
  function TrackShipment(db: map<Id, Shipment>, ordered: seq<Id>, trackingId: string): (r: Result<TrackingView>)
    requires Enumerates(ordered, db)
    ensures r.Err? <==> !TrackingIdTaken(db, trackingId)
    ensures r.Err? ==> r.error == Http(404, "Shipment not found with tracking ID of " + trackingId)
    ensures r.Ok? ==> exists id :: id in db && db[id].trackingId == trackingId && r.value == Project(db[id])
  {
    match FirstTracked(ordered, db, trackingId)
    case None =>
      assert forall id :: id in db ==> db[id].trackingId != trackingId by {
        forall id | id in db
          ensures db[id].trackingId != trackingId
        {
          var i :| 0 <= i < |ordered| && ordered[i] == id;
        }
      }
      Err(Http(404, "Shipment not found with tracking ID of " + trackingId))
    case Some(id) => Ok(Project(db[id]))
  }

  /** With the unique index the tracked document does not depend on the database's order:
      it is the one document holding that tracking id. */
  lemma TrackShipmentFindsTheOne(db: map<Id, Shipment>, ordered: seq<Id>, id: Id)
    requires ValidStore(db) && Enumerates(ordered, db)
    requires id in db
    ensures TrackShipment(db, ordered, db[id].trackingId) == Ok(Project(db[id]))
  {
    var t := db[id].trackingId;
    var found := FirstTracked(ordered, db, t);
    assert found.Some?;
    assert db[found.value].trackingId == db[id].trackingId;
  }
}
