/** The Shipment collection: documents keyed by id, with the unique index on
    `trackingId`. */
module Store {
  import opened Common
  import opened Schema

  /** The unique index on `trackingId`: no two documents share one. */
  predicate UniqueTrackingIds(db: map<Id, Shipment>) {
    forall a, b :: a in db && b in db && db[a].trackingId == db[b].trackingId ==> a == b
  }

  /** What holds of the collection when every write goes through the schema. */
  predicate ValidStore(db: map<Id, Shipment>) {
    && (forall id :: id in db ==> db[id].id == id && ValidShipment(db[id]))
    && UniqueTrackingIds(db)
  }

  predicate TrackingIdTaken(db: map<Id, Shipment>, t: string) {
    exists id :: id in db && db[id].trackingId == t
  }

  /** Inserting a valid document under its own new id, with a tracking id not yet taken,
      keeps the collection valid. */
  lemma InsertKeepsValid(db: map<Id, Shipment>, id: Id, s: Shipment)
    requires ValidStore(db)
    requires id !in db && s.id == id && ValidShipment(s)
    requires !TrackingIdTaken(db, s.trackingId)
    ensures ValidStore(db[id := s])
  {
  }

  /** Replacing a document by a valid one with the same id and tracking id keeps the
      collection valid. */
  lemma ReplaceKeepsValid(db: map<Id, Shipment>, id: Id, s: Shipment)
    requires ValidStore(db)
    requires id in db && s.id == id && ValidShipment(s) && s.trackingId == db[id].trackingId
    ensures ValidStore(db[id := s])
  {
  }

  /** The 404 both controllers raise for an id the collection does not hold. */
  function NotFound(id: Id): Error {
    Http(404, "Shipment not found with id of " + id)
  }

  /** `ordered` lists every id of the collection once: the order in which the database
      returns documents (its natural order, or the order a sort asks for). */
  predicate Enumerates(ordered: seq<Id>, db: map<Id, Shipment>) {
    && (forall i, j :: 0 <= i < j < |ordered| ==> ordered[i] != ordered[j])
    && (forall i :: 0 <= i < |ordered| ==> ordered[i] in db)
    && (forall id :: id in db ==> id in ordered)
  }

  /** The documents of the collection in the order `ordered` gives. */
  function Records(ordered: seq<Id>, db: map<Id, Shipment>): (rs: seq<Shipment>)
    requires forall i :: 0 <= i < |ordered| ==> ordered[i] in db
    ensures |rs| == |ordered|
    ensures forall i :: 0 <= i < |ordered| ==> rs[i] == db[ordered[i]]
  {
    seq(|ordered|, i requires 0 <= i < |ordered| => db[ordered[i]])
  }

  /** The collection as the controllers see it. */
  class ShipmentStore {
    var shipments: map<Id, Shipment>

    ghost predicate Valid()
      reads this
    {
      ValidStore(shipments)
    }

    constructor ()
      ensures Valid() && shipments == map[]
    {
      shipments := map[];
    }
  }
}
