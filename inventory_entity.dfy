/** The inventory entity: one object per (sku, fulfillment location) row, with setters
    that the accounting service calls before handing the object to the store. */
module InventoryEntity {
  import opened InventoryTypes

  /** The persistent state of an entity object, as the store sees it on save. A null
      (fresh) version means the object has never been persisted. */
  datatype InventoryRecord = InventoryRecord(
    sku: Option<SkuId>,
    location: Option<LocationId>,
    available: Option<int>,
    onHand: Option<int>,
    version: Option<nat>)

  class Inventory {
    var id: Option<int>
    var fulfillmentLocation: Option<LocationId>
    var sku: Option<SkuId>
    var quantityAvailable: Option<int>
    var quantityOnHand: Option<int>
    /** Maintained by the persistence layer only: the class has no setter for it. */
    var version: Option<nat>

    /** A freshly created entity instance: every field is null. */
    constructor ()
      ensures id == None && fulfillmentLocation == None && sku == None
      ensures quantityAvailable == None && quantityOnHand == None && version == None
    {
      id := None;
      fulfillmentLocation := None;
      sku := None;
      quantityAvailable := None;
      quantityOnHand := None;
      version := None;
    }

    /** The entity as loaded from a committed row. */
    constructor Loaded(k: RowKey, r: Row)
      ensures Record() == InventoryRecord(Some(k.sku), Some(k.location), Some(r.available), Some(r.onHand), Some(r.version))
      ensures id == None
    {
      id := None;
      fulfillmentLocation := Some(k.location);
      sku := Some(k.sku);
      quantityAvailable := Some(r.available);
      quantityOnHand := Some(r.onHand);
      version := Some(r.version);
    }

    function Record(): InventoryRecord
      reads this
    {
      InventoryRecord(sku, fulfillmentLocation, quantityAvailable, quantityOnHand, version)
    }

    method SetId(v: Option<int>)
      modifies this
      ensures id == v
      ensures Record() == old(Record())
    {
      id := v;
    }

    method SetFulfillmentLocation(v: Option<LocationId>)
      modifies this
      ensures Record() == old(Record()).(location := v)
      ensures id == old(id)
    {
      fulfillmentLocation := v;
    }

    method SetSku(v: Option<SkuId>)
      modifies this
      ensures Record() == old(Record()).(sku := v)
      ensures id == old(id)
    {
      sku := v;
    }

    method SetQuantityAvailable(v: Option<int>)
      modifies this
      ensures Record() == old(Record()).(available := v)
      ensures id == old(id)
    {
      quantityAvailable := v;
    }

    method SetQuantityOnHand(v: Option<int>)
      modifies this
      ensures Record() == old(Record()).(onHand := v)
      ensures id == old(id)
    {
      quantityOnHand := v;
    }

    /** Sets the quantity named by `f`; the service's two update paths differ only in it. */
    method SetQuantity(f: Field, v: int)
      modifies this
      ensures f == Available ==> Record() == old(Record()).(available := Some(v))
      ensures f == OnHand ==> Record() == old(Record()).(onHand := Some(v))
      ensures id == old(id)
    {
      match f {
        case Available => SetQuantityAvailable(Some(v));
        case OnHand => SetQuantityOnHand(Some(v));
      }
    }
  }

  /** The quantity named by `f` in a record (null when unset). */
  function RecordQuantity(rec: InventoryRecord, f: Field): Option<int>
  {
    match f
    case Available => rec.available
    case OnHand => rec.onHand
  }
}
