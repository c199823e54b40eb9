/** The inventory accounting service: availability checks and the six batch mutators,
    each one transaction over the store. */
module InventoryService {
  import opened InventoryTypes
  import opened InventoryEntity
  import opened InventoryStore
  import opened InventoryRules

  /** The location a decrement reads at: the explicit one, or the default one when it is null. */
  function Resolve(location: Option<LocationId>, defaultLocation: Option<LocationId>): Option<LocationId>
  {
    if location.Some? then location else defaultLocation
  }

  /** The rows stored at a location, by sku. */
  function RowsAt(rows: Rows, location: LocationId): (r: map<SkuId, Row>)
    ensures forall s :: s in r <==> RowKey(s, location) in rows
    ensures forall s :: s in r ==> r[s] == rows[RowKey(s, location)]
  {
    map k | k in rows && k.location == location :: k.sku := rows[k]
  }

  /** The skus of `catalog` that have no row at a location. */
  function SkusNotAt(rows: Rows, catalog: set<SkuId>, location: LocationId): (r: set<SkuId>)
    ensures forall s :: s in r <==> s in catalog && RowKey(s, location) !in rows
  {
    set s | s in catalog && RowKey(s, location) !in rows
  }

  /** A catalog sku either has a row at the location or is reported as missing there, never both. */
  lemma RowsAtPartitionCatalog(rows: Rows, catalog: set<SkuId>, location: LocationId, s: SkuId)
    requires s in catalog
    ensures s in SkusNotAt(rows, catalog, location) <==> s !in RowsAt(rows, location)
  {
  }

  class InventoryServiceImpl {
    const dao: InventoryDao

    constructor (dao: InventoryDao)
      ensures this.dao == dao
    {
      this.dao := dao;
    }

    /** The availability check at the default location. */
    function IsQuantityAvailable(sku: Option<Sku>, quantity: Option<int>): Result<bool>
      reads dao
    {
      InventoryRules.IsQuantityAvailable(dao.rows, sku, quantity, dao.defaultLocation)
    }

    /** The availability check at the given location. */
    function IsQuantityAvailableAt(sku: Option<Sku>, quantity: Option<int>, location: Option<LocationId>): Result<bool>
      reads dao
    {
      InventoryRules.IsQuantityAvailable(dao.rows, sku, quantity, location)
    }

    function ReadInventory(sku: SkuId, location: Option<LocationId>): Option<Row>
      reads dao
    {
      Find(dao.rows, sku, location)
    }

    function ReadInventoryAtDefault(sku: SkuId): Option<Row>
      reads dao
    {
      Find(dao.rows, sku, dao.defaultLocation)
    }

    function ReadInventoryForFulfillmentLocation(location: LocationId): map<SkuId, Row>
      reads dao
    {
      RowsAt(dao.rows, location)
    }

    function ReadSkusNotAtFulfillmentLocation(catalog: set<SkuId>, location: LocationId): set<SkuId>
      reads dao
    {
      SkusNotAt(dao.rows, catalog, location)
    }

    method Save(inv: Inventory) returns (outcome: Outcome)
      modifies dao
      ensures (outcome, dao.rows) == SaveRecord(old(dao.rows), inv.Record())
      ensures dao.defaultLocation == old(dao.defaultLocation)
    {
      outcome := dao.Save(inv);
    }

    /** Saves an entity read for update; another transaction may commit the same row between
        the read and the save (`rival[k]`). */
    method SaveContended(inv: Inventory, k: RowKey, rival: Rival) returns (outcome: Outcome)
      requires k in dao.rows
      modifies dao
      ensures var before := if k in rival then old(dao.rows)[k := Committed(old(dao.rows)[k], rival[k])]
                            else old(dao.rows);
              (outcome, dao.rows) == SaveRecord(before, inv.Record())
      ensures dao.defaultLocation == old(dao.defaultLocation)
    {
      if k in rival {
        dao.ConcurrentCommit(k, rival[k]);
      }
      outcome := dao.Save(inv);
    }

    /** One iteration of the loop shared by the mutators: the checks on the entry, the read
        for update, and the adjustment and save of the entity or the bookkeeping of a short
        sku. The transaction's store state, its short skus and its written rows move as
        `Step` says; an exception thrown is returned. */
    method Visit(m: Mutation, e: Entry, rival: Rival, unavailable: map<SkuId, int>, written: set<RowKey>)
      returns (failure: Option<Failure>, unavailable': map<SkuId, int>, written': set<RowKey>)
      modifies dao
      ensures Step(LoopState(old(dao.rows), unavailable, written), m, e, rival) ==
              if failure.None? then Running(LoopState(dao.rows, unavailable', written'))
              else Aborted(failure.value, LoopState(dao.rows, unavailable', written'))
      ensures dao.defaultLocation == old(dao.defaultLocation)
    {
      failure, unavailable', written' := None, unavailable, written;
      match Admit(e) {
        case Skip =>
        case Reject(f) =>
          failure := Some(f);
        case Proceed(sku, q) =>
          var inv := dao.ReadInventoryForUpdate(sku.id, m.location);
          if inv != null {
            var k := RowKey(sku.id, m.location.value);
            var current := RecordQuantity(inv.Record(), m.field).value;
            if m.Decrement? && current - q < 0 {
              unavailable' := unavailable[sku.id := current];
            } else {
              inv.SetQuantity(m.field, if m.Decrement? then current - q else current + q);
              var saved := SaveContended(inv, k, rival);
              if saved.Fail? {
                failure := Some(saved.failure);
              } else {
                written' := written + {k};
              }
            }
          } else if m.Decrement? {
            unavailable' := unavailable[sku.id := 0];
          } else if m.atDefault {
            failure := Some(IllegalState);
          } else {
            var created := new Inventory();
            created.SetQuantityAvailable(Some(q));
            created.SetQuantityOnHand(Some(q));
            created.SetSku(Some(sku.id));
            created.SetFulfillmentLocation(m.location);
            var saved := dao.Save(created);
            if saved.Fail? {
              failure := Some(saved.failure);
            } else {
              written' := written + {RowKey(sku.id, m.location.value)};
            }
          }
      }
    }

    /** The loop shared by the six mutators, inside one transaction that every exception
        rolls back. */
    method Adjust(m: Mutation, batch: Batch, rival: Rival) returns (outcome: Outcome)
      modifies dao
      ensures Effect(outcome, dao.rows) == Apply(old(dao.rows), m, batch, rival)
      ensures dao.defaultLocation == old(dao.defaultLocation)
    {
      var snapshot := dao.rows;
      var unavailable: map<SkuId, int> := map[];
      var written: set<RowKey> := {};
      var i := 0;
      while i < |batch|
        invariant 0 <= i <= |batch|
        invariant Run(Start(snapshot), m, batch[..i], rival) == Running(LoopState(dao.rows, unavailable, written))
        invariant dao.defaultLocation == old(dao.defaultLocation)
      {
        assert batch[..i + 1][..i] == batch[..i];
        var failure;
        failure, unavailable, written := Visit(m, batch[i], rival, unavailable, written);
        if failure.Some? {
          dao.Rollback(snapshot, written);
          AbortedStays(Start(snapshot), m, batch, rival, i + 1);
          return Fail(failure.value);
        }
        i := i + 1;
      }
      assert batch[..i] == batch;
      if |unavailable| > 0 {
        dao.Rollback(snapshot, written);
        return Fail(Unavailable(unavailable));
      }
      return Ok;
    }

    /** Takes each quantity off the sku's available quantity at the location (the default
        location when it is null). */
    method DecrementInventory(batch: Batch, location: Option<LocationId>, rival: Rival) returns (outcome: Outcome)
      modifies dao
      ensures Effect(outcome, dao.rows) == Apply(old(dao.rows), Decrement(Available, Resolve(location, old(dao.defaultLocation))), batch, rival)
      ensures dao.defaultLocation == old(dao.defaultLocation)
    {
      outcome := Adjust(Decrement(Available, Resolve(location, dao.defaultLocation)), batch, rival);
    }

    /** Takes each quantity off the sku's quantity on hand at the location (the default
        location when it is null). */
    method DecrementInventoryOnHand(batch: Batch, location: Option<LocationId>, rival: Rival) returns (outcome: Outcome)
      modifies dao
      ensures Effect(outcome, dao.rows) == Apply(old(dao.rows), Decrement(OnHand, Resolve(location, old(dao.defaultLocation))), batch, rival)
      ensures dao.defaultLocation == old(dao.defaultLocation)
    {
      outcome := Adjust(Decrement(OnHand, Resolve(location, dao.defaultLocation)), batch, rival);
    }

    /** Adds each quantity to the sku's available quantity at the location, creating missing rows. */
    method IncrementInventory(batch: Batch, location: Option<LocationId>, rival: Rival) returns (outcome: Outcome)
      modifies dao
      ensures Effect(outcome, dao.rows) == Apply(old(dao.rows), Increment(Available, location, false), batch, rival)
      ensures dao.defaultLocation == old(dao.defaultLocation)
    {
      outcome := Adjust(Increment(Available, location, false), batch, rival);
    }

    /** Adds each quantity to the sku's available quantity at the default location; a missing
        row is an error. */
    method IncrementInventoryAtDefault(batch: Batch, rival: Rival) returns (outcome: Outcome)
      modifies dao
      ensures Effect(outcome, dao.rows) == Apply(old(dao.rows), Increment(Available, old(dao.defaultLocation), true), batch, rival)
      ensures dao.defaultLocation == old(dao.defaultLocation)
    {
      outcome := Adjust(Increment(Available, dao.defaultLocation, true), batch, rival);
    }

    /** Adds each quantity to the sku's quantity on hand at the location, creating missing rows. */
    method IncrementInventoryOnHand(batch: Batch, location: Option<LocationId>, rival: Rival) returns (outcome: Outcome)
      modifies dao
      ensures Effect(outcome, dao.rows) == Apply(old(dao.rows), Increment(OnHand, location, false), batch, rival)
      ensures dao.defaultLocation == old(dao.defaultLocation)
    {
      outcome := Adjust(Increment(OnHand, location, false), batch, rival);
    }

    /** Adds each quantity to the sku's quantity on hand at the default location; a missing
        row is an error. */
    method IncrementInventoryOnHandAtDefault(batch: Batch, rival: Rival) returns (outcome: Outcome)
      modifies dao
      ensures Effect(outcome, dao.rows) == Apply(old(dao.rows), Increment(OnHand, old(dao.defaultLocation), true), batch, rival)
      ensures dao.defaultLocation == old(dao.defaultLocation)
    {
      outcome := Adjust(Increment(OnHand, dao.defaultLocation, true), batch, rival);
    }
  }
}
