/** The inventory record store behind the accounting service: committed rows keyed by
    (sku, location), a configured default location, a version-checked save, and the
    transaction rollback that undoes one call's own writes. */
module InventoryStore {
  import opened InventoryTypes
  import opened InventoryEntity

  /** What the store does with a save of `rec`. Null sku, location or quantity columns
      violate the table's not-null constraints; a new record (null version) is inserted
      at version 0 unless its (sku, location) pair is taken; an existing record is written
      only if the version it was read at is still the stored one, and its version then
      advances by one. */
  function SaveRecord(rows: Rows, rec: InventoryRecord): (r: (Outcome, Rows))
    ensures r.0.Fail? ==> r.1 == rows
    ensures r.0.Ok? ==> rec.sku.Some? && rec.location.Some? && rec.available.Some? && rec.onHand.Some?
    ensures r.0.Ok? ==>
      var k := RowKey(rec.sku.value, rec.location.value);
      && k in r.1 && r.1 == rows[k := Row(rec.available.value, rec.onHand.value, r.1[k].version)]
      && (rec.version.None? ==> k !in rows && r.1[k].version == 0)
      && (rec.version.Some? ==> k in rows && rows[k].version == rec.version.value && r.1[k].version == rec.version.value + 1)
    ensures r.0 == Fail(Concurrent) <==>
      && rec.sku.Some? && rec.location.Some? && rec.available.Some? && rec.onHand.Some? && rec.version.Some?
      && var k := RowKey(rec.sku.value, rec.location.value);
         (k !in rows || rows[k].version != rec.version.value)
  {
    if rec.sku.None? || rec.location.None? || rec.available.None? || rec.onHand.None? then
      (Fail(ConstraintViolation), rows)
    else
      var k := RowKey(rec.sku.value, rec.location.value);
      match rec.version
      case None =>
        if k in rows then (Fail(ConstraintViolation), rows)
        else (Ok, rows[k := Row(rec.available.value, rec.onHand.value, 0)])
      case Some(v) =>
        if k !in rows || rows[k].version != v then (Fail(Concurrent), rows)
        else (Ok, rows[k := Row(rec.available.value, rec.onHand.value, v + 1)])
  }

  /** Two writers read the same row at the same version and both try to save a new value:
      the first save succeeds and the second one is refused, so the first write is not lost. */
  lemma StaleWriteRejected(rows: Rows, k: RowKey, first: InventoryRecord, second: InventoryRecord)
    requires k in rows
    requires first.sku == second.sku == Some(k.sku) && first.location == second.location == Some(k.location)
    requires first.version == second.version == Some(rows[k].version)
    requires first.available.Some? && first.onHand.Some? && second.available.Some? && second.onHand.Some?
    ensures SaveRecord(rows, first).0 == Ok
    ensures var afterFirst := SaveRecord(rows, first).1;
            SaveRecord(afterFirst, second) == (Fail(Concurrent), afterFirst)
            && afterFirst[k].available == first.available.value
  {
  }

  /** The rows as they are after a transaction rolls back: every row it wrote goes back to its
      value in `snapshot` (a row it created disappears), and every other row keeps what other
      transactions committed meanwhile. */
  function Restore(rows: Rows, snapshot: Rows, written: set<RowKey>): (r: Rows)
    ensures forall k :: k in r <==> k in rows && (k in snapshot || k !in written)
    ensures forall k :: k in r ==> r[k] == if k in written then snapshot[k] else rows[k]
  {
    map k | k in rows && (k in snapshot || k !in written) :: if k in written then snapshot[k] else rows[k]
  }

  /** A row as found by a plain read; a null location finds nothing. */
  function Find(rows: Rows, sku: SkuId, location: Option<LocationId>): (r: Option<Row>)
    ensures r.Some? <==> location.Some? && RowKey(sku, location.value) in rows
    ensures r.Some? ==> r.value == rows[RowKey(sku, location.value)]
  {
    if location.Some? && RowKey(sku, location.value) in rows then Some(rows[RowKey(sku, location.value)]) else None
  }

  class InventoryDao {
    var rows: Rows
    /** The location the fulfillment location service reports as the default one, if any. */
    var defaultLocation: Option<LocationId>

    constructor (rows: Rows, defaultLocation: Option<LocationId>)
      ensures this.rows == rows && this.defaultLocation == defaultLocation
    {
      this.rows := rows;
      this.defaultLocation := defaultLocation;
    }

    /** Reads a row for update and hands back a fresh entity object for it, or null. */
    method ReadInventoryForUpdate(sku: SkuId, location: Option<LocationId>) returns (inv: Inventory?)
      ensures inv == null <==> Find(rows, sku, location).None?
      ensures inv != null ==> fresh(inv) && inv.id == None
      ensures inv != null ==>
        var r := rows[RowKey(sku, location.value)];
        inv.Record() == InventoryRecord(Some(sku), location, Some(r.available), Some(r.onHand), Some(r.version))
    {
      if location.Some? && RowKey(sku, location.value) in rows {
        inv := new Inventory.Loaded(RowKey(sku, location.value), rows[RowKey(sku, location.value)]);
      } else {
        inv := null;
      }
    }

    method Save(inv: Inventory) returns (outcome: Outcome)
      modifies this
      ensures (outcome, rows) == SaveRecord(old(rows), inv.Record())
      ensures defaultLocation == old(defaultLocation)
    {
      var r := SaveRecord(rows, inv.Record());
      outcome, rows := r.0, r.1;
    }

    /** Another transaction commits the quantities `c` to row `k`, which advances its version. */
    method ConcurrentCommit(k: RowKey, c: Commit)
      requires k in rows
      modifies this
      ensures rows == old(rows)[k := Committed(old(rows)[k], c)]
      ensures defaultLocation == old(defaultLocation)
    {
      rows := rows[k := Committed(rows[k], c)];
    }

    /** Rolls back the current transaction, which began at `snapshot` and wrote `written`. */
    method Rollback(snapshot: Rows, written: set<RowKey>)
      modifies this
      ensures rows == Restore(old(rows), snapshot, written)
      ensures defaultLocation == old(defaultLocation)
    {
      rows := Restore(rows, snapshot, written);
    }
  }
}
