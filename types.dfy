/** Values shared by the whole inventory model: skus and their tracking modes, the
    stored inventory rows, the sku-to-quantity batches handed to the accounting
    service, and the failures its operations can end in. */
module InventoryTypes {

  datatype Option<T> = None | Some(value: T)

  /** Catalog and persistence identifiers (Java `Long`). */
  type SkuId = int
  type LocationId = int
  type OrderId = int

  /** The tracking mode of a sku or category. The mode is an extensible enumeration,
      so values other than NONE and BASIC can occur. */
  datatype InventoryType = NONE | BASIC | OtherType(name: string)

  datatype Category = Category(inventoryType: Option<InventoryType>)

  /** The catalog's sku as the inventory core sees it: its id, whether it is active,
      its own tracking mode and its product's default category. */
  datatype Sku = Sku(id: SkuId, active: bool, inventoryType: Option<InventoryType>, defaultCategory: Option<Category>)

  /** A key of a `Map<Sku, Integer>` as it is at run time. Generics are erased, so a map
      built with other keys (null, or fulfillment locations) can be passed where a
      sku map is expected; `ForeignKey` is such a non-sku key. */
  datatype Key = SkuKey(sku: Sku) | NullKey | ForeignKey(location: LocationId)

  /** A value of such a map: an `Integer`, a null, or an object of another class. */
  datatype Value = Qty(q: int) | NullQty | ForeignValue

  datatype Entry = Entry(key: Key, value: Value)

  /** A `HashMap` as the sequence of its entries, in its (unspecified) iteration order. */
  type Batch = seq<Entry>

  /** The identity a `HashMap` uses for a key: skus are equal when their ids are. */
  datatype KeyIdentity = SkuIdentity(id: SkuId) | NullIdentity | LocationIdentity(location: LocationId)

  function IdentityOf(k: Key): KeyIdentity
  {
    match k
    case SkuKey(s) => SkuIdentity(s.id)
    case NullKey => NullIdentity
    case ForeignKey(l) => LocationIdentity(l)
  }

  /** No two entries of a map share a key. */
  ghost predicate DistinctKeys(b: Batch)
  {
    forall i, j :: 0 <= i < j < |b| ==> IdentityOf(b[i].key) != IdentityOf(b[j].key)
  }

  /** The unique (sku, fulfillment location) pair that identifies a stored inventory row. */
  datatype RowKey = RowKey(sku: SkuId, location: LocationId)

  /** A committed inventory row: both quantities and the optimistic-locking version. */
  datatype Row = Row(available: int, onHand: int, version: nat)

  type Rows = map<RowKey, Row>

  /** The quantities another transaction commits to a row. Its commit also advances the
      row's version. That transaction runs the same checked code, so it writes no negative
      quantity. */
  datatype Commit = Commit(available: nat, onHand: nat)

  /** The rows other transactions commit to between one call's read for update and its save. */
  type Rival = map<RowKey, Commit>

  /** The row that another transaction's commit `c` leaves in place of `r`. */
  function Committed(r: Row, c: Commit): Row
  {
    Row(c.available, c.onHand, r.version + 1)
  }

  /** Row `r` carries the quantities of commit `c`. */
  predicate Holds(r: Row, c: Commit)
  {
    r.available == c.available && r.onHand == c.onHand
  }

  /** Which of the two quantities an operation adjusts. */
  datatype Field = Available | OnHand

  function Quantity(r: Row, f: Field): int
  {
    match f
    case Available => r.available
    case OnHand => r.onHand
  }

  function WithQuantity(r: Row, f: Field, v: int): (r': Row)
    ensures Quantity(r', f) == v
    ensures r'.version == r.version
    ensures f == Available ==> r'.onHand == r.onHand
    ensures f == OnHand ==> r'.available == r.available
  {
    match f
    case Available => r.(available := v)
    case OnHand => r.(onHand := v)
  }

  /** Every stored quantity is non-negative. */
  ghost predicate NonNegative(rows: Rows)
  {
    forall k :: k in rows ==> rows[k].available >= 0 && rows[k].onHand >= 0
  }

  /** The exceptions of the core. `Unavailable` carries the map from sku id to the quantity
      that was found; `UnavailableSku` is the availability check's exception, which names the
      sku id and the requested quantity. `ConstraintViolation` is a not-null or unique
      constraint of the inventory table rejected by the persistence layer. */
  datatype Failure =
    | IllegalArgument
    | IllegalState
    | NullPointer
    | ClassCast
    | ConstraintViolation
    | Concurrent
    | Unavailable(available: map<SkuId, int>)
    | UnavailableSku(skuId: Option<SkuId>, quantity: Option<int>)

  /** Unchecked (`RuntimeException`) failures; the other two are checked exceptions. */
  predicate IsRuntime(f: Failure)
  {
    !(f.Concurrent? || f.Unavailable? || f.UnavailableSku?)
  }

  datatype Outcome = Ok | Fail(failure: Failure)

  datatype Result<T> = Success(value: T) | Failed(failure: Failure)

  /** The order items the workflow steps look at. Only discrete and bundle items carry a
      sku; their sku reference may be null. */
  datatype OrderItem =
    | DiscreteItem(sku: Option<Sku>, quantity: int)
    | BundleItem(sku: Option<Sku>, quantity: int)
    | OtherItem(quantity: int)
}
