/** The rollback state that the checkout workflow keeps for a step: a string-keyed map of
    loosely typed values, as the decrement step registers it and the rollback handler reads it. */
module RollbackState {
  import opened InventoryTypes

  /** The keys the rollback handler looks its state up by. */
  const DECREMENTED_KEY: string := "ROLLBACK_BLC_INVENTORY_DECREMENTED"
  const INCREMENTED_KEY: string := "ROLLBACK_BLC_INVENTORY_INCREMENTED"
  const ORDER_ID_KEY: string := "ROLLBACK_BLC_ORDER_ID"

  /** The inventory adjusted at one fulfillment location. */
  datatype InventoryState = InventoryState(location: Option<LocationId>, skuQuantityMap: Batch)

  /** A value of the state map, by its run-time class. `LocationStates` is a
      `Map<FulfillmentLocation, InventoryState>`, `SkuQuantityMap` a `Map<Sku, Integer>`,
      `OrderNumber` a `Long` order id, `Text` a string; a missing or null value is `NullValue`. */
  datatype StateValue =
    | LocationStates(states: seq<(Option<LocationId>, InventoryState)>)
    | SkuQuantityMap(batch: Batch)
    | OrderNumber(id: OrderId)
    | Text(s: string)
    | NullValue

  type StateBlob = map<string, StateValue>

  /** `get` on the state map: an absent key reads as null. */
  function Lookup(blob: StateBlob, key: string): (v: StateValue)
    ensures key !in blob ==> v == NullValue
    ensures key in blob ==> v == blob[key]
  {
    if key in blob then blob[key] else NullValue
  }

  /** The outcome of the unchecked cast of a state value to `Map<Sku, Integer>`. */
  datatype MapCast = NotPresent | AsBatch(batch: Batch) | NotAMap

  /** Casting a value to `Map<Sku, Integer>`: a null passes as null, any map passes (its
      generic types are not checked), anything else throws. A map of location states is
      seen as entries whose keys are locations (or null) and whose values are not integers. */
  function CastToSkuMap(v: StateValue): (r: MapCast)
    ensures r.NotPresent? <==> v.NullValue?
    ensures r.NotAMap? <==> v.OrderNumber? || v.Text?
    ensures v.SkuQuantityMap? ==> r == AsBatch(v.batch)
    ensures v.LocationStates? ==> r.AsBatch? && |r.batch| == |v.states|
    ensures v.LocationStates? ==> forall i :: 0 <= i < |r.batch| ==> !r.batch[i].key.SkuKey? && r.batch[i].value.ForeignValue?
  {
    match v
    case NullValue => NotPresent
    case SkuQuantityMap(b) => AsBatch(b)
    case LocationStates(states) => AsBatch(seq(|states|, i requires 0 <= i < |states| => Entry(LocationKey(states[i].0), ForeignValue)))
    case OrderNumber(_) => NotAMap
    case Text(_) => NotAMap
  }

  /** A fulfillment location used as a map key. */
  function LocationKey(l: Option<LocationId>): Key
  {
    if l.Some? then ForeignKey(l.value) else NullKey
  }

  /** The order reference the handler writes into its log: "(Not Known)" without an order id,
      otherwise the value stored under the order id key. */
  datatype OrderLabel = NotKnown | Known(value: StateValue)

  function OrderLabelOf(blob: StateBlob): (r: OrderLabel)
    ensures r == NotKnown <==> Lookup(blob, ORDER_ID_KEY) == NullValue
    ensures r.Known? ==> r.value == blob[ORDER_ID_KEY]
  {
    var v := Lookup(blob, ORDER_ID_KEY);
    if v == NullValue then NotKnown else Known(v)
  }

  /** The workflow's register of rollback state: each registration appends one state map. */
  class ActivityStateManager {
    var registrations: seq<StateBlob>

    constructor ()
      ensures registrations == []
    {
      registrations := [];
    }

    method RegisterState(state: StateBlob)
      modifies this
      ensures registrations == old(registrations) + [state]
    {
      registrations := registrations + [state];
    }
  }
}
