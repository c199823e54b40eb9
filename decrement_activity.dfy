/** The checkout step that decrements inventory for an order: it builds the sku-to-quantity
    map from the order items, calls the service's default-location decrement with a bounded
    retry on optimistic-locking conflicts, and registers rollback state for the handler. */
module DecrementActivity {
  import opened InventoryTypes
  import opened InventoryStore
  import opened InventoryRules
  import opened InventoryService
  import opened RollbackState

  datatype Order = Order(id: Option<OrderId>, items: seq<OrderItem>)

  // ---------------------------------------------------------------------------
  // The sku map of an order

  /** The map key an order item contributes: the sku of a discrete or bundle item, else null. */
  function ItemKey(item: OrderItem): (k: Key)
    ensures k.SkuKey? <==> (item.DiscreteItem? || item.BundleItem?) && item.sku.Some?
    ensures k.SkuKey? ==> k.sku == item.sku.value
  {
    match item
    case DiscreteItem(s, _) => if s.Some? then SkuKey(s.value) else NullKey
    case BundleItem(s, _) => if s.Some? then SkuKey(s.value) else NullKey
    case OtherItem(_) => NullKey
  }

  /** The position of the entry whose key equals `k` (keys compare by identity). */
  function IndexOf(b: Batch, k: Key): (r: Option<nat>)
    decreases |b|
    ensures r.Some? ==> r.value < |b| && IdentityOf(b[r.value].key) == IdentityOf(k)
    ensures r.None? ==> forall i :: 0 <= i < |b| ==> IdentityOf(b[i].key) != IdentityOf(k)
  {
    if b == [] then None
    else if IdentityOf(b[|b| - 1].key) == IdentityOf(k) then Some(|b| - 1)
    else IndexOf(b[..|b| - 1], k)
  }

  /** `get` on a map. */
  function Get(b: Batch, k: Key): Option<Value>
  {
    var i := IndexOf(b, k);
    if i.Some? then Some(b[i.value].value) else None
  }

  /** Only the keys of a map decide where a key is found. */
  lemma {:induction false} IndexOfKeysOnly(b: Batch, c: Batch, k: Key)
    requires |b| == |c| && forall i :: 0 <= i < |b| ==> b[i].key == c[i].key
    ensures IndexOf(b, k) == IndexOf(c, k)
    decreases |b|
  {
    if b != [] {
      IndexOfKeysOnly(b[..|b| - 1], c[..|c| - 1], k);
    }
  }

  /** `HashMap.put`: a present key keeps its entry (and its original key object) and takes
      the new value; a new key is added. */
  function Put(b: Batch, k: Key, v: Value): (r: Batch)
    ensures Get(r, k) == Some(v)
    ensures forall k' :: IdentityOf(k') != IdentityOf(k) ==> Get(r, k') == Get(b, k')
    ensures DistinctKeys(b) ==> DistinctKeys(r)
    ensures |r| == |b| || |r| == |b| + 1
  {
    match IndexOf(b, k)
    case Some(i) =>
      var r := b[i := Entry(b[i].key, v)];
      IndexOfKeysOnly(r, b, k);
      assert forall k' :: IndexOf(r, k') == IndexOf(b, k') by {
        forall k' ensures IndexOf(r, k') == IndexOf(b, k') {
          IndexOfKeysOnly(r, b, k');
        }
      }
      r
    case None =>
      var r := b + [Entry(k, v)];
      assert r[..|r| - 1] == b;
      r
  }

  /** The map an order's items fill, item by item. */
  function SkuQuantities(items: seq<OrderItem>): Batch
    decreases |items|
  {
    if items == [] then []
    else Put(SkuQuantities(items[..|items| - 1]), ItemKey(items[|items| - 1]), Qty(items[|items| - 1].quantity))
  }

  /** The quantity of the last item whose key is `k`, if any. */
  function LastQuantity(items: seq<OrderItem>, k: Key): Option<int>
    decreases |items|
  {
    if items == [] then None
    else if IdentityOf(ItemKey(items[|items| - 1])) == IdentityOf(k) then Some(items[|items| - 1].quantity)
    else LastQuantity(items[..|items| - 1], k)
  }

  /** The map has distinct keys, holds exactly the keys of the items, and each key maps to
      the quantity of the last item with that key: quantities of repeated skus are not summed. */
  lemma {:induction false} LastQuantityWins(items: seq<OrderItem>, k: Key)
    ensures DistinctKeys(SkuQuantities(items))
    ensures Get(SkuQuantities(items), k) == if LastQuantity(items, k).Some? then Some(Qty(LastQuantity(items, k).value)) else None
    ensures |SkuQuantities(items)| <= |items|
    decreases |items|
  {
    if items != [] {
      LastQuantityWins(items[..|items| - 1], k);
    }
  }

  /** Two items of the same sku with quantities 2 and 3 leave quantity 3 for it, not 5. */
  lemma RepeatedSkuKeepsLastQuantity(s: Sku)
    ensures Get(SkuQuantities([DiscreteItem(Some(s), 2), BundleItem(Some(s), 3)]), SkuKey(s)) == Some(Qty(3))
  {
    LastQuantityWins([DiscreteItem(Some(s), 2), BundleItem(Some(s), 3)], SkuKey(s));
  }

  /** Builds the sku map of the order items. */
  method BuildSkuInventoryMap(items: seq<OrderItem>) returns (skuInventoryMap: Batch)
    ensures skuInventoryMap == SkuQuantities(items)
  {
    skuInventoryMap := [];
    var i := 0;
    while i < |items|
      invariant 0 <= i <= |items|
      invariant skuInventoryMap == SkuQuantities(items[..i])
    {
      assert items[..i + 1][..i] == items[..i];
      skuInventoryMap := Put(skuInventoryMap, ItemKey(items[i]), Qty(items[i].quantity));
      i := i + 1;
    }
    assert items[..i] == items;
  }

  // ---------------------------------------------------------------------------
  // The retry loop

  /** The outcome of the retry loop, the rows it leaves, and how many times it called the service. */
  datatype Attempts = Attempts(outcome: Outcome, rows: Rows, calls: nat)

  /** The retry loop from attempt `retryCount` on: a conflict is retried until the
      `maxRetries`-th, which is thrown; any other exception is thrown at once; a success
      ends the loop. Attempt `a` meets the interference `contention(a)`. */
  function DecrementRetries(rows: Rows, location: Option<LocationId>, batch: Batch, maxRetries: int, retryCount: nat,
                            contention: nat -> Rival): (r: Attempts)
    decreases maxRetries - retryCount
    ensures retryCount >= maxRetries ==> r == Attempts(Ok, rows, 0)
    ensures retryCount < maxRetries ==> 1 <= r.calls <= maxRetries - retryCount
    ensures r.outcome == Fail(Concurrent) ==> r.calls == maxRetries - retryCount
    ensures r.outcome.Fail? ==> IsRuntime(r.outcome.failure) || r.outcome.failure.Concurrent? || r.outcome.failure.Unavailable?
  {
    if retryCount >= maxRetries then Attempts(Ok, rows, 0)
    else
      var e := Apply(rows, Decrement(Available, location), batch, contention(retryCount));
      if e.outcome.Fail? && e.outcome.failure.Concurrent? && retryCount + 1 < maxRetries then
        var rest := DecrementRetries(e.rows, location, batch, maxRetries, retryCount + 1, contention);
        Attempts(rest.outcome, rest.rows, rest.calls + 1)
      else
        Attempts(e.outcome, e.rows, 1)
  }

  /** What the retry loop ends in and the rows it leaves. */
  function Final(rows: Rows, location: Option<LocationId>, batch: Batch, maxRetries: int, retryCount: nat,
                 contention: nat -> Rival): Effect
  {
    var a := DecrementRetries(rows, location, batch, maxRetries, retryCount, contention);
    Effect(a.outcome, a.rows)
  }

  /** One turn of the retry loop. */
  lemma RetryStep(rows: Rows, location: Option<LocationId>, batch: Batch, maxRetries: int, retryCount: nat,
                  contention: nat -> Rival)
    requires retryCount < maxRetries
    ensures var e := Apply(rows, Decrement(Available, location), batch, contention(retryCount));
            Final(rows, location, batch, maxRetries, retryCount, contention) ==
              if e.outcome.Fail? && e.outcome.failure.Concurrent? && retryCount + 1 < maxRetries
              then Final(e.rows, location, batch, maxRetries, retryCount + 1, contention)
              else e
  {
  }

  /** With nobody interfering, the service is called once (if at all) and its result stands. */
  lemma UncontendedDecrementIsOneCall(rows: Rows, location: Option<LocationId>, batch: Batch, maxRetries: int)
    requires maxRetries > 0
    ensures var r := DecrementRetries(rows, location, batch, maxRetries, 0, a => map[]);
            var e := Apply(rows, Decrement(Available, location), batch, map[]);
            r == Attempts(e.outcome, e.rows, 1)
  {
  }

  /** No retry makes a stored quantity negative. */
  lemma {:induction false} RetriesStayNonNegative(rows: Rows, location: Option<LocationId>, batch: Batch, maxRetries: int,
                                                 retryCount: nat, contention: nat -> Rival)
    requires NonNegative(rows)
    ensures NonNegative(DecrementRetries(rows, location, batch, maxRetries, retryCount, contention).rows)
    decreases maxRetries - retryCount
  {
    if retryCount < maxRetries {
      var e := Apply(rows, Decrement(Available, location), batch, contention(retryCount));
      StoreStaysNonNegative(rows, Decrement(Available, location), batch, contention(retryCount));
      if e.outcome.Fail? && e.outcome.failure.Concurrent? && retryCount + 1 < maxRetries {
        RetriesStayNonNegative(e.rows, location, batch, maxRetries, retryCount + 1, contention);
      }
    }
  }

  /** Some attempt from `from` on met another transaction's commit to `k` that row `r` carries. */
  ghost predicate CommittedSince(contention: nat -> Rival, from: nat, k: RowKey, r: Row)
  {
    exists a: nat :: from <= a && k in contention(a) && Holds(r, contention(a)[k])
  }

  /** A failed retry loop undoes every quantity it wrote, since each failed attempt was rolled
      back: a row holds its quantities from before the loop, or those another transaction
      committed to it during one of the attempts. */
  lemma {:induction false} FailedRetriesRestoreQuantities(rows: Rows, location: Option<LocationId>, batch: Batch, maxRetries: int,
                                                         retryCount: nat, contention: nat -> Rival)
    requires DecrementRetries(rows, location, batch, maxRetries, retryCount, contention).outcome.Fail?
    ensures DecrementRetries(rows, location, batch, maxRetries, retryCount, contention).rows.Keys == rows.Keys
    ensures forall k :: k in rows ==>
              var r := DecrementRetries(rows, location, batch, maxRetries, retryCount, contention).rows[k];
              SameQuantities(r, rows[k]) || CommittedSince(contention, retryCount, k, r)
    decreases maxRetries - retryCount
  {
    var e := Apply(rows, Decrement(Available, location), batch, contention(retryCount));
    FailureRestoresQuantities(rows, Decrement(Available, location), batch, contention(retryCount));
    forall k | k in rows && k in contention(retryCount) && Holds(e.rows[k], contention(retryCount)[k])
      ensures CommittedSince(contention, retryCount, k, e.rows[k])
    {
    }
    if e.outcome.Fail? && e.outcome.failure.Concurrent? && retryCount + 1 < maxRetries {
      FailedRetriesRestoreQuantities(e.rows, location, batch, maxRetries, retryCount + 1, contention);
      var final := DecrementRetries(e.rows, location, batch, maxRetries, retryCount + 1, contention).rows;
      forall k | k in rows && CommittedSince(contention, retryCount + 1, k, final[k])
        ensures CommittedSince(contention, retryCount, k, final[k])
      {
        var a: nat :| retryCount + 1 <= a && k in contention(a) && Holds(final[k], contention(a)[k]);
      }
    }
  }

  /** Another transaction can consume the stock an attempt read. Its commit makes the first
      attempt conflict; the retry reads what that transaction left and reports the sku short,
      and the rows keep the other transaction's quantities. */
  lemma RetryMeetsStockTakenByOthers(s: Sku, location: LocationId, row: Row, q: int, c: Commit, maxRetries: int,
                                     contention: nat -> Rival)
    requires IsSkuEligibleForInventoryCheck(s) && c.available < q <= row.available && maxRetries >= 2
    requires contention(0) == map[RowKey(s.id, location) := c] && contention(1) == map[]
    ensures var k := RowKey(s.id, location);
            var r := DecrementRetries(map[k := row], Some(location), [Entry(SkuKey(s), Qty(q))], maxRetries, 0, contention);
            && r.outcome == Fail(Unavailable(map[s.id := c.available]))
            && r.rows == map[k := Committed(row, c)]
            && r.calls == 2
  {
    var k := RowKey(s.id, location);
    var batch := [Entry(SkuKey(s), Qty(q))];
    var m := Decrement(Available, Some(location));
    assert batch[..0] == [];
    assert Run(Start(map[k := row]), m, batch, contention(0)) == Aborted(Concurrent, Start(map[k := Committed(row, c)]));
    var rows1 := map[k := Committed(row, c)];
    assert Restore(rows1, map[k := row], {}) == rows1;
    assert Run(Start(rows1), m, batch, contention(1)) == Running(LoopState(rows1, map[s.id := c.available], {}));
    assert Restore(rows1, rows1, {}) == rows1;
  }

  /** When the retry limit lets the loop call the service, an order with an item that has no
      sku (a non-discrete, non-bundle item, or a sku-less one) never gets its inventory
      decremented. The map has a null key, which throws in the eligibility check unless an
      earlier entry threw first, so no attempt runs through and the loop ends failed. */
  lemma {:induction false} ItemWithoutSkuFails(rows: Rows, location: Option<LocationId>, items: seq<OrderItem>, maxRetries: int,
                                              retryCount: nat, contention: nat -> Rival, j: nat)
    requires j < |items| && ItemKey(items[j]) == NullKey && retryCount < maxRetries
    ensures DecrementRetries(rows, location, SkuQuantities(items), maxRetries, retryCount, contention).outcome.Fail?
    decreases maxRetries - retryCount
  {
    var batch := SkuQuantities(items);
    var m := Decrement(Available, location);
    LastQuantityWins(items, NullKey);
    LastQuantityIsSome(items, j);
    var i := IndexOf(batch, NullKey).value;
    var e := Apply(rows, m, batch, contention(retryCount));
    if Run(Start(rows), m, batch, contention(retryCount)).Running? {
      NoRejectWhenRunning(Start(rows), m, batch, contention(retryCount), i);
      assert false;
    }
    if e.outcome.Fail? && e.outcome.failure.Concurrent? && retryCount + 1 < maxRetries {
      ItemWithoutSkuFails(e.rows, location, items, maxRetries, retryCount + 1, contention, j);
    }
  }

  lemma {:induction false} LastQuantityIsSome(items: seq<OrderItem>, j: nat)
    requires j < |items|
    ensures LastQuantity(items, ItemKey(items[j])).Some?
    decreases |items|
  {
    if j < |items| - 1 {
      assert items[..|items| - 1][j] == items[j];
      LastQuantityIsSome(items[..|items| - 1], j);
    }
  }

  // ---------------------------------------------------------------------------
  // Rollback state

  /** The state the step registers: a copy of its configured state (when present and not
      empty), the map of the default location to the inventory state of the decrement under
      `decrementedKey`, and the order id under `orderIdKey`. */
  function RegisteredState(config: Option<StateBlob>, location: Option<LocationId>, batch: Batch, orderId: Option<OrderId>,
                           decrementedKey: string, orderIdKey: string): (r: StateBlob)
    ensures Lookup(r, orderIdKey) == if orderId.Some? then OrderNumber(orderId.value) else NullValue
    ensures decrementedKey != orderIdKey ==> Lookup(r, decrementedKey) == LocationStates([(location, InventoryState(location, batch))])
    ensures forall key :: key != decrementedKey && key != orderIdKey ==>
              Lookup(r, key) == if config.Some? then Lookup(config.value, key) else NullValue
  {
    var copied: StateBlob := if config.Some? && |config.value| > 0 then config.value else map[];
    copied[decrementedKey := LocationStates([(location, InventoryState(location, batch))])]
          [orderIdKey := if orderId.Some? then OrderNumber(orderId.value) else NullValue]
  }

  /** The checkout step. The two key strings it registers under are named by constants of the
      rollback handler that the handler as shown does not declare, so they are parameters here. */
  class DecrementInventoryActivity {
    var maxRetries: Option<int>
    var automaticallyRegisterRollbackHandler: bool
    const hasRollbackHandler: bool
    const stateConfiguration: Option<StateBlob>
    const decrementedKey: string
    const orderIdKey: string
    const service: InventoryServiceImpl
    const stateManager: ActivityStateManager

    /** A new step retries up to 5 times and registers its rollback state itself. */
    constructor (service: InventoryServiceImpl, stateManager: ActivityStateManager, hasRollbackHandler: bool,
                 stateConfiguration: Option<StateBlob>, decrementedKey: string, orderIdKey: string)
      ensures maxRetries == Some(5) && !automaticallyRegisterRollbackHandler
      ensures this.service == service && this.stateManager == stateManager && this.hasRollbackHandler == hasRollbackHandler
      ensures this.stateConfiguration == stateConfiguration
      ensures this.decrementedKey == decrementedKey && this.orderIdKey == orderIdKey
    {
      maxRetries := Some(5);
      automaticallyRegisterRollbackHandler := false;
      this.service := service;
      this.stateManager := stateManager;
      this.hasRollbackHandler := hasRollbackHandler;
      this.stateConfiguration := stateConfiguration;
      this.decrementedKey := decrementedKey;
      this.orderIdKey := orderIdKey;
    }

    method SetMaxRetries(v: Option<int>)
      modifies this
      ensures maxRetries == v
      ensures automaticallyRegisterRollbackHandler == old(automaticallyRegisterRollbackHandler)
    {
      maxRetries := v;
    }

    /** The retry loop around the service's default-location decrement. */
    method DecrementWithRetries(batch: Batch, max: int, contention: nat -> Rival) returns (outcome: Outcome)
      modifies service.dao
      ensures service.dao.defaultLocation == old(service.dao.defaultLocation)
      ensures var a := DecrementRetries(old(service.dao.rows), old(service.dao.defaultLocation), batch, max, 0, contention);
              outcome == a.outcome && service.dao.rows == a.rows
    {
      ghost var rows0 := service.dao.rows;
      var retryCount: nat := 0;
      while retryCount < max
        invariant service.dao.defaultLocation == old(service.dao.defaultLocation)
        invariant Final(rows0, service.dao.defaultLocation, batch, max, 0, contention)
               == Final(service.dao.rows, service.dao.defaultLocation, batch, max, retryCount, contention)
        decreases max - retryCount
      {
        RetryStep(service.dao.rows, service.dao.defaultLocation, batch, max, retryCount, contention);
        var attempt := service.DecrementInventory(batch, None, contention(retryCount));
        if attempt.Ok? {
          break;
        }
        if attempt.failure.Concurrent? {
          retryCount := retryCount + 1;
          if retryCount == max {
            return attempt;
          }
        } else {
          return attempt;
        }
      }
      return Ok;
    }

    /** Decrements the order's inventory at the default location and then, unless the
        decrement threw, registers rollback state. A null retry limit is unboxed and throws. */
    method Execute(order: Order, contention: nat -> Rival) returns (outcome: Outcome)
      modifies service.dao, stateManager
      ensures service.dao.defaultLocation == old(service.dao.defaultLocation)
      ensures maxRetries.None? ==> outcome == Fail(NullPointer) && service.dao.rows == old(service.dao.rows)
                                   && stateManager.registrations == old(stateManager.registrations)
      ensures maxRetries.Some? ==>
        var batch := SkuQuantities(order.items);
        var a := DecrementRetries(old(service.dao.rows), old(service.dao.defaultLocation), batch, maxRetries.value, 0, contention);
        && outcome == a.outcome && service.dao.rows == a.rows
        && stateManager.registrations == old(stateManager.registrations) +
             if outcome.Ok? && hasRollbackHandler && !automaticallyRegisterRollbackHandler
             then [RegisteredState(stateConfiguration, old(service.dao.defaultLocation), batch, order.id, decrementedKey, orderIdKey)]
             else []
    {
      var skuInventoryMap := BuildSkuInventoryMap(order.items);
      if maxRetries.None? {
        return Fail(NullPointer);
      }
      outcome := DecrementWithRetries(skuInventoryMap, maxRetries.value, contention);
      if outcome.Ok? && hasRollbackHandler && !automaticallyRegisterRollbackHandler {
        var location := service.dao.defaultLocation;
        var myState := RegisteredState(stateConfiguration, location, skuInventoryMap, order.id, decrementedKey, orderIdKey);
        stateManager.RegisterState(myState);
      }
    }
  }
}
