# Broadleaf inventory module, modelled in Dafny

This project models the inventory module of the Broadleaf Commerce platform: the part that
counts stock per sku and fulfillment location, checks availability, adjusts stock, and handles
the checkout and admin steps that call it. The model covers:

- **The records.** `InventoryImpl` is one row per (sku, fulfillment location), with an available
  quantity, a quantity on hand and an optimistic-locking version. `FulfillmentLocationImpl` is
  a stocking location with its pickup, shipping and default flags. Both are Dafny classes whose
  setters change one field each (`inventory_entity.dfy`, `fulfillment_location_entity.dfy`).
- **The store behind the service.** A class holds the committed rows, keyed by (sku id,
  location id), and the configured default location. Its save is version-checked: a stale
  version fails with a concurrent-modification exception. A transaction rollback puts back the
  rows the current call wrote (`inventory_store.dfy`).
- **The accounting service `InventoryServiceImpl`.** Its pure decisions are functions
  (`inventory_rules.dfy`): the eligibility rule, the availability check, the checks made on each
  map entry (`Admit`), the loop as a fold (`Run`) and a call as one transaction (`Apply`). Its
  six batch mutators are methods over the store (`inventory_service.dfy`): a `while` loop whose
  body (`Visit`) reads a row for update, adjusts the entity through its setters and saves it. The
  methods are proved against `Apply`.
- **The checkout step `DecrementInventoryActivity`** (`decrement_activity.dfy`). It builds the
  sku-to-quantity map from the order items, retries the default-location decrement on
  conflicts, and registers rollback state.
- **The compensation handler `InventoryRollbackHandler`** (`rollback_handler.dfy`). It has two
  retry loops:
  - the increment loop, which gives back what was decremented;
  - the decrement loop, which takes back what was incremented.
  It also has `setMaxRetries` as written, and a validated version of it. Over both sits the state map the workflow keeps
  (`rollback_state.dfy`).
- **The add-to-cart step `CheckAvailabilityActivity`** (`check_availability.dfy`).
- **The admin handler `InventoryCustomPersistenceHandler`** (`admin_persistence_handler.dfy`).
  The model covers its routing predicates and the retry loop of its `update`.

Java maps are modelled as they exist at run time, as a sequence of entries in the map's
iteration order. Generics are erased, which matters in two ways. A map can reach the service
with a null key. The map of location states that the checkout step registers reaches the
handler's cast to a sku map. Keys and values therefore have a "foreign" case, and a class cast
fails on it exactly where the code would.

The code has external collaborators, and each one becomes a parameter:
- **Other transactions.** A map from a row to the quantities that some other transaction
  commits to it between this call's read and its save (`rival`). The commit stands, advances the
  row's version, and makes this call's save fail. For loops of attempts, this is a function
  from the attempt number to such a map (`contention`). A later attempt then reads what the
  other transaction committed.
- **The catalog and order-item lookups.** Functions.
- **The admin persister.** A function from the attempt number to what that call does.
- **The workflow's logger.** An event log field of the handler.

Every method's `ensures` ties its result and its new state to a specification function. The
properties the code promises are lemmas about those functions. Examples: quantities never go
negative; a failed call undoes every quantity it wrote; a decrement reports every short sku; a decrement
followed by the matching increment restores the quantities; the last quantity wins for a
repeated sku; the increment loop and the corrected decrement loop make at most `maxRetries + 1` calls.

## Model

| member | source | states |
|---|---|---|
| InventoryTypes.WithQuantity | src/main/java/org/broadleafcommerce/inventory/service/InventoryServiceImpl.java:157-166 | Setting one of the two quantities sets exactly that one; the other quantity and the version are kept. |
| InventoryEntity.Inventory.constructor | src/main/java/org/broadleafcommerce/inventory/domain/InventoryImpl.java:74-119 | A freshly created entity has every field null, the version included (never persisted). |
| InventoryEntity.Inventory.Loaded | src/main/java/org/broadleafcommerce/inventory/domain/InventoryImpl.java:76-119 | An entity loaded from a row carries the row's sku, location, both quantities and version. |
| InventoryEntity.Inventory.SetId | src/main/java/org/broadleafcommerce/inventory/domain/InventoryImpl.java:126-129 | Sets the id, and the persistent record is unchanged. |
| InventoryEntity.Inventory.SetFulfillmentLocation | src/main/java/org/broadleafcommerce/inventory/domain/InventoryImpl.java:136-139 | Changes only the location of the record; the id and every other field are kept. |
| InventoryEntity.Inventory.SetSku | src/main/java/org/broadleafcommerce/inventory/domain/InventoryImpl.java:146-149 | Changes only the sku of the record. |
| InventoryEntity.Inventory.SetQuantityAvailable | src/main/java/org/broadleafcommerce/inventory/domain/InventoryImpl.java:156-159 | Changes only the available quantity; there is no setter for the version. |
| InventoryEntity.Inventory.SetQuantityOnHand | src/main/java/org/broadleafcommerce/inventory/domain/InventoryImpl.java:166-169 | Changes only the quantity on hand. |
| InventoryEntity.Inventory.SetQuantity | src/main/java/org/broadleafcommerce/inventory/service/InventoryServiceImpl.java:165 | The service's two update paths write the named quantity and nothing else. |
| FulfillmentLocationEntity.FulfillmentLocation.constructor | src/main/java/org/broadleafcommerce/inventory/domain/FulfillmentLocationImpl.java:66-76 | A new location is a shipping location, not a pickup location, not the default. |
| FulfillmentLocationEntity.FulfillmentLocation.SetId | src/main/java/org/broadleafcommerce/inventory/domain/FulfillmentLocationImpl.java:83-86 | Sets the id; address and all three flags are kept. |
| FulfillmentLocationEntity.FulfillmentLocation.SetAddress | src/main/java/org/broadleafcommerce/inventory/domain/FulfillmentLocationImpl.java:93-96 | Sets the address; id and flags are kept. |
| FulfillmentLocationEntity.FulfillmentLocation.SetPickupLocation | src/main/java/org/broadleafcommerce/inventory/domain/FulfillmentLocationImpl.java:103-106 | Sets the pickup flag; the other flags, id and address are kept. |
| FulfillmentLocationEntity.FulfillmentLocation.SetShippingLocation | src/main/java/org/broadleafcommerce/inventory/domain/FulfillmentLocationImpl.java:113-116 | Sets the shipping flag; the rest is kept. |
| FulfillmentLocationEntity.FulfillmentLocation.SetDefaultLocation | src/main/java/org/broadleafcommerce/inventory/domain/FulfillmentLocationImpl.java:123-126 | Sets this location's default flag only. |
| FulfillmentLocationEntity.TwoDefaultLocations | src/main/java/org/broadleafcommerce/inventory/domain/FulfillmentLocationImpl.java:123-126 | Two distinct locations can both be default: nothing keeps a single default location. |
| InventoryStore.SaveRecord | src/main/java/org/broadleafcommerce/inventory/domain/InventoryImpl.java:49-119 | A save writes the record only when sku, location and both quantities are set (not-null columns); a new record needs a free (sku, location) pair (unique constraint) and starts at version 0; an existing one is written only at the version it was read at, and its version advances by one; the save is refused as concurrent exactly when that version check fails; a refused save changes nothing. |
| InventoryStore.StaleWriteRejected | src/main/java/org/broadleafcommerce/inventory/domain/InventoryImpl.java:116-119 | Of two writers that read the same row at the same version, the first save commits and the second is refused, so no update is lost. |
| InventoryStore.Restore | src/main/java/org/broadleafcommerce/inventory/service/InventoryServiceImpl.java:116-123 | A rolled-back transaction puts every row it wrote back to its value at the start (a row it created disappears) and keeps what others committed to the rest. |
| InventoryStore.Find | src/main/java/org/broadleafcommerce/inventory/service/InventoryServiceImpl.java:413-423 | A read finds the row of (sku, location) exactly when it exists; a null location finds nothing. |
| InventoryStore.InventoryDao.constructor | src/main/java/org/broadleafcommerce/inventory/service/InventoryServiceImpl.java:40-41 | The store starts with the given rows and default location. |
| InventoryStore.InventoryDao.ReadInventoryForUpdate | src/main/java/org/broadleafcommerce/inventory/service/InventoryServiceImpl.java:150-157 | Returns null exactly when the row is missing, else a fresh entity loaded from that row. |
| InventoryStore.InventoryDao.Save | src/main/java/org/broadleafcommerce/inventory/service/InventoryServiceImpl.java:166 | The store changes as the version-checked save says; the default location is kept. |
| InventoryStore.InventoryDao.ConcurrentCommit | src/main/java/org/broadleafcommerce/inventory/domain/InventoryImpl.java:116-119 | Another transaction's commit to a row puts its quantities in that row and advances the row's version. |
| InventoryStore.InventoryDao.Rollback | src/main/java/org/broadleafcommerce/inventory/service/InventoryServiceImpl.java:122-123 | The store becomes the rolled-back rows. |
| InventoryRules.IsSkuEligibleForInventoryCheck | src/main/java/org/broadleafcommerce/inventory/service/InventoryServiceImpl.java:50-66 | A sku is tracked exactly when its own mode or its category's mode is BASIC and neither is NONE (both unset means untracked). |
| InventoryRules.EligibilityVersusFallback | src/main/java/org/broadleafcommerce/inventory/service/InventoryServiceImpl.java:50-66 | The rule differs from "the sku's mode, else the category's, is BASIC" exactly for a BASIC sku in a NONE category and for a sku of another mode in a BASIC category. |
| InventoryRules.IsQuantityAvailable | src/main/java/org/broadleafcommerce/inventory/service/InventoryServiceImpl.java:69-113 | Both overloads: a null sku is dereferenced; an inactive sku is unavailable before any other check; an active untracked sku is available whatever the quantity; for a tracked one a null or negative quantity is an illegal argument, otherwise the answer is true exactly when a row exists with at least that much available (0 is accepted). |
| InventoryRules.Admit | src/main/java/org/broadleafcommerce/inventory/service/InventoryServiceImpl.java:128-147 | Each map entry: a non-sku key or non-integer value fails the cast; a null sku fails the eligibility check; an untracked sku or a zero quantity is skipped exactly then; a tracked sku with a null or negative quantity is an illegal argument exactly then; an entry that proceeds has a tracked sku and a positive quantity. Every rejection is unchecked. |
| InventoryRules.Run | src/main/java/org/broadleafcommerce/inventory/service/InventoryServiceImpl.java:128-173 | The loop stops only at an unchecked exception or a conflict, never at a conflict when nobody interferes, and increments never collect short skus. |
| InventoryRules.Apply | src/main/java/org/broadleafcommerce/inventory/service/InventoryServiceImpl.java:122-180 | A call fails with an unchecked exception, a conflict or the shortage exception; the shortage is thrown by decrements only and carries a non-empty map; without interference there is no conflict. |
| InventoryRules.StepKeeps | src/main/java/org/broadleafcommerce/inventory/service/InventoryServiceImpl.java:157-171 | One iteration loses no row, only changes rows it records as written, keeps quantities non-negative, and without interference leaves unwritten rows exactly as they were. |
| InventoryRules.RunKeeps | src/main/java/org/broadleafcommerce/inventory/service/InventoryServiceImpl.java:128-173 | The same three facts hold for the whole loop. |
| InventoryRules.RestoreTracked | src/main/java/org/broadleafcommerce/inventory/service/InventoryServiceImpl.java:122 | Rolling back gives back the starting rows' keys. Each row has its starting quantities, or those another transaction committed to it. With no interference it gives back the starting rows exactly. |
| InventoryRules.FailureRestoresQuantities | src/main/java/org/broadleafcommerce/inventory/service/InventoryServiceImpl.java:116-180 | Every failed call, for any exception, leaves the same rows and undoes every quantity it wrote. Each row has its quantities from before the call, or those another transaction committed to it. |
| InventoryRules.FailureWithoutRivalRestoresExactly | src/main/java/org/broadleafcommerce/inventory/service/InventoryServiceImpl.java:122-180 | Without interference a failed call leaves the store exactly as it was. |
| InventoryRules.StoreStaysNonNegative | src/main/java/org/broadleafcommerce/inventory/service/InventoryServiceImpl.java:157-167 | No call, successful or not, makes a stored quantity negative. |
| InventoryRules.AbortedStays | src/main/java/org/broadleafcommerce/inventory/service/InventoryServiceImpl.java:141-142 | After an exception the rest of the batch is not looked at. |
| InventoryRules.RunningPrefix | src/main/java/org/broadleafcommerce/inventory/service/InventoryServiceImpl.java:128-173 | A loop that ran through the batch ran through every prefix without an exception at any position. |
| InventoryRules.NoRejectWhenRunning | src/main/java/org/broadleafcommerce/inventory/service/InventoryServiceImpl.java:128-147 | A loop that ran through met no entry that throws. |
| InventoryRules.TargetsAreAdmitted | src/main/java/org/broadleafcommerce/inventory/service/InventoryServiceImpl.java:135-152 | The rows a call can reach are exactly those of its admitted skus at its location. |
| InventoryRules.RunStaysOnTargets | src/main/java/org/broadleafcommerce/inventory/service/InventoryServiceImpl.java:128-173 | The loop changes and writes no row outside those. |
| InventoryRules.UntouchedOutsideTargets | src/main/java/org/broadleafcommerce/inventory/service/InventoryServiceImpl.java:135-147 | Whatever its outcome, a call leaves every row of untracked skus, zero quantities and other skus unchanged. |
| InventoryRules.SkippedEntryLeavesRows | src/main/java/org/broadleafcommerce/inventory/service/InventoryServiceImpl.java:135-147 | In a map, an untracked or zero-quantity entry leaves every row of its sku as it was, in every mutator. |
| InventoryRules.PlannedAgreesAway | src/main/java/org/broadleafcommerce/inventory/service/InventoryServiceImpl.java:128-173 | A sku no admitted entry names keeps its rows and is never reported short. |
| InventoryRules.LastNotAdmittedBefore | src/main/java/org/broadleafcommerce/inventory/service/InventoryServiceImpl.java:125-128 | In a map, no earlier entry has the last entry's sku. |
| InventoryRules.RunFollowsPlan | src/main/java/org/broadleafcommerce/inventory/service/InventoryServiceImpl.java:157-171 | For a map, a loop that runs through writes exactly the planned rows (each computed from the row at the start) and collects exactly the short skus. |
| InventoryRules.PlannedAtEntry | src/main/java/org/broadleafcommerce/inventory/service/InventoryServiceImpl.java:157-171 | In the plan, each admitted entry's row is the one its own effect gives, and its sku is short exactly when it has no row or too little. |
| InventoryRules.ShortfallIsAdmitted | src/main/java/org/broadleafcommerce/inventory/service/InventoryServiceImpl.java:161-170 | Only skus of admitted entries are reported short. |
| InventoryRules.DecrementOutcome | src/main/java/org/broadleafcommerce/inventory/service/InventoryServiceImpl.java:157-179 | A decrement commits exactly the planned rows when no sku is short. Otherwise, having looked at the whole batch, it throws the shortage with the map of every short sku to its stored quantity (0 without a row), and no entry threw. |
| InventoryRules.DecrementEntryEffect | src/main/java/org/broadleafcommerce/inventory/service/InventoryServiceImpl.java:157-167 | In a committed decrement, each admitted sku had a row holding at least q, and that row lost exactly q in the adjusted field, kept the other field, and moved one version on. |
| InventoryRules.ShortNoLocation | src/main/java/org/broadleafcommerce/inventory/service/InventoryServiceImpl.java:150-170 | With no location to read at, every admitted sku of a decrement is reported short. |
| InventoryRules.DefaultIncrementKeepsKeys | src/main/java/org/broadleafcommerce/inventory/service/InventoryServiceImpl.java:320-328 | The default-location increment loop never creates a row. |
| InventoryRules.DefaultIncrementNeverCreates | src/main/java/org/broadleafcommerce/inventory/service/InventoryServiceImpl.java:320-328 | A default-location increment of either quantity that reaches a sku without a default row fails and creates no row. When no earlier entry threw, the failure is the illegal-state exception. |
| InventoryRules.IncrementRunsThrough | src/main/java/org/broadleafcommerce/inventory/service/InventoryServiceImpl.java:272-290 | Without interference, an increment's loop runs through a batch in which no entry throws, provided every admitted sku has a row or may get one. |
| InventoryRules.IncrementEntryEffect | src/main/java/org/broadleafcommerce/inventory/service/InventoryServiceImpl.java:272-290 | Such an increment commits. Each admitted row gains q in the adjusted field and moves one version on; a missing row at an explicit location is created with q in both quantities. |
| InventoryRules.DecrementPreparesIncrement | src/main/java/org/broadleafcommerce/inventory/service/InventoryServiceImpl.java:157-171 | After a committed decrement, no entry of its batch throws and every admitted sku has a row at the location. |
| InventoryRules.DecrementThenIncrementRestores | src/main/java/org/broadleafcommerce/inventory/service/InventoryServiceImpl.java:123-331 | A committed decrement of a map, followed by the increment of the same map at that location, commits and restores every row's quantities, with no row added or lost. |
| InventoryRules.CompensatedRowsMatch | src/main/java/org/broadleafcommerce/inventory/service/InventoryServiceImpl.java:157-290 | The row-by-row half of that round trip, once both calls have committed. |
| InventoryRules.AvailabilityPredictsDecrement | src/main/java/org/broadleafcommerce/inventory/service/InventoryServiceImpl.java:92-171 | Take an active sku and a positive quantity, with no interference. The availability check says yes exactly when a decrement of that quantity at the same location commits. It says no exactly when the decrement reports that sku short. |
| InventoryService.RowsAt | src/main/java/org/broadleafcommerce/inventory/service/InventoryServiceImpl.java:425-429 | The rows of a location are exactly the stored rows there, by sku. |
| InventoryService.SkusNotAt | src/main/java/org/broadleafcommerce/inventory/service/InventoryServiceImpl.java:437-441 | The catalog skus missing at a location are exactly those with no row there. |
| InventoryService.RowsAtPartitionCatalog | src/main/java/org/broadleafcommerce/inventory/service/InventoryServiceImpl.java:425-441 | A catalog sku has a row at a location or is reported missing there, and never both. |
| InventoryService.InventoryServiceImpl.constructor | src/main/java/org/broadleafcommerce/inventory/service/InventoryServiceImpl.java:38 | The service works on the given store. |
| InventoryService.InventoryServiceImpl.Save | src/main/java/org/broadleafcommerce/inventory/service/InventoryServiceImpl.java:431-435 | The pass-through save changes the store as the version-checked save says. |
| InventoryService.InventoryServiceImpl.SaveContended | src/main/java/org/broadleafcommerce/inventory/service/InventoryServiceImpl.java:166 | The save after a possible commit by another transaction to the same row. |
| InventoryService.InventoryServiceImpl.Visit | src/main/java/org/broadleafcommerce/inventory/service/InventoryServiceImpl.java:128-171 | One loop iteration on the store moves the store, the short skus and the written rows as the specification step `Step` says, and returns its exception. |
| InventoryService.InventoryServiceImpl.Adjust | src/main/java/org/broadleafcommerce/inventory/service/InventoryServiceImpl.java:122-180 | The whole loop with its rollback leaves the store and ends in the outcome `Apply` gives. |
| InventoryService.InventoryServiceImpl.DecrementInventory | src/main/java/org/broadleafcommerce/inventory/service/InventoryServiceImpl.java:116-180 | Both overloads: a decrement of the available quantity at the location, or at the default one when it is null. |
| InventoryService.InventoryServiceImpl.DecrementInventoryOnHand | src/main/java/org/broadleafcommerce/inventory/service/InventoryServiceImpl.java:183-245 | The same on the quantity on hand. |
| InventoryService.InventoryServiceImpl.IncrementInventory | src/main/java/org/broadleafcommerce/inventory/service/InventoryServiceImpl.java:248-293 | An increment of the available quantity at the explicit location that creates missing rows. |
| InventoryService.InventoryServiceImpl.IncrementInventoryAtDefault | src/main/java/org/broadleafcommerce/inventory/service/InventoryServiceImpl.java:296-331 | An increment at the default location; a missing row is an illegal state. |
| InventoryService.InventoryServiceImpl.IncrementInventoryOnHand | src/main/java/org/broadleafcommerce/inventory/service/InventoryServiceImpl.java:334-375 | The explicit-location increment of the quantity on hand. |
| InventoryService.InventoryServiceImpl.IncrementInventoryOnHandAtDefault | src/main/java/org/broadleafcommerce/inventory/service/InventoryServiceImpl.java:378-411 | The default-location increment of the quantity on hand. |
| RollbackState.Lookup | src/main/java/org/broadleafcommerce/inventory/service/workflow/InventoryRollbackHandler.java:37-38 | `get` on the state map: an absent key reads as null. |
| RollbackState.CastToSkuMap | src/main/java/org/broadleafcommerce/inventory/service/workflow/InventoryRollbackHandler.java:47-71 | The unchecked cast: a null stays null, any map passes (a map of location states as entries with non-sku keys and non-integer values), and an order id or a string fails the cast. |
| RollbackState.OrderLabelOf | src/main/java/org/broadleafcommerce/inventory/service/workflow/InventoryRollbackHandler.java:42-45 | The order reference is "(Not Known)" exactly when there is no order id in the state, otherwise that stored value. |
| RollbackState.ActivityStateManager.constructor | src/main/java/org/broadleafcommerce/inventory/service/workflow/DecrementInventoryActivity.java:121 | No state is registered at first. |
| RollbackState.ActivityStateManager.RegisterState | src/main/java/org/broadleafcommerce/inventory/service/workflow/DecrementInventoryActivity.java:121 | A registration appends one state map. |
| DecrementActivity.ItemKey | src/main/java/org/broadleafcommerce/inventory/service/workflow/DecrementInventoryActivity.java:70-77 | An order item gives a sku key exactly when it is a discrete or bundle item with a sku, and that sku is the key; any other item gives a key that is no sku. |
| DecrementActivity.IndexOf | src/main/java/org/broadleafcommerce/inventory/service/workflow/DecrementInventoryActivity.java:78 | Finds the entry whose key has the same identity, or says no entry has it. |
| DecrementActivity.IndexOfKeysOnly | src/main/java/org/broadleafcommerce/inventory/service/workflow/DecrementInventoryActivity.java:78 | Where a key is found depends on the keys only, not on the values. |
| DecrementActivity.Put | src/main/java/org/broadleafcommerce/inventory/service/workflow/DecrementInventoryActivity.java:78 | After `put`, the key maps to the new value, every other key maps as before, keys stay distinct, and the map grows by at most one. |
| DecrementActivity.LastQuantityWins | src/main/java/org/broadleafcommerce/inventory/service/workflow/DecrementInventoryActivity.java:67-79 | The order's map has distinct keys, at most one entry per item, and each key maps to the quantity of the last item with that key; quantities are not summed. |
| DecrementActivity.RepeatedSkuKeepsLastQuantity | src/main/java/org/broadleafcommerce/inventory/service/workflow/DecrementInventoryActivity.java:78 | Items of one sku with quantities 2 then 3 leave 3, not 5. |
| DecrementActivity.BuildSkuInventoryMap | src/main/java/org/broadleafcommerce/inventory/service/workflow/DecrementInventoryActivity.java:67-79 | The loop builds the map `SkuQuantities` specifies. |
| DecrementActivity.DecrementRetries | src/main/java/org/broadleafcommerce/inventory/service/workflow/DecrementInventoryActivity.java:90-103 | With a limit of 0 or less the service is never called and the loop succeeds; otherwise it makes between 1 and the limit calls; it ends in a conflict only after using all of them; each call's exception is the service's. |
| DecrementActivity.RetryStep | src/main/java/org/broadleafcommerce/inventory/service/workflow/DecrementInventoryActivity.java:92-102 | One turn: a conflict before the last attempt goes on from the rolled-back store; a success, the last conflict and any other exception end the loop with that call's result. |
| DecrementActivity.UncontendedDecrementIsOneCall | src/main/java/org/broadleafcommerce/inventory/service/workflow/DecrementInventoryActivity.java:92-95 | With nobody interfering, the service is called once and its result stands, shortage included. |
| DecrementActivity.RetriesStayNonNegative | src/main/java/org/broadleafcommerce/inventory/service/workflow/DecrementInventoryActivity.java:92-103 | No number of retries makes a quantity negative. |
| DecrementActivity.FailedRetriesRestoreQuantities | src/main/java/org/broadleafcommerce/inventory/service/workflow/DecrementInventoryActivity.java:92-103 | A retry loop that fails leaves the same rows and undoes every quantity its attempts wrote. Each row has its quantities from before the loop, or those another transaction committed to it during one of the attempts. |
| DecrementActivity.RetryMeetsStockTakenByOthers | src/main/java/org/broadleafcommerce/inventory/service/workflow/DecrementInventoryActivity.java:92-103 | Take an eligible sku with enough stock, which another transaction lowers below the requested quantity before the first save. The first attempt then conflicts, and the retry reports the sku short with the quantity the other transaction left. The rows keep that transaction's commit, and the service was called twice. |
| DecrementActivity.ItemWithoutSkuFails | src/main/java/org/broadleafcommerce/inventory/service/workflow/DecrementInventoryActivity.java:69-94 | When the limit lets the loop call the service, an order with an item that has no sku always ends failed. No attempt runs through, because the null map key throws in the eligibility check unless an earlier entry threw first (a conflict, say). With a limit of 0 or less the service is never called and the step succeeds. |
| DecrementActivity.LastQuantityIsSome | src/main/java/org/broadleafcommerce/inventory/service/workflow/DecrementInventoryActivity.java:69-79 | Every item's key is found in the items. |
| DecrementActivity.RegisteredState | src/main/java/org/broadleafcommerce/inventory/service/workflow/DecrementInventoryActivity.java:105-120 | The registered state holds the copied configuration under every other key, the map {default location → its inventory state with the sku map} under the decremented key, and the order id (or null) under the order id key. |
| DecrementActivity.DecrementInventoryActivity.constructor | src/main/java/org/broadleafcommerce/inventory/service/workflow/DecrementInventoryActivity.java:54-59 | A new step retries up to 5 times and has automatic rollback registration switched off. |
| DecrementActivity.DecrementInventoryActivity.SetMaxRetries | src/main/java/org/broadleafcommerce/inventory/service/workflow/DecrementInventoryActivity.java:128-130 | Sets the limit, null included, without a check. |
| DecrementActivity.DecrementInventoryActivity.DecrementWithRetries | src/main/java/org/broadleafcommerce/inventory/service/workflow/DecrementInventoryActivity.java:90-103 | The loop around the default-location decrement ends as `DecrementRetries` says. |
| DecrementActivity.DecrementInventoryActivity.Execute | src/main/java/org/broadleafcommerce/inventory/service/workflow/DecrementInventoryActivity.java:62-126 | The step decrements the order's map with retries. A null limit throws when unboxed. Exactly when the decrement succeeded, a handler is present and automatic registration is off, it registers the state `RegisteredState` describes; an exception registers nothing. |
| RollbackHandler.Handle | src/main/java/org/broadleafcommerce/inventory/service/workflow/InventoryRollbackHandler.java:53-92 | The catch clauses: success ends the loop; a conflict counts a retry without ending it; a shortage, in the decrement loop, is logged and neither counts nor ends it; any other exception is logged as unexpected and ends it. |
| RollbackHandler.IncrementBranch | src/main/java/org/broadleafcommerce/inventory/service/workflow/InventoryRollbackHandler.java:49-67 | The increment loop makes between 1 and `maxRetries + 1` calls, and none when the counter is already past the limit. |
| RollbackHandler.DecrementBranch | src/main/java/org/broadleafcommerce/inventory/service/workflow/InventoryRollbackHandler.java:72-93 | The decrement loop as written, followed for at most `fuel` iterations; if it is still running after that, it has used all of them. |
| RollbackHandler.CorrectedDecrementBranch | src/main/java/org/broadleafcommerce/inventory/service/workflow/InventoryRollbackHandler.java:72-93 | The decrement loop with a shortage ending it: at most `maxRetries + 1` calls and no step bound. |
| RollbackHandler.RollbackSpec | src/main/java/org/broadleafcommerce/inventory/service/workflow/InventoryRollbackHandler.java:34-95 | The handler does nothing without state or without both inventory keys. The only exception that escapes is the class cast of a value that is no map. The handler ends still spinning exactly when the decrement loop ran out of steps. |
| RollbackHandler.ExhaustionLoggedBeforeLastAttempt | src/main/java/org/broadleafcommerce/inventory/service/workflow/InventoryRollbackHandler.java:52-61 | The extra attempt: a conflict at counter `maxRetries - 1` logs exhaustion, yet the loop calls the service again, and the compensation can then succeed. |
| RollbackHandler.DecrementBranchSpins | src/main/java/org/broadleafcommerce/inventory/service/workflow/InventoryRollbackHandler.java:75-88 | With nobody interfering, a shortage repeats forever: after any number of iterations the loop is still running, has made that many calls, has logged a shortage each time, and has left the store as it was. |
| RollbackHandler.IncrementIteration | src/main/java/org/broadleafcommerce/inventory/service/workflow/InventoryRollbackHandler.java:52-67 | One iteration of the increment loop: the call, then the catch clauses, then stop or go on. |
| RollbackHandler.DecrementIteration | src/main/java/org/broadleafcommerce/inventory/service/workflow/InventoryRollbackHandler.java:75-93 | One iteration of the decrement loop. |
| RollbackHandler.DecrementLoopExit | src/main/java/org/broadleafcommerce/inventory/service/workflow/InventoryRollbackHandler.java:75 | Past the limit, the loop leaves its state as it is; out of steps, it marks it as still running. |
| RollbackHandler.CorrectedDecrementStopsAtShortage | src/main/java/org/broadleafcommerce/inventory/service/workflow/InventoryRollbackHandler.java:85-87 | The corrected loop stops at a shortage after one call, with one log entry. |
| RollbackHandler.StateEntriesFailCast | src/main/java/org/broadleafcommerce/inventory/service/workflow/InventoryRollbackHandler.java:48-77 | Every mutator given the cast map of location states fails with a class cast and changes no row. |
| RollbackHandler.LoopsOnStateEntries | src/main/java/org/broadleafcommerce/inventory/service/workflow/InventoryRollbackHandler.java:62-91 | Both loops make one call on such a map and log it as unexpected. |
| RollbackHandler.InertStateLeavesRows | src/main/java/org/broadleafcommerce/inventory/service/workflow/InventoryRollbackHandler.java:34-95 | When each inventory value is null, not a map, or the map of location states, the handler changes no row and finishes. |
| RollbackHandler.RegisteredValueCast | src/main/java/org/broadleafcommerce/inventory/service/workflow/DecrementInventoryActivity.java:105-120 | Under a key the configuration did not fill, the registered state holds null, an order id, or the map of location states, which the cast sees as one foreign entry. |
| RollbackHandler.RegisteredDecrementIsNeverCompensated | src/main/java/org/broadleafcommerce/inventory/service/workflow/DecrementInventoryActivity.java:113-121 | Take the state the checkout step registers, with configuration that has no inventory entries. Whatever keys the step uses, the handler leaves every row as it was. Under the handler's own key it makes one failing call and logs it as unexpected. |
| RollbackHandler.CorrectedRegisteredState | src/main/java/org/broadleafcommerce/inventory/service/workflow/DecrementInventoryActivity.java:105-120 | The intended state: the sku map under the key the handler reads, the order id under its key, and the configuration elsewhere. |
| RollbackHandler.CorrectedStateCompensatesDecrement | src/main/java/org/broadleafcommerce/inventory/service/workflow/InventoryRollbackHandler.java:47-67 | With that state, when the first increment meets no interference, the handler undoes a committed decrement in one call. It logs nothing, and every row has its quantities of before the decrement again. |
| RollbackHandler.InventoryRollbackHandler.constructor | src/main/java/org/broadleafcommerce/inventory/service/workflow/InventoryRollbackHandler.java:31 | The limit starts at 5 and the log empty. |
| RollbackHandler.InventoryRollbackHandler.SetMaxRetries | src/main/java/org/broadleafcommerce/inventory/service/workflow/InventoryRollbackHandler.java:97-102 | As written: it refuses exactly when the current limit is negative, and otherwise accepts any value, negative ones included. |
| RollbackHandler.InventoryRollbackHandler.SetMaxRetriesValidated | src/main/java/org/broadleafcommerce/inventory/service/workflow/InventoryRollbackHandler.java:97-102 | As intended: it refuses exactly a negative new value, so the limit never becomes negative. |
| RollbackHandler.InventoryRollbackHandler.Catch | src/main/java/org/broadleafcommerce/inventory/service/workflow/InventoryRollbackHandler.java:56-92 | The catch clauses update the log and the counter as `Handle` says. |
| RollbackHandler.InventoryRollbackHandler.IncrementAttempt | src/main/java/org/broadleafcommerce/inventory/service/workflow/InventoryRollbackHandler.java:53-66 | One iteration of the increment loop moves on as `IncrementBranch` does, and a continuing iteration counts a retry. |
| RollbackHandler.InventoryRollbackHandler.IncrementLoop | src/main/java/org/broadleafcommerce/inventory/service/workflow/InventoryRollbackHandler.java:50-67 | The increment loop ends with the store and log `IncrementBranch` gives. |
| RollbackHandler.InventoryRollbackHandler.DecrementAttempt | src/main/java/org/broadleafcommerce/inventory/service/workflow/InventoryRollbackHandler.java:76-92 | One iteration of the decrement loop moves on as `DecrementBranch` does. |
| RollbackHandler.InventoryRollbackHandler.DecrementLoop | src/main/java/org/broadleafcommerce/inventory/service/workflow/InventoryRollbackHandler.java:73-93 | The decrement loop ends with the store and log `DecrementBranch` gives. |
| RollbackHandler.InventoryRollbackHandler.RollbackState | src/main/java/org/broadleafcommerce/inventory/service/workflow/InventoryRollbackHandler.java:34-95 | The handler's outcome, store and log are those of `RollbackSpec`. |
| RollbackHandler.NegativeLimitAccepted | src/main/java/org/broadleafcommerce/inventory/service/workflow/InventoryRollbackHandler.java:97-102 | Setting -1 is accepted, and afterwards even a valid limit is refused. |
| CheckAvailability.ResolveSku | src/main/java/org/broadleafcommerce/inventory/service/workflow/CheckAvailabilityActivity.java:48-60 | With a sku id, the catalog's sku for it. Without one, the sku of the referenced order item when it is discrete, and the request's id becomes that sku's. The step fails with a null dereference exactly for a discrete item without a sku. Otherwise there is no sku and the id stays unset. |
| CheckAvailability.CheckSpec | src/main/java/org/broadleafcommerce/inventory/service/workflow/CheckAvailabilityActivity.java:45-74 | A refusal as unavailable names the request's sku id and quantity; every other failure is unchecked; a null dereference comes from a missing sku. |
| CheckAvailability.CheckPassesExactlyWhenAvailable | src/main/java/org/broadleafcommerce/inventory/service/workflow/CheckAvailabilityActivity.java:65-71 | The step passes exactly when the sku resolves and the default-location check says yes, and refuses as unavailable exactly when it says no. |
| CheckAvailability.CheckAgreesWithDecrement | src/main/java/org/broadleafcommerce/inventory/service/workflow/CheckAvailabilityActivity.java:62-65 | Take an active sku and a positive quantity. The step passes exactly when the checkout decrement at the default location would commit without interference. It refuses exactly when that decrement would report the sku short. |
| CheckAvailability.CheckIsRepeatable | src/main/java/org/broadleafcommerce/inventory/service/workflow/CheckAvailabilityActivity.java:57-58 | Suppose the catalog returns the order item's sku when asked for that sku's id. Then running the step again on the request it updated gives the same answer. |
| CheckAvailability.ItemRequest.constructor | src/main/java/org/broadleafcommerce/inventory/service/workflow/CheckAvailabilityActivity.java:47-48 | The request holds the given sku id, order item id and quantity. |
| CheckAvailability.CheckAvailabilityActivity.constructor | src/main/java/org/broadleafcommerce/inventory/service/workflow/CheckAvailabilityActivity.java:41-42 | The step uses the given service and lookups. |
| CheckAvailability.CheckAvailabilityActivity.Execute | src/main/java/org/broadleafcommerce/inventory/service/workflow/CheckAvailabilityActivity.java:45-74 | The step's outcome and the request's new sku id are those of `CheckSpec`; the other request fields and the whole store are unchanged. |
| InventoryPersistenceHandler.RoutingIsByFirstCriterion | src/main/java/org/broadleafcommerce/inventory/admin/server/service/handler/InventoryCustomPersistenceHandler.java:79-99 | Inspect, fetch and add are routed exactly as update. Only the class and the first criterion decide: later criteria never change the answer, and a request without criteria or of another class is never taken. |
| InventoryPersistenceHandler.UpdateFrom | src/main/java/org/broadleafcommerce/inventory/admin/server/service/handler/InventoryCustomPersistenceHandler.java:250-270 | The persister is called between 1 and 5 times, and "too many users" comes only after the fifth call. |
| InventoryPersistenceHandler.TooManyUsersExactlyWhenAllConflict | src/main/java/org/broadleafcommerce/inventory/admin/server/service/handler/InventoryCustomPersistenceHandler.java:252-263 | The update gives up with "too many users" exactly when all five calls meet a conflict. |
| InventoryPersistenceHandler.FirstNonConflictDecides | src/main/java/org/broadleafcommerce/inventory/admin/server/service/handler/InventoryCustomPersistenceHandler.java:252-281 | The first call without a conflict ends the loop and decides the result: the saved record converted, the request's entity unchanged after a null, or the persister's failure wrapped. |
| InventoryPersistenceHandler.ResultsComeFromCalls | src/main/java/org/broadleafcommerce/inventory/admin/server/service/handler/InventoryCustomPersistenceHandler.java:256-281 | A converted record is the one the last call returned, a wrapped failure the one it raised, and an unchanged entity means that call returned null. |
| InventoryPersistenceHandler.InventoryCustomPersistenceHandler.constructor | src/main/java/org/broadleafcommerce/inventory/admin/server/service/handler/InventoryCustomPersistenceHandler.java:73-74 | The handler uses the given persister. |
| InventoryPersistenceHandler.InventoryCustomPersistenceHandler.Update | src/main/java/org/broadleafcommerce/inventory/admin/server/service/handler/InventoryCustomPersistenceHandler.java:233-282 | The loop's result and number of calls are those of `UpdateSpec`. |

Some members have no contract of their own and no row. The rows above cover their lines:
- `InventoryRules.Step`, the loop body, is covered by the rows of `InventoryRules.Run`, `StepKeeps` and `InventoryServiceImpl.Visit`.
- `InventoryPersistenceHandler.CanHandleUpdate`, `CanHandleInspect`, `CanHandleFetch` and `CanHandleAdd` are covered by `RoutingIsByFirstCriterion`.
- `InventoryService.Resolve` is covered by `InventoryServiceImpl.DecrementInventory` and `DecrementInventoryOnHand`.
- `InventoryServiceImpl.IsQuantityAvailable` and `IsQuantityAvailableAt` are covered by `InventoryRules.IsQuantityAvailable`.

## Left out

- Logging: message texts are not modelled. The handler's log records the event kind and the order reference; the exception attached to a log call is not kept. An order id is kept as the stored value, not as its `String.valueOf` form.
- Exception messages: the text of each exception is not modelled, including the one `CheckAvailabilityActivity` builds.
- Threads, row locks and lock waits are not modelled. Another transaction appears only as a commit of new quantities to a row this call saves, between its read for update and its save (`rival`, `contention`). That commit makes the version check fail. Commits by others to rows the call does not save are not modelled.
- Other transactions inserting a row while this one creates the same row are not modelled.
- `expectedAvailabilityDate` is not modelled, because nothing in the core reads it.
- `InventoryServiceImpl` read pass-throughs (`readInventory`, `readInventoryForFulfillmentLocation`, `readSkusNotAtFulfillmentLocation`) are functions without contracts of their own. Their meaning is stated by `Find`, `RowsAt` and `SkusNotAt`, which they call. The store behind them is not part of the repository and is modelled only as far as the service uses it.
- The checkout map is iterated in insertion order (`Put` appends each new key). A Java `HashMap` does not promise that order, and it keeps a null key in its first bucket. When several entries of one map would throw different exceptions, `Execute` reports the one that insertion order reaches first.
- The store's reads with a null location are assumed to find no row. `incrementInventoryOnHand` with an explicit location passes the location to the read for update without a null check (`InventoryServiceImpl.java:357`). A real store might throw some other runtime exception there instead of the modelled `ConstraintViolation`.
- Java `Integer` overflow: quantities are unbounded integers, so an increment past 2^31 - 1 does not wrap in the model.
- A null `Boolean` flag on a fulfillment location is not modelled; the flags are `bool`.
- The catalog and order-item services, the admin persister `saveAdminInventory`, and the default-location lookup of the fulfillment location service are given as functions or fields. Their own code is not part of this model.
- `InventoryCustomPersistenceHandler`: `inspect`, `fetch`, `add` and `correctSkuProperties` are not modelled (admin metadata and reflection). `helper.getRecord` is taken to convert the saved instance (`Converted`).
- `InventoryCustomPersistenceHandler`: an exception thrown by the metadata or primary-key lookups before the loop is not modelled.
- The base activity's setter for automatic rollback registration is a field in the model. The workflow engine that calls the activities is not modelled.
- `sku.getProduct()` being null in the eligibility check is not modelled: a sku carries its product's default category directly, as an optional value.
- A transaction that fails rolls back whatever the exception, so a call commits all of its entries or none. The mutators' transaction annotations name the shortage and the conflict as rollback causes (`InventoryServiceImpl.java:116` and `:122`), and runtime exceptions roll back by default.
- The handler casts each state value to a sku map at `InventoryRollbackHandler.java:48` and `:71`, outside the loops' `try`. A value that is not a map therefore escapes `rollbackState` with a class cast (`Escaped`).
- RollbackHandler.DecrementBranch: followed for at most `fuel` iterations, because the loop as written need not terminate. `StillSpinning` reports a loop still running at the bound. `DecrementLoop` and `RollbackState` have the same bound.
- RollbackHandler.RegisteredDecrementIsNeverCompensated: requires `fuel > 0`. With no steps, a registered state whose own key is the incremented key would be reported as still spinning, although its loop fails at its first call.
- The two key strings `DecrementInventoryActivity` registers under are constants the handler as shown does not declare. They are parameters of the step (`decrementedKey`, `orderIdKey`), not guessed values.

## Findings

| source | as written | input that shows it | evidently intended | confidence | as-written member | corrected member |
|---|---|---|---|---|---|---|
| src/main/java/org/broadleafcommerce/inventory/service/workflow/InventoryRollbackHandler.java:97-102 | `setMaxRetries` checks the current limit instead of the new value | `setMaxRetries(-1)` on a new handler is accepted, and a later `setMaxRetries(3)` is then refused | refuse a negative argument, so the limit stays non-negative | not executed | RollbackHandler.NegativeLimitAccepted | RollbackHandler.InventoryRollbackHandler.SetMaxRetriesValidated |
| src/main/java/org/broadleafcommerce/inventory/service/workflow/InventoryRollbackHandler.java:75-88 | a shortage in the compensating decrement neither counts a retry nor leaves the loop | a non-empty incremented map whose sku has too little stock, with no other transaction: every attempt fails the same way | stop (or count) on a shortage, so the loop ends within `maxRetries + 1` calls | not executed | RollbackHandler.DecrementBranchSpins | RollbackHandler.CorrectedDecrementStopsAtShortage |
| src/main/java/org/broadleafcommerce/inventory/service/workflow/DecrementInventoryActivity.java:113-120 | the step registers a map of locations to inventory states, under constants the handler as shown does not declare, while the handler reads a sku map under its own literal keys | any committed checkout decrement followed by a workflow failure: the handler's increment fails the cast on the location key, or finds nothing, and no stock is given back | register the sku map under the key the handler reads | not executed | RollbackHandler.RegisteredDecrementIsNeverCompensated | RollbackHandler.CorrectedStateCompensatesDecrement |
