/** The admin console's handler for inventory edits: which requests it takes, and the update
    that saves an edited inventory record, retrying when another user changed it first. */
module InventoryPersistenceHandler {
  import opened InventoryTypes

  const INVENTORY_CLASS: string := "org.broadleafcommerce.inventory.domain.Inventory"
  const UPDATE_CRITERION: string := "inventoryUpdate"
  const MAX_RETRIES: nat := 5

  /** The parts of an admin request the handler looks at: the ceiling entity's class name and
      the custom criteria array, each of which may be null, as may each criterion. */
  datatype PersistencePackage = PersistencePackage(ceilingEntityClassname: Option<string>,
                                                   customCriteria: Option<seq<Option<string>>>,
                                                   entity: int)

  /** The request is an inventory update: criteria present and not empty, the ceiling class is
      the inventory entity, and the first criterion names the inventory update. */
  predicate CanHandleUpdate(p: PersistencePackage)
  {
    && p.customCriteria.Some? && |p.customCriteria.value| > 0
    && p.ceilingEntityClassname == Some(INVENTORY_CLASS)
    && p.customCriteria.value[0] == Some(UPDATE_CRITERION)
  }

  predicate CanHandleInspect(p: PersistencePackage)
  {
    CanHandleUpdate(p)
  }

  predicate CanHandleFetch(p: PersistencePackage)
  {
    CanHandleUpdate(p)
  }

  predicate CanHandleAdd(p: PersistencePackage)
  {
    CanHandleUpdate(p)
  }

  /** The handler takes a request for one operation exactly when it takes it for the others,
      and what decides is the class and the first criterion only: criteria after the first
      never change the answer, and no request without criteria is taken. */
  lemma RoutingIsByFirstCriterion(p: PersistencePackage, more: seq<Option<string>>)
    ensures CanHandleInspect(p) == CanHandleUpdate(p) && CanHandleFetch(p) == CanHandleUpdate(p) && CanHandleAdd(p) == CanHandleUpdate(p)
    ensures p.customCriteria.Some? && |p.customCriteria.value| > 0 ==>
              CanHandleUpdate(p.(customCriteria := Some(p.customCriteria.value + more))) == CanHandleUpdate(p)
    ensures p.customCriteria.None? || p.customCriteria == Some([]) ==> !CanHandleUpdate(p)
    ensures p.ceilingEntityClassname != Some(INVENTORY_CLASS) ==> !CanHandleUpdate(p)
  {
    if p.customCriteria.Some? && |p.customCriteria.value| > 0 {
      assert (p.customCriteria.value + more)[0] == p.customCriteria.value[0];
    }
  }

  /** What one call of the admin inventory persister does: it saves and returns the record,
      returns nothing after a validation error, meets a concurrent modification, or fails
      otherwise. */
  datatype SaveAttempt = Saved(instance: int) | SavedNull | Conflict | SaveFailure(failure: Failure)

  /** The cause a `ServiceException` of the update carries: the "too many users" exception
      thrown after the last conflict, or the persister's own failure. */
  datatype Cause = TooManyUsers | PersisterFailed(failure: Failure)

  /** The update's result: the saved record converted for the console, the request's entity
      returned as it was, or the `ServiceException` wrapping a cause. */
  datatype UpdateResult = Converted(instance: int) | Unchanged(entity: int) | UpdateFailed(cause: Cause)

  /** The result and the number of persister calls made. */
  datatype Updated = Updated(result: UpdateResult, calls: nat)

  /** The retry loop from attempt `retryCount` on, with `save(k)` the outcome of the call made
      at attempt `k`: a conflict is retried, the conflict that brings the counter to
      `MAX_RETRIES` throws, anything else ends the loop. */
  function UpdateFrom(entity: int, save: nat -> SaveAttempt, retryCount: nat): (r: Updated)
    decreases MAX_RETRIES - retryCount
    ensures retryCount < MAX_RETRIES ==> retryCount < r.calls <= MAX_RETRIES
    ensures retryCount >= MAX_RETRIES ==> r == Updated(Unchanged(entity), retryCount)
    ensures r.result == UpdateFailed(TooManyUsers) ==> r.calls == MAX_RETRIES
  {
    if retryCount >= MAX_RETRIES then Updated(Unchanged(entity), retryCount)
    else
      match save(retryCount)
      case Saved(instance) => Updated(Converted(instance), retryCount + 1)
      case SavedNull => Updated(Unchanged(entity), retryCount + 1)
      case SaveFailure(f) => Updated(UpdateFailed(PersisterFailed(f)), retryCount + 1)
      case Conflict =>
        if retryCount + 1 == MAX_RETRIES then Updated(UpdateFailed(TooManyUsers), retryCount + 1)
        else UpdateFrom(entity, save, retryCount + 1)
  }

  function UpdateSpec(entity: int, save: nat -> SaveAttempt): Updated
  {
    UpdateFrom(entity, save, 0)
  }

  /** The update gives up with "too many users" exactly when every one of the `MAX_RETRIES`
      calls meets a conflict. */
  lemma {:induction false} TooManyUsersExactlyWhenAllConflict(entity: int, save: nat -> SaveAttempt, retryCount: nat)
    requires retryCount < MAX_RETRIES
    ensures UpdateFrom(entity, save, retryCount).result == UpdateFailed(TooManyUsers)
            <==> forall k :: retryCount <= k < MAX_RETRIES ==> save(k) == Conflict
    decreases MAX_RETRIES - retryCount
  {
    if save(retryCount) == Conflict && retryCount + 1 < MAX_RETRIES {
      TooManyUsersExactlyWhenAllConflict(entity, save, retryCount + 1);
    }
  }

  /** The loop stops at the first call that does not meet a conflict, and the update's result
      is that call's. */
  lemma {:induction false} FirstNonConflictDecides(entity: int, save: nat -> SaveAttempt, retryCount: nat, k: nat)
    requires retryCount <= k < MAX_RETRIES && save(k) != Conflict
    requires forall j :: retryCount <= j < k ==> save(j) == Conflict
    ensures var r := UpdateFrom(entity, save, retryCount);
            && r.calls == k + 1
            && r.result == match save(k)
                           case Saved(instance) => Converted(instance)
                           case SavedNull => Unchanged(entity)
                           case SaveFailure(f) => UpdateFailed(PersisterFailed(f))
                           case Conflict => Unchanged(entity)
    decreases k - retryCount
  {
    if retryCount < k {
      FirstNonConflictDecides(entity, save, retryCount + 1, k);
    }
  }

  /** A record converted for the console is one the persister returned, and a failure carried
      by the exception is one the persister raised, both at a call that was made. */
  lemma {:induction false} ResultsComeFromCalls(entity: int, save: nat -> SaveAttempt, retryCount: nat)
    requires retryCount < MAX_RETRIES
    ensures var r := UpdateFrom(entity, save, retryCount);
            && (r.result.Converted? ==> save(r.calls - 1) == Saved(r.result.instance))
            && (r.result.UpdateFailed? && r.result.cause.PersisterFailed? ==> save(r.calls - 1) == SaveFailure(r.result.cause.failure))
            && (r.result.Unchanged? ==> r.result.entity == entity && save(r.calls - 1) == SavedNull)
    decreases MAX_RETRIES - retryCount
  {
    if save(retryCount) == Conflict && retryCount + 1 < MAX_RETRIES {
      ResultsComeFromCalls(entity, save, retryCount + 1);
    }
  }

  class InventoryCustomPersistenceHandler {
    /** The persister, as the outcome of its call at each attempt. */
    const saveAdminInventory: nat -> SaveAttempt

    constructor (saveAdminInventory: nat -> SaveAttempt)
      ensures this.saveAdminInventory == saveAdminInventory
    {
      this.saveAdminInventory := saveAdminInventory;
    }

    /** The update of an inventory record from the console. */
    method Update(p: PersistencePackage) returns (result: UpdateResult, calls: nat)
      ensures Updated(result, calls) == UpdateSpec(p.entity, saveAdminInventory)
    {
      var adminInstance: Option<int> := None;
      var retryCount: nat := 0;
      calls := 0;
      while retryCount < MAX_RETRIES
        invariant calls == retryCount <= MAX_RETRIES
        invariant UpdateFrom(p.entity, saveAdminInventory, 0) == UpdateFrom(p.entity, saveAdminInventory, retryCount)
        decreases MAX_RETRIES - retryCount
      {
        var attempt := saveAdminInventory(retryCount);
        calls := calls + 1;
        match attempt {
          case Saved(instance) =>
            adminInstance := Some(instance);
            break;
          case SavedNull =>
            break;
          case SaveFailure(f) =>
            return UpdateFailed(PersisterFailed(f)), calls;
          case Conflict =>
            retryCount := retryCount + 1;
            if retryCount == MAX_RETRIES {
              return UpdateFailed(TooManyUsers), calls;
            }
        }
      }
      if adminInstance.None? {
        return Unchanged(p.entity), calls;
      }
      return Converted(adminInstance.value), calls;
    }
  }
}
