/** The compensation step the checkout workflow runs when a later step fails: it gives back
    the inventory its state says was decremented and takes back what was incremented, each
    in a retry loop on optimistic-locking conflicts, and logs what it could not do. */
module RollbackHandler {
  import opened InventoryTypes
  import opened InventoryStore
  import opened InventoryRules
  import opened InventoryService
  import opened RollbackState
  import opened DecrementActivity

  /** The error log entries the handler writes. */
  datatype LogEvent =
    | CompensationExhausted(order: OrderLabel)
    | UnexpectedError(order: OrderLabel)
    | NothingLeftToDecrement

  /** `StillSpinning`: the decrement loop was still running when the model's step bound ran out. */
  datatype HandlerOutcome = Completed | Escaped(failure: Failure) | StillSpinning

  /** The progress of a compensation loop: rows, log, number of service calls made by this
      handler run (which also indexes the interference each call meets), and whether the
      step bound ran out. */
  datatype Branch = Branch(rows: Rows, log: seq<LogEvent>, calls: nat, spinning: bool)

  /** After a service call with result `e`. */
  function Called(b: Branch, e: Effect): Branch
  {
    b.(rows := e.rows, calls := b.calls + 1)
  }

  function Logged(b: Branch, event: LogEvent): Branch
  {
    b.(log := b.log + [event])
  }

  /** What the loop body does after a service call with result `outcome`: the catch clauses.
      Success ends the loop; a conflict counts a retry, and reaching `maxRetries` on the
      counter logs the exhaustion; a shortage, where the loop catches it (`catchesShortage`),
      is logged and neither counts nor ends the loop; any other exception is logged and ends
      the loop. */
  datatype Next = Next(log: seq<LogEvent>, retryCount: int, stop: bool)

  function Handle(log: seq<LogEvent>, outcome: Outcome, maxRetries: int, retryCount: int, order: OrderLabel,
                  catchesShortage: bool): (r: Next)
    ensures outcome.Ok? ==> r == Next(log, retryCount, true)
    ensures outcome == Fail(Concurrent) ==> !r.stop && r.retryCount == retryCount + 1
    ensures outcome.Fail? && outcome.failure.Unavailable? && catchesShortage ==> r == Next(log + [NothingLeftToDecrement], retryCount, false)
    ensures !r.stop ==> r.retryCount == retryCount + 1 || (catchesShortage && r.retryCount == retryCount)
    ensures outcome.Fail? && !outcome.failure.Concurrent? && !(catchesShortage && outcome.failure.Unavailable?) ==>
              r == Next(log + [UnexpectedError(order)], retryCount, true)
  {
    if outcome.Ok? then Next(log, retryCount, true)
    else if outcome.failure.Concurrent? then
      Next(if retryCount + 1 == maxRetries then log + [CompensationExhausted(order)] else log, retryCount + 1, false)
    else if catchesShortage && outcome.failure.Unavailable? then Next(log + [NothingLeftToDecrement], retryCount, false)
    else Next(log + [UnexpectedError(order)], retryCount, true)
  }

  /** The increment loop as written: it runs while `retryCount <= maxRetries`, so after the
      conflict that brings the counter to `maxRetries` (and logs the exhaustion) it calls the
      service once more. */
  function IncrementBranch(b: Branch, location: Option<LocationId>, batch: Batch, maxRetries: int, retryCount: int,
                           contention: nat -> Rival, order: OrderLabel): (r: Branch)
    decreases maxRetries + 1 - retryCount
    ensures retryCount > maxRetries ==> r == b
    ensures retryCount <= maxRetries ==> b.calls + 1 <= r.calls <= b.calls + (maxRetries + 1 - retryCount)
    ensures r.spinning == b.spinning
  {
    if retryCount > maxRetries then b
    else
      var e := Apply(b.rows, Increment(Available, location, true), batch, contention(b.calls));
      var n := Handle(b.log, e.outcome, maxRetries, retryCount, order, false);
      var c := Called(b, e).(log := n.log);
      if n.stop then c else IncrementBranch(c, location, batch, maxRetries, n.retryCount, contention, order)
  }

  /** The decrement loop as written: like the increment loop, except that it catches a
      shortage, which therefore neither advances the counter nor ends the loop. `fuel` bounds
      the number of iterations the model follows. */
  function DecrementBranch(b: Branch, location: Option<LocationId>, batch: Batch, maxRetries: int, retryCount: int,
                           contention: nat -> Rival, order: OrderLabel, fuel: nat): (r: Branch)
    decreases fuel
    ensures retryCount > maxRetries ==> r == b
    ensures r.calls <= b.calls + fuel
    ensures r.spinning && !b.spinning ==> r.calls == b.calls + fuel
  {
    if retryCount > maxRetries then b
    else if fuel == 0 then b.(spinning := true)
    else
      var e := Apply(b.rows, Decrement(Available, location), batch, contention(b.calls));
      var n := Handle(b.log, e.outcome, maxRetries, retryCount, order, true);
      var c := Called(b, e).(log := n.log);
      if n.stop then c else DecrementBranch(c, location, batch, maxRetries, n.retryCount, contention, order, fuel - 1)
  }

  /** The decrement loop with a shortage ending it, as the other unchecked exceptions do: it
      needs no step bound and makes at most `maxRetries + 1` calls. */
  function CorrectedDecrementBranch(b: Branch, location: Option<LocationId>, batch: Batch, maxRetries: int, retryCount: int,
                                    contention: nat -> Rival, order: OrderLabel): (r: Branch)
    decreases maxRetries + 1 - retryCount
    ensures retryCount > maxRetries ==> r == b
    ensures retryCount <= maxRetries ==> b.calls + 1 <= r.calls <= b.calls + (maxRetries + 1 - retryCount)
    ensures r.spinning == b.spinning
  {
    if retryCount > maxRetries then b
    else
      var e := Apply(b.rows, Decrement(Available, location), batch, contention(b.calls));
      var c := Called(b, e);
      if e.outcome.Ok? then c
      else if e.outcome.failure.Concurrent? then
        var next := if retryCount + 1 == maxRetries then Logged(c, CompensationExhausted(order)) else c;
        CorrectedDecrementBranch(next, location, batch, maxRetries, retryCount + 1, contention, order)
      else if e.outcome.failure.Unavailable? then
        Logged(c, NothingLeftToDecrement)
      else
        Logged(c, UnexpectedError(order))
  }

  /** The non-empty sku map a cast result holds, if any. */
  predicate HasWork(c: MapCast)
  {
    c.AsBatch? && |c.batch| > 0
  }

  datatype HandlerResult = HandlerResult(outcome: HandlerOutcome, branch: Branch)

  /** `rollbackState` from the point `start`: nothing without state or without either
      inventory key; otherwise the order label, the cast of the decremented value and the
      increment loop, then the cast of the incremented value and the decrement loop. A value
      that is not a map makes its cast throw, which escapes the handler. */
  function RollbackSpec(start: Branch, location: Option<LocationId>, config: Option<StateBlob>, maxRetries: int,
                        contention: nat -> Rival, fuel: nat): (r: HandlerResult)
    ensures r.outcome.Escaped? ==> r.outcome.failure == ClassCast
    ensures (config.None? || (Lookup(config.value, DECREMENTED_KEY) == NullValue && Lookup(config.value, INCREMENTED_KEY) == NullValue))
              ==> r == HandlerResult(Completed, start)
    ensures r.outcome.StillSpinning? <==> r.branch.spinning && !start.spinning
  {
    if config.None? || (Lookup(config.value, DECREMENTED_KEY) == NullValue && Lookup(config.value, INCREMENTED_KEY) == NullValue) then
      HandlerResult(Completed, start)
    else
      var order := OrderLabelOf(config.value);
      var toIncrement := CastToSkuMap(Lookup(config.value, DECREMENTED_KEY));
      if toIncrement.NotAMap? then HandlerResult(Escaped(ClassCast), start)
      else
        var inc := if HasWork(toIncrement) then IncrementBranch(start, location, toIncrement.batch, maxRetries, 0, contention, order) else start;
        var toDecrement := CastToSkuMap(Lookup(config.value, INCREMENTED_KEY));
        if toDecrement.NotAMap? then HandlerResult(Escaped(ClassCast), inc)
        else
          var dec := if HasWork(toDecrement) then DecrementBranch(inc, location, toDecrement.batch, maxRetries, 0, contention, order, fuel) else inc;
          if dec.spinning && !start.spinning then HandlerResult(StillSpinning, dec) else HandlerResult(Completed, dec)
  }

  // ---------------------------------------------------------------------------
  // Properties of the loops

  /** The extra attempt: a conflict on the last counted retry is logged as exhaustion and the
      loop still calls the service once more, so exhaustion can be logged for a compensation
      that then succeeds. */
  lemma {:induction false} ExhaustionLoggedBeforeLastAttempt(b: Branch, location: Option<LocationId>, batch: Batch, maxRetries: int,
                                                            contention: nat -> Rival, order: OrderLabel)
    requires maxRetries >= 1
    requires Apply(b.rows, Increment(Available, location, true), batch, contention(b.calls)).outcome == Fail(Concurrent)
    requires Apply(Apply(b.rows, Increment(Available, location, true), batch, contention(b.calls)).rows,
                   Increment(Available, location, true), batch, contention(b.calls + 1)).outcome == Ok
    ensures var r := IncrementBranch(b, location, batch, maxRetries, maxRetries - 1, contention, order);
            r.calls == b.calls + 2 && r.log == b.log + [CompensationExhausted(order)]
  {
    var e := Apply(b.rows, Increment(Available, location, true), batch, contention(b.calls));
    var next := Logged(Called(b, e), CompensationExhausted(order));
    assert IncrementBranch(b, location, batch, maxRetries, maxRetries - 1, contention, order)
        == IncrementBranch(next, location, batch, maxRetries, maxRetries, contention, order);
  }

  /** The spin: with nobody interfering, a decrement that finds too little stock fails the same
      way on every attempt, the store stays as it was, and the loop is still running after any
      number of iterations, having logged a shortage each time. */
  lemma {:induction false} DecrementBranchSpins(b: Branch, location: Option<LocationId>, batch: Batch, maxRetries: int, retryCount: int,
                                               contention: nat -> Rival, order: OrderLabel, fuel: nat)
    requires retryCount <= maxRetries
    requires forall n :: contention(n) == map[]
    requires Apply(b.rows, Decrement(Available, location), batch, map[]).outcome.Fail?
    requires Apply(b.rows, Decrement(Available, location), batch, map[]).outcome.failure.Unavailable?
    ensures var r := DecrementBranch(b, location, batch, maxRetries, retryCount, contention, order, fuel);
            && r.spinning && r.rows == b.rows && r.calls == b.calls + fuel
            && r.log == b.log + seq(fuel, i => NothingLeftToDecrement)
    decreases fuel
  {
    if fuel == 0 {
      assert b.log + seq(0, i => NothingLeftToDecrement) == b.log;
    } else {
      var m := Decrement(Available, location);
      FailureWithoutRivalRestoresExactly(b.rows, m, batch);
      var next := Logged(Called(b, Apply(b.rows, m, batch, map[])), NothingLeftToDecrement);
      assert next.rows == b.rows;
      DecrementBranchSpins(next, location, batch, maxRetries, retryCount, contention, order, fuel - 1);
      assert next.log + seq(fuel - 1, i => NothingLeftToDecrement) == b.log + seq(fuel, i => NothingLeftToDecrement);
    }
  }

  /** One iteration of the increment loop: the call returned `outcome`, and the branch went
      on to `after` with counter `retryCount'`, or stopped there. */
  lemma IncrementIteration(b: Branch, location: Option<LocationId>, batch: Batch, maxRetries: int, retryCount: int,
                           contention: nat -> Rival, order: OrderLabel, outcome: Outcome,
                           after: Branch, retryCount': int, stop: bool)
    requires retryCount <= maxRetries
    requires Effect(outcome, after.rows) == Apply(b.rows, Increment(Available, location, true), batch, contention(b.calls))
    requires Handle(b.log, outcome, maxRetries, retryCount, order, false) == Next(after.log, retryCount', stop)
    requires after.calls == b.calls + 1 && after.spinning == b.spinning
    ensures IncrementBranch(b, location, batch, maxRetries, retryCount, contention, order)
            == if stop then after else IncrementBranch(after, location, batch, maxRetries, retryCount', contention, order)
  {
  }

  /** One iteration of the decrement loop: the call returned `outcome`, and the branch went
      on to `after` with counter `retryCount'`, or stopped there. */
  lemma DecrementIteration(b: Branch, location: Option<LocationId>, batch: Batch, maxRetries: int, retryCount: int,
                           contention: nat -> Rival, order: OrderLabel, fuel: nat, outcome: Outcome,
                           after: Branch, retryCount': int, stop: bool)
    requires retryCount <= maxRetries && fuel > 0
    requires Effect(outcome, after.rows) == Apply(b.rows, Decrement(Available, location), batch, contention(b.calls))
    requires Handle(b.log, outcome, maxRetries, retryCount, order, true) == Next(after.log, retryCount', stop)
    requires after.calls == b.calls + 1 && after.spinning == b.spinning
    ensures DecrementBranch(b, location, batch, maxRetries, retryCount, contention, order, fuel)
            == if stop then after else DecrementBranch(after, location, batch, maxRetries, retryCount', contention, order, fuel - 1)
  {
  }

  /** The decrement loop leaves its state as it is once the counter is past the limit, and
      marks it as still running once the step bound is used up. */
  lemma DecrementLoopExit(b: Branch, location: Option<LocationId>, batch: Batch, maxRetries: int, retryCount: int,
                          contention: nat -> Rival, order: OrderLabel, fuel: nat)
    requires retryCount > maxRetries || fuel == 0
    ensures DecrementBranch(b, location, batch, maxRetries, retryCount, contention, order, fuel) == b.(spinning := retryCount <= maxRetries || b.spinning)
  {
  }

  /** The corrected loop stops at the shortage after one call. */
  lemma CorrectedDecrementStopsAtShortage(b: Branch, location: Option<LocationId>, batch: Batch, maxRetries: int, retryCount: int,
                                          contention: nat -> Rival, order: OrderLabel)
    requires retryCount <= maxRetries
    requires Apply(b.rows, Decrement(Available, location), batch, contention(b.calls)).outcome.Fail?
    requires Apply(b.rows, Decrement(Available, location), batch, contention(b.calls)).outcome.failure.Unavailable?
    ensures var r := CorrectedDecrementBranch(b, location, batch, maxRetries, retryCount, contention, order);
            r.calls == b.calls + 1 && r.log == b.log + [NothingLeftToDecrement] && !r.spinning == !b.spinning
  {
  }

  // ---------------------------------------------------------------------------
  // The state the decrement step registers, and its correction

  /** The entries a registered map of location states reads as, once cast to a sku map. */
  function StateEntries(location: Option<LocationId>): Batch
  {
    [Entry(LocationKey(location), ForeignValue)]
  }

  /** Every mutator fails on such an entry with a cast error and leaves the store as it was. */
  lemma StateEntriesFailCast(rows: Rows, location: Option<LocationId>, m: Mutation, rival: Rival)
    ensures Apply(rows, m, StateEntries(location), rival) == Effect(Fail(ClassCast), rows)
  {
    var b := StateEntries(location);
    assert b[..0] == [];
    assert Run(Start(rows), m, b, rival) == Aborted(ClassCast, Start(rows));
    assert Restore(rows, rows, {}) == rows;
  }

  /** Both loops make one call on such entries and log the failure as unexpected. */
  lemma LoopsOnStateEntries(b: Branch, handlerLocation: Option<LocationId>, location: Option<LocationId>, maxRetries: int,
                            contention: nat -> Rival, order: OrderLabel, fuel: nat)
    requires maxRetries >= 0 && fuel > 0
    ensures var r := Logged(Called(b, Effect(Fail(ClassCast), b.rows)), UnexpectedError(order));
            && IncrementBranch(b, handlerLocation, StateEntries(location), maxRetries, 0, contention, order) == r
            && DecrementBranch(b, handlerLocation, StateEntries(location), maxRetries, 0, contention, order, fuel) == r
  {
    StateEntriesFailCast(b.rows, location, Increment(Available, handlerLocation, true), contention(b.calls));
    StateEntriesFailCast(b.rows, location, Decrement(Available, handlerLocation), contention(b.calls));
  }

  /** A cast result that gives the handler nothing it can adjust. */
  predicate Inert(c: MapCast, location: Option<LocationId>)
  {
    c.NotPresent? || c.NotAMap? || c == AsBatch(StateEntries(location))
  }

  /** With state whose inventory values are inert, the handler changes no row and finishes
      within its step bound; with the map of location states under the decremented key and
      nothing under the other, it makes one call and logs it as unexpected. */
  lemma InertStateLeavesRows(start: Branch, handlerLocation: Option<LocationId>, location: Option<LocationId>, blob: StateBlob,
                             maxRetries: int, contention: nat -> Rival, fuel: nat)
    requires fuel > 0 && !start.spinning
    requires Inert(CastToSkuMap(Lookup(blob, DECREMENTED_KEY)), location)
    requires Inert(CastToSkuMap(Lookup(blob, INCREMENTED_KEY)), location)
    ensures var r := RollbackSpec(start, handlerLocation, Some(blob), maxRetries, contention, fuel);
            && r.branch.rows == start.rows
            && !r.outcome.StillSpinning?
            && (CastToSkuMap(Lookup(blob, DECREMENTED_KEY)) == AsBatch(StateEntries(location)) &&
                Lookup(blob, INCREMENTED_KEY) == NullValue && maxRetries >= 0 ==>
                  r == HandlerResult(Completed, Logged(Called(start, Effect(Fail(ClassCast), start.rows)), UnexpectedError(OrderLabelOf(blob)))))
  {
    var order := OrderLabelOf(blob);
    if maxRetries >= 0 {
      LoopsOnStateEntries(start, handlerLocation, location, maxRetries, contention, order, fuel);
      var after := Logged(Called(start, Effect(Fail(ClassCast), start.rows)), UnexpectedError(order));
      LoopsOnStateEntries(after, handlerLocation, location, maxRetries, contention, order, fuel);
    }
  }

  /** Under a key the rollback state had no value for, the registered state holds nothing,
      an order id, or the map of location states, and the cast sees it accordingly. */
  lemma RegisteredValueCast(config: Option<StateBlob>, location: Option<LocationId>, batch: Batch, orderId: Option<OrderId>,
                            decrementedKey: string, orderIdKey: string, key: string)
    requires config.Some? ==> Lookup(config.value, key) == NullValue
    ensures var c := CastToSkuMap(Lookup(RegisteredState(config, location, batch, orderId, decrementedKey, orderIdKey), key));
            c.NotPresent? || c.NotAMap? || c == AsBatch(StateEntries(location))
    ensures key == decrementedKey && key != orderIdKey ==>
              CastToSkuMap(Lookup(RegisteredState(config, location, batch, orderId, decrementedKey, orderIdKey), key))
                == AsBatch(StateEntries(location))
    ensures key != decrementedKey && key != orderIdKey ==>
              Lookup(RegisteredState(config, location, batch, orderId, decrementedKey, orderIdKey), key) == NullValue
  {
    var states := LocationStates([(location, InventoryState(location, batch))]);
    assert CastToSkuMap(states) == AsBatch(StateEntries(location));
  }

  /** The state the decrement step registers never leads to a compensation: with rollback
      state that has no inventory entries of its own, the handler leaves every row as it was,
      whatever keys the step uses. Under the handler's own key the value is a map of
      locations to inventory states, its entry fails the cast to a sku in the increment loop,
      and the failure is logged as unexpected. */
  lemma RegisteredDecrementIsNeverCompensated(rows: Rows, handlerLocation: Option<LocationId>, location: Option<LocationId>,
                                              batch: Batch, orderId: Option<OrderId>, config: Option<StateBlob>,
                                              decrementedKey: string, orderIdKey: string,
                                              maxRetries: int, contention: nat -> Rival, fuel: nat)
    requires config.Some? ==> Lookup(config.value, DECREMENTED_KEY) == NullValue && Lookup(config.value, INCREMENTED_KEY) == NullValue
    requires fuel > 0
    ensures var state := RegisteredState(config, location, batch, orderId, decrementedKey, orderIdKey);
            var r := RollbackSpec(Branch(rows, [], 0, false), handlerLocation, Some(state), maxRetries, contention, fuel);
            && r.branch.rows == rows
            && !r.outcome.StillSpinning?
            && (decrementedKey == DECREMENTED_KEY && orderIdKey != DECREMENTED_KEY && orderIdKey != INCREMENTED_KEY && maxRetries >= 0 ==>
                  r.outcome == Completed && r.branch.log == [UnexpectedError(OrderLabelOf(state))] && r.branch.calls == 1)
  {
    RegisteredValueCast(config, location, batch, orderId, decrementedKey, orderIdKey, DECREMENTED_KEY);
    RegisteredValueCast(config, location, batch, orderId, decrementedKey, orderIdKey, INCREMENTED_KEY);
    InertStateLeavesRows(Branch(rows, [], 0, false), handlerLocation, location,
                         RegisteredState(config, location, batch, orderId, decrementedKey, orderIdKey), maxRetries, contention, fuel);
  }

  /** The state the decrement step evidently means to register: its sku map under the key the
      handler reads, with the order id. */
  function CorrectedRegisteredState(config: Option<StateBlob>, batch: Batch, orderId: Option<OrderId>): (r: StateBlob)
    ensures Lookup(r, DECREMENTED_KEY) == SkuQuantityMap(batch)
    ensures Lookup(r, ORDER_ID_KEY) == if orderId.Some? then OrderNumber(orderId.value) else NullValue
    ensures forall key :: key != DECREMENTED_KEY && key != ORDER_ID_KEY ==>
              Lookup(r, key) == if config.Some? then Lookup(config.value, key) else NullValue
  {
    var copied: StateBlob := if config.Some? && |config.value| > 0 then config.value else map[];
    copied[DECREMENTED_KEY := SkuQuantityMap(batch)][ORDER_ID_KEY := if orderId.Some? then OrderNumber(orderId.value) else NullValue]
  }

  /** With the corrected state, the handler undoes a committed decrement at the default
      location: when its first increment meets no interference it completes, and every row
      has its quantities of before the decrement again. */
  lemma CorrectedStateCompensatesDecrement(rows0: Rows, location: LocationId, batch: Batch, rival: Rival, orderId: Option<OrderId>,
                                           config: Option<StateBlob>, maxRetries: int, contention: nat -> Rival, fuel: nat)
    requires DistinctKeys(batch) && |batch| > 0 && maxRetries >= 0 && contention(0) == map[]
    requires config.Some? ==> Lookup(config.value, INCREMENTED_KEY) == NullValue
    requires Apply(rows0, Decrement(Available, Some(location)), batch, rival).outcome.Ok?
    ensures var rows1 := Apply(rows0, Decrement(Available, Some(location)), batch, rival).rows;
            var r := RollbackSpec(Branch(rows1, [], 0, false), Some(location), Some(CorrectedRegisteredState(config, batch, orderId)),
                                  maxRetries, contention, fuel);
            && r.outcome == Completed && r.branch.log == [] && r.branch.calls == 1
            && r.branch.rows.Keys == rows0.Keys
            && forall k :: k in rows0 ==> SameQuantities(r.branch.rows[k], rows0[k])
  {
    DecrementThenIncrementRestores(rows0, Available, location, true, batch, rival);
  }

  // ---------------------------------------------------------------------------
  // The handler

  class InventoryRollbackHandler {
    var maxRetries: int
    var log: seq<LogEvent>
    const service: InventoryServiceImpl

    constructor (service: InventoryServiceImpl)
      ensures maxRetries == 5 && log == [] && this.service == service
    {
      maxRetries := 5;
      log := [];
      this.service := service;
    }

    /** As written: the check looks at the current limit, not at the new one. */
    method SetMaxRetries(v: int) returns (outcome: Outcome)
      modifies this
      ensures old(maxRetries) < 0 ==> outcome == Fail(IllegalArgument) && maxRetries == old(maxRetries)
      ensures old(maxRetries) >= 0 ==> outcome == Ok && maxRetries == v
      ensures log == old(log)
    {
      if maxRetries < 0 {
        return Fail(IllegalArgument);
      }
      maxRetries := v;
      return Ok;
    }

    /** The evidently intended check, on the new limit: the limit never becomes negative. */
    method SetMaxRetriesValidated(v: int) returns (outcome: Outcome)
      modifies this
      ensures v < 0 ==> outcome == Fail(IllegalArgument) && maxRetries == old(maxRetries)
      ensures v >= 0 ==> outcome == Ok && maxRetries == v
      ensures old(maxRetries) >= 0 ==> maxRetries >= 0
      ensures log == old(log)
    {
      if v < 0 {
        return Fail(IllegalArgument);
      }
      maxRetries := v;
      return Ok;
    }

    /** The catch clauses of both loops, after a service call with result `outcome`. */
    method Catch(outcome: Outcome, order: OrderLabel, retryCount: int, catchesShortage: bool) returns (retryCount': int, stop: bool)
      modifies this
      ensures Handle(old(log), outcome, maxRetries, retryCount, order, catchesShortage) == Next(log, retryCount', stop)
      ensures maxRetries == old(maxRetries)
    {
      retryCount', stop := retryCount, false;
      if outcome.Ok? {
        stop := true;
      } else if outcome.failure.Concurrent? {
        retryCount' := retryCount + 1;
        if retryCount' == maxRetries {
          log := log + [CompensationExhausted(order)];
        }
      } else if catchesShortage && outcome.failure.Unavailable? {
        log := log + [NothingLeftToDecrement];
      } else {
        log := log + [UnexpectedError(order)];
        stop := true;
      }
    }

    /** One iteration of the increment loop: the call, then the handling of its exception. */
    method IncrementAttempt(batch: Batch, order: OrderLabel, contention: nat -> Rival, calls: nat, retryCount: int)
      returns (calls': nat, retryCount': int, stop: bool)
      requires retryCount <= maxRetries
      modifies this, service.dao
      ensures IncrementBranch(Branch(old(service.dao.rows), old(log), calls, false), service.dao.defaultLocation, batch,
                              maxRetries, retryCount, contention, order)
              == if stop then Branch(service.dao.rows, log, calls', false)
                 else IncrementBranch(Branch(service.dao.rows, log, calls', false), service.dao.defaultLocation, batch,
                                      maxRetries, retryCount', contention, order)
      ensures !stop ==> retryCount' == retryCount + 1
      ensures maxRetries == old(maxRetries) && service.dao.defaultLocation == old(service.dao.defaultLocation)
    {
      ghost var before := Branch(service.dao.rows, log, calls, false);
      var attempt := service.IncrementInventoryAtDefault(batch, contention(calls));
      calls' := calls + 1;
      retryCount', stop := Catch(attempt, order, retryCount, false);
      IncrementIteration(before, service.dao.defaultLocation, batch, maxRetries, retryCount, contention, order,
                         attempt, Branch(service.dao.rows, log, calls', false), retryCount', stop);
    }

    /** The increment loop. */
    method IncrementLoop(batch: Batch, order: OrderLabel, contention: nat -> Rival, calls0: nat) returns (calls: nat)
      modifies this, service.dao
      ensures IncrementBranch(Branch(old(service.dao.rows), old(log), calls0, false), old(service.dao.defaultLocation), batch,
                              old(maxRetries), 0, contention, order)
              == Branch(service.dao.rows, log, calls, false)
      ensures maxRetries == old(maxRetries) && service.dao.defaultLocation == old(service.dao.defaultLocation)
    {
      ghost var start := Branch(service.dao.rows, log, calls0, false);
      ghost var location := service.dao.defaultLocation;
      var retryCount := 0;
      calls := calls0;
      while retryCount <= maxRetries
        invariant maxRetries == old(maxRetries) && service.dao.defaultLocation == location
        invariant IncrementBranch(start, location, batch, maxRetries, 0, contention, order)
               == IncrementBranch(Branch(service.dao.rows, log, calls, false), location, batch, maxRetries, retryCount, contention, order)
        decreases maxRetries + 1 - retryCount
      {
        var stop;
        calls, retryCount, stop := IncrementAttempt(batch, order, contention, calls, retryCount);
        if stop {
          break;
        }
      }
    }

    /** One iteration of the decrement loop, `left` iterations before the step bound: the call,
        then the handling of its exception. */
    method DecrementAttempt(batch: Batch, order: OrderLabel, contention: nat -> Rival, calls: nat, retryCount: int, left: nat)
      returns (calls': nat, retryCount': int, left': nat, stop: bool, spinning: bool)
      requires retryCount <= maxRetries
      modifies this, service.dao
      ensures DecrementBranch(Branch(old(service.dao.rows), old(log), calls, false), service.dao.defaultLocation, batch,
                              maxRetries, retryCount, contention, order, left)
              == if stop then Branch(service.dao.rows, log, calls', spinning)
                 else DecrementBranch(Branch(service.dao.rows, log, calls', false), service.dao.defaultLocation, batch,
                                      maxRetries, retryCount', contention, order, left')
      ensures !stop ==> left' < left && !spinning
      ensures maxRetries == old(maxRetries) && service.dao.defaultLocation == old(service.dao.defaultLocation)
    {
      if left == 0 {
        DecrementLoopExit(Branch(service.dao.rows, log, calls, false), service.dao.defaultLocation, batch, maxRetries, retryCount,
                          contention, order, 0);
        return calls, retryCount, 0, true, true;
      }
      ghost var before := Branch(service.dao.rows, log, calls, false);
      var attempt := service.DecrementInventory(batch, None, contention(calls));
      calls', left', spinning := calls + 1, left - 1, false;
      retryCount', stop := Catch(attempt, order, retryCount, true);
      DecrementIteration(before, service.dao.defaultLocation, batch, maxRetries, retryCount, contention, order, left,
                         attempt, Branch(service.dao.rows, log, calls', false), retryCount', stop);
    }

    /** The decrement loop, followed for at most `fuel` iterations. */
    method DecrementLoop(batch: Batch, order: OrderLabel, contention: nat -> Rival, calls0: nat, fuel: nat)
      returns (calls: nat, spinning: bool)
      modifies this, service.dao
      ensures DecrementBranch(Branch(old(service.dao.rows), old(log), calls0, false), old(service.dao.defaultLocation), batch,
                              old(maxRetries), 0, contention, order, fuel)
              == Branch(service.dao.rows, log, calls, spinning)
      ensures maxRetries == old(maxRetries) && service.dao.defaultLocation == old(service.dao.defaultLocation)
    {
      ghost var start := Branch(service.dao.rows, log, calls0, false);
      ghost var location := service.dao.defaultLocation;
      var retryCount := 0;
      var left := fuel;
      calls, spinning := calls0, false;
      while retryCount <= maxRetries
        invariant maxRetries == old(maxRetries) && service.dao.defaultLocation == location
        invariant !spinning
        invariant DecrementBranch(start, location, batch, maxRetries, 0, contention, order, fuel)
               == DecrementBranch(Branch(service.dao.rows, log, calls, false), location, batch, maxRetries, retryCount, contention, order, left)
        decreases left
      {
        var stop;
        calls, retryCount, left, stop, spinning := DecrementAttempt(batch, order, contention, calls, retryCount, left);
        if stop {
          break;
        }
      }
    }

    /** Compensates the inventory adjustments recorded in `stateConfiguration`. */
    method RollbackState(stateConfiguration: Option<StateBlob>, contention: nat -> Rival, fuel: nat) returns (outcome: HandlerOutcome)
      modifies this, service.dao
      ensures var r := RollbackSpec(Branch(old(service.dao.rows), old(log), 0, false), old(service.dao.defaultLocation),
                                    stateConfiguration, old(maxRetries), contention, fuel);
              outcome == r.outcome && service.dao.rows == r.branch.rows && log == r.branch.log
      ensures maxRetries == old(maxRetries) && service.dao.defaultLocation == old(service.dao.defaultLocation)
    {
      if stateConfiguration.None? ||
         (Lookup(stateConfiguration.value, DECREMENTED_KEY) == NullValue && Lookup(stateConfiguration.value, INCREMENTED_KEY) == NullValue) {
        return Completed;
      }
      var config := stateConfiguration.value;
      var order := OrderLabelOf(config);
      var calls: nat := 0;
      var inventoryToIncrement := CastToSkuMap(Lookup(config, DECREMENTED_KEY));
      if inventoryToIncrement.NotAMap? {
        return Escaped(ClassCast);
      }
      if inventoryToIncrement.AsBatch? && |inventoryToIncrement.batch| > 0 {
        calls := IncrementLoop(inventoryToIncrement.batch, order, contention, calls);
      }
      var inventoryToDecrement := CastToSkuMap(Lookup(config, INCREMENTED_KEY));
      if inventoryToDecrement.NotAMap? {
        return Escaped(ClassCast);
      }
      var spinning := false;
      if inventoryToDecrement.AsBatch? && |inventoryToDecrement.batch| > 0 {
        calls, spinning := DecrementLoop(inventoryToDecrement.batch, order, contention, calls, fuel);
      }
      return if spinning then StillSpinning else Completed;
    }
  }

  /** `setMaxRetries` as written accepts a negative limit, and then refuses every later
      change, valid or not. */
  method NegativeLimitAccepted(service: InventoryServiceImpl) returns (h: InventoryRollbackHandler, first: Outcome, second: Outcome)
    ensures first == Ok && second == Fail(IllegalArgument) && h.maxRetries == -1
  {
    h := new InventoryRollbackHandler(service);
    first := h.SetMaxRetries(-1);
    second := h.SetMaxRetries(3);
  }
}
