/** The decisions of the inventory accounting service as functions: which skus are
    tracked, whether a quantity is available, and what one call of a batch mutator does,
    both inside its loop (`Run`) and as committed by its transaction (`Apply`). */
module InventoryRules {
  import opened InventoryTypes
  import opened InventoryStore

  // ---------------------------------------------------------------------------
  // Eligibility

  /** The tracking mode of the sku's default category, if it has one. */
  function CategoryType(s: Sku): Option<InventoryType>
  {
    match s.defaultCategory
    case None => None
    case Some(c) => c.inventoryType
  }

  /** A sku is tracked exactly when its own mode or its category's mode is BASIC and
      neither of them is NONE. */
  function IsSkuEligibleForInventoryCheck(s: Sku): (r: bool)
    ensures r <==> (s.inventoryType == Some(BASIC) || CategoryType(s) == Some(BASIC))
                   && s.inventoryType != Some(NONE) && CategoryType(s) != Some(NONE)
  {
    if s.inventoryType.None? && (s.defaultCategory.None? || s.defaultCategory.value.inventoryType.None?) then
      false
    else if s.inventoryType == Some(NONE) || (s.defaultCategory.Some? && s.defaultCategory.value.inventoryType == Some(NONE)) then
      false
    else if s.inventoryType == Some(BASIC) || (s.defaultCategory.Some? && s.defaultCategory.value.inventoryType == Some(BASIC)) then
      true
    else
      false
  }

  /** A priority lookup of the mode: the sku's own mode when set, else its category's. */
  function FallbackMode(s: Sku): Option<InventoryType>
  {
    if s.inventoryType.Some? then s.inventoryType else CategoryType(s)
  }

  /** The eligibility rule agrees with "the fallback mode is BASIC" except in two cases:
      a BASIC sku in a NONE category is not tracked, and a sku of another mode in a BASIC
      category is tracked. */
  lemma EligibilityVersusFallback(s: Sku)
    ensures IsSkuEligibleForInventoryCheck(s) != (FallbackMode(s) == Some(BASIC)) <==>
      || (s.inventoryType == Some(BASIC) && CategoryType(s) == Some(NONE))
      || (s.inventoryType.Some? && s.inventoryType.value.OtherType? && CategoryType(s) == Some(BASIC))
  {
  }

  // ---------------------------------------------------------------------------
  // Availability

  /** A record exists for the sku at the location and holds at least `quantity` available. */
  predicate HasStock(rows: Rows, sku: SkuId, location: Option<LocationId>, quantity: int)
  {
    var r := Find(rows, sku, location);
    r.Some? && r.value.available >= quantity
  }

  /** The answer of `isQuantityAvailable` at an already resolved location (the default
      overload resolves it to the default location). A null sku is dereferenced. */
  function IsQuantityAvailable(rows: Rows, sku: Option<Sku>, quantity: Option<int>, location: Option<LocationId>): (r: Result<bool>)
    ensures sku.None? ==> r == Failed(NullPointer)
    ensures sku.Some? && !sku.value.active ==> r == Success(false)
    ensures sku.Some? && sku.value.active && !IsSkuEligibleForInventoryCheck(sku.value) ==> r == Success(true)
    ensures sku.Some? && sku.value.active && IsSkuEligibleForInventoryCheck(sku.value) ==>
      if quantity.None? || quantity.value < 0 then r == Failed(IllegalArgument)
      else r == Success(HasStock(rows, sku.value.id, location, quantity.value))
  {
    if sku.None? then Failed(NullPointer)
    else if !sku.value.active then Success(false)
    else if !IsSkuEligibleForInventoryCheck(sku.value) then Success(true)
    else if quantity.None? || quantity.value < 0 then Failed(IllegalArgument)
    else
      var inventory := Find(rows, sku.value.id, location);
      Success(inventory.Some? && inventory.value.available >= quantity.value)
  }

  // ---------------------------------------------------------------------------
  // One entry of a batch

  /** How a mutator's loop treats one map entry before touching the store. */
  datatype Gate = Skip | Reject(failure: Failure) | Proceed(sku: Sku, quantity: int)

  /** The loop's checks, in the order the code makes them: the key's cast to `Sku`, the
      value's cast to `Integer`, the eligibility check (which dereferences the sku), the
      null-or-negative check and the zero check. */
  function Admit(e: Entry): (g: Gate)
    ensures g.Proceed? ==> e == Entry(SkuKey(g.sku), Qty(g.quantity)) && g.quantity > 0
                           && IsSkuEligibleForInventoryCheck(g.sku)
    ensures g.Skip? <==> e.key.SkuKey? && e.value != ForeignValue
                         && (!IsSkuEligibleForInventoryCheck(e.key.sku) || e.value == Qty(0))
    ensures g.Reject? ==> IsRuntime(g.failure)
    ensures g.Reject? && g.failure == IllegalArgument <==>
      e.key.SkuKey? && IsSkuEligibleForInventoryCheck(e.key.sku) && (e.value == NullQty || (e.value.Qty? && e.value.q < 0))
  {
    if e.key.ForeignKey? || e.value.ForeignValue? then Reject(ClassCast)
    else if e.key.NullKey? then Reject(NullPointer)
    else if !IsSkuEligibleForInventoryCheck(e.key.sku) then Skip
    else if e.value.NullQty? || e.value.q < 0 then Reject(IllegalArgument)
    else if e.value.q == 0 then Skip
    else Proceed(e.key.sku, e.value.q)
  }

  /** The batch mutators. `location` is the location the call reads at: for the decrements
      the explicit location or, when it is null, the default one; for the increments the
      explicit location, or the default one when `atDefault`. */
  datatype Mutation =
    | Decrement(field: Field, location: Option<LocationId>)
    | Increment(field: Field, location: Option<LocationId>, atDefault: bool)

  /** The loop's variables: the store as this transaction sees it, the insufficient skus
      collected so far, and the rows this transaction has written. */
  datatype LoopState = LoopState(rows: Rows, unavailable: map<SkuId, int>, written: set<RowKey>)

  datatype Progress = Running(state: LoopState) | Aborted(failure: Failure, state: LoopState)

  function Start(rows: Rows): LoopState
  {
    LoopState(rows, map[], {})
  }

  /** Saves `row` (computed from the row read at `k`) with a version check. When another
      transaction commits `rival[k]` to `k` between the read and the save, that commit
      stands, the stored version has moved on and the save fails. */
  function Write(st: LoopState, k: RowKey, row: Row, rival: Rival): Progress
    requires k in st.rows
  {
    if k in rival then
      Aborted(Concurrent, st.(rows := st.rows[k := Committed(st.rows[k], rival[k])]))
    else
      Running(st.(rows := st.rows[k := row.(version := st.rows[k].version + 1)], written := st.written + {k}))
  }

  /** One iteration of a mutator's loop. */
  function Step(st: LoopState, m: Mutation, e: Entry, rival: Rival): Progress
  {
    match Admit(e)
    case Skip => Running(st)
    case Reject(f) => Aborted(f, st)
    case Proceed(sku, q) =>
      var found := Find(st.rows, sku.id, m.location);
      if m.Decrement? then
        if found.None? then
          Running(st.(unavailable := st.unavailable[sku.id := 0]))
        else
          var current := Quantity(found.value, m.field);
          if current - q < 0 then
            Running(st.(unavailable := st.unavailable[sku.id := current]))
          else
            Write(st, RowKey(sku.id, m.location.value), WithQuantity(found.value, m.field, current - q), rival)
      else if found.Some? then
        var current := Quantity(found.value, m.field);
        Write(st, RowKey(sku.id, m.location.value), WithQuantity(found.value, m.field, current + q), rival)
      else if m.atDefault then
        Aborted(IllegalState, st)
      else if m.location.None? then
        // The new record has a null fulfillment location, which the store refuses.
        Aborted(ConstraintViolation, st)
      else
        var k := RowKey(sku.id, m.location.value);
        Running(st.(rows := st.rows[k := Row(q, q, 0)], written := st.written + {k}))
  }

  /** The loop over the batch, entry by entry, up to the first exception. */
  function Run(st: LoopState, m: Mutation, batch: Batch, rival: Rival): (r: Progress)
    decreases |batch|
    ensures r.Aborted? ==> IsRuntime(r.failure) || r.failure == Concurrent
    ensures m.Increment? ==> r.state.unavailable == st.unavailable
    ensures rival == map[] && r.Aborted? ==> r.failure != Concurrent
  {
    if batch == [] then Running(st)
    else
      match Run(st, m, batch[..|batch| - 1], rival)
      case Aborted(f, s) => Aborted(f, s)
      case Running(s) => Step(s, m, batch[|batch| - 1], rival)
  }

  /** The committed effect of one call and the exception it ends in. */
  datatype Effect = Effect(outcome: Outcome, rows: Rows)

  /** One transactional call: the loop, then the insufficient-stock exception when any sku
      was short. Every exception rolls the transaction back. */
  function Apply(rows: Rows, m: Mutation, batch: Batch, rival: Rival): (r: Effect)
    ensures r.outcome.Fail? ==> IsRuntime(r.outcome.failure) || r.outcome.failure.Concurrent? || r.outcome.failure.Unavailable?
    ensures r.outcome.Fail? && r.outcome.failure.Unavailable? ==> m.Decrement? && |r.outcome.failure.available| > 0
    ensures rival == map[] ==> r.outcome != Fail(Concurrent)
  {
    match Run(Start(rows), m, batch, rival)
    case Aborted(f, s) => Effect(Fail(f), Restore(s.rows, rows, s.written))
    case Running(s) =>
      if |s.unavailable| > 0 then Effect(Fail(Unavailable(s.unavailable)), Restore(s.rows, rows, s.written))
      else Effect(Ok, s.rows)
  }

  // ---------------------------------------------------------------------------
  // What the loop keeps

  predicate SameQuantities(a: Row, b: Row)
  {
    a.available == b.available && a.onHand == b.onHand
  }

  /** Row `r`, stored at `k`, carries the quantities `k` had at the start of the call, or the
      quantities another transaction committed to `k`. */
  ghost predicate KeptOrCommitted(rows0: Rows, rival: Rival, k: RowKey, r: Row)
    requires k in rows0
  {
    SameQuantities(r, rows0[k]) || (k in rival && Holds(r, rival[k]))
  }

  /** Relative to the rows at the start of the call: no row has disappeared, written rows
      are present, and a row this transaction did not write carries its start quantities
      or another transaction's commit. */
  ghost predicate Tracked(rows0: Rows, rival: Rival, s: LoopState)
  {
    && (forall k :: k in rows0 ==> k in s.rows)
    && (forall k :: k in s.written ==> k in s.rows)
    && (forall k :: k in s.rows && k !in s.written ==> k in rows0 && KeptOrCommitted(rows0, rival, k, s.rows[k]))
  }

  /** A row this transaction did not write is exactly as it was. */
  ghost predicate Untouched(rows0: Rows, s: LoopState)
  {
    forall k :: k in s.rows && k !in s.written ==> k in rows0 && s.rows[k] == rows0[k]
  }

  lemma StepKeeps(rows0: Rows, st: LoopState, m: Mutation, e: Entry, rival: Rival)
    requires Tracked(rows0, rival, st)
    ensures Tracked(rows0, rival, Step(st, m, e, rival).state)
    ensures rival == map[] && Untouched(rows0, st) ==> Untouched(rows0, Step(st, m, e, rival).state)
    ensures NonNegative(st.rows) ==> NonNegative(Step(st, m, e, rival).state.rows)
  {
  }

  lemma {:induction false} RunKeeps(rows0: Rows, st: LoopState, m: Mutation, batch: Batch, rival: Rival)
    requires Tracked(rows0, rival, st)
    ensures Tracked(rows0, rival, Run(st, m, batch, rival).state)
    ensures rival == map[] && Untouched(rows0, st) ==> Untouched(rows0, Run(st, m, batch, rival).state)
    ensures NonNegative(st.rows) ==> NonNegative(Run(st, m, batch, rival).state.rows)
    decreases |batch|
  {
    if batch != [] {
      var prefix := batch[..|batch| - 1];
      RunKeeps(rows0, st, m, prefix, rival);
      match Run(st, m, prefix, rival)
      case Aborted(f, s) =>
      case Running(s) => StepKeeps(rows0, s, m, batch[|batch| - 1], rival);
    }
  }

  /** Rolling back a tracked state gives the rows of the start of the call back, up to
      other transactions' commits; with no other transaction, exactly. */
  lemma RestoreTracked(rows0: Rows, rival: Rival, s: LoopState)
    requires Tracked(rows0, rival, s)
    ensures Restore(s.rows, rows0, s.written).Keys == rows0.Keys
    ensures forall k :: k in rows0 ==> KeptOrCommitted(rows0, rival, k, Restore(s.rows, rows0, s.written)[k])
    ensures Untouched(rows0, s) ==> Restore(s.rows, rows0, s.written) == rows0
  {
    var r := Restore(s.rows, rows0, s.written);
    assert r.Keys == rows0.Keys;
  }

  /** Every failed call undoes every quantity it wrote, and no row is created or lost: a
      row holds its quantities from before the call, or those another transaction
      committed to it. */
  lemma FailureRestoresQuantities(rows: Rows, m: Mutation, batch: Batch, rival: Rival)
    requires Apply(rows, m, batch, rival).outcome.Fail?
    ensures Apply(rows, m, batch, rival).rows.Keys == rows.Keys
    ensures forall k :: k in rows ==> KeptOrCommitted(rows, rival, k, Apply(rows, m, batch, rival).rows[k])
  {
    RunKeeps(rows, Start(rows), m, batch, rival);
    RestoreTracked(rows, rival, Run(Start(rows), m, batch, rival).state);
  }

  /** When no other transaction interferes, a failed call leaves the store exactly as it was. */
  lemma FailureWithoutRivalRestoresExactly(rows: Rows, m: Mutation, batch: Batch)
    requires Apply(rows, m, batch, map[]).outcome.Fail?
    ensures Apply(rows, m, batch, map[]).rows == rows
  {
    RunKeeps(rows, Start(rows), m, batch, map[]);
    RestoreTracked(rows, map[], Run(Start(rows), m, batch, map[]).state);
  }

  /** No call, successful or not, makes a stored quantity negative. */
  lemma StoreStaysNonNegative(rows: Rows, m: Mutation, batch: Batch, rival: Rival)
    requires NonNegative(rows)
    ensures NonNegative(Apply(rows, m, batch, rival).rows)
  {
    RunKeeps(rows, Start(rows), m, batch, rival);
    var r := Run(Start(rows), m, batch, rival);
    if Apply(rows, m, batch, rival).outcome.Fail? {
      RestoreTracked(rows, rival, r.state);
    }
  }

  // ---------------------------------------------------------------------------
  // Prefixes of the loop

  /** Once the loop has thrown, the rest of the batch is not looked at. */
  lemma {:induction false} AbortedStays(st: LoopState, m: Mutation, batch: Batch, rival: Rival, n: nat)
    requires n <= |batch|
    requires Run(st, m, batch[..n], rival).Aborted?
    ensures Run(st, m, batch, rival) == Run(st, m, batch[..n], rival)
    decreases |batch| - n
  {
    if n < |batch| {
      assert batch[..|batch| - 1][..n] == batch[..n];
      AbortedStays(st, m, batch[..|batch| - 1], rival, n);
    } else {
      assert batch[..n] == batch;
    }
  }

  /** A loop that ran through the whole batch ran through each of its prefixes, and the
      step at position `n` did not throw. */
  lemma {:induction false} RunningPrefix(st: LoopState, m: Mutation, batch: Batch, rival: Rival, n: nat)
    requires n < |batch|
    requires Run(st, m, batch, rival).Running?
    ensures Run(st, m, batch[..n], rival).Running?
    ensures Step(Run(st, m, batch[..n], rival).state, m, batch[n], rival).Running?
    decreases |batch| - n
  {
    var prefix := batch[..|batch| - 1];
    if n < |batch| - 1 {
      RunningPrefix(st, m, prefix, rival, n);
      assert prefix[..n] == batch[..n];
    }
  }

  /** A call that ran through its batch met no entry that throws. */
  lemma NoRejectWhenRunning(st: LoopState, m: Mutation, batch: Batch, rival: Rival, i: nat)
    requires i < |batch|
    requires Run(st, m, batch, rival).Running?
    ensures !Admit(batch[i]).Reject?
  {
    RunningPrefix(st, m, batch, rival, i);
  }

  // ---------------------------------------------------------------------------
  // The rows a call can reach

  /** The row an entry reads and may write. */
  function TargetOf(location: Option<LocationId>, e: Entry): set<RowKey>
  {
    if Admit(e).Proceed? && location.Some? then {RowKey(Admit(e).sku.id, location.value)} else {}
  }

  function Targets(location: Option<LocationId>, batch: Batch): set<RowKey>
    decreases |batch|
  {
    if batch == [] then {} else Targets(location, batch[..|batch| - 1]) + TargetOf(location, batch[|batch| - 1])
  }

  /** A row is a target exactly when some admitted entry names its sku and the call's
      location is the row's. */
  lemma {:induction false} TargetsAreAdmitted(location: Option<LocationId>, batch: Batch, k: RowKey)
    ensures k in Targets(location, batch) <==>
      exists i :: 0 <= i < |batch| && Admit(batch[i]).Proceed? && location == Some(k.location) && Admit(batch[i]).sku.id == k.sku
    decreases |batch|
  {
    if batch != [] {
      var prefix := batch[..|batch| - 1];
      TargetsAreAdmitted(location, prefix, k);
      if k in Targets(location, batch) && k !in Targets(location, prefix) {
        assert Admit(batch[|batch| - 1]).Proceed?;
      }
      if exists i :: 0 <= i < |batch| && Admit(batch[i]).Proceed? && location == Some(k.location) && Admit(batch[i]).sku.id == k.sku {
        var i :| 0 <= i < |batch| && Admit(batch[i]).Proceed? && location == Some(k.location) && Admit(batch[i]).sku.id == k.sku;
        if i < |batch| - 1 {
          assert prefix[i] == batch[i];
        }
      }
    }
  }

  /** `a` and `b` hold the same rows outside the keys `t`. */
  ghost predicate AgreeOutside(a: Rows, b: Rows, t: set<RowKey>)
  {
    forall k :: k !in t ==> (k in a <==> k in b) && (k in a ==> a[k] == b[k])
  }

  lemma {:induction false} RunStaysOnTargets(rows0: Rows, m: Mutation, batch: Batch, rival: Rival)
    ensures AgreeOutside(rows0, Run(Start(rows0), m, batch, rival).state.rows, Targets(m.location, batch))
    ensures Run(Start(rows0), m, batch, rival).state.written <= Targets(m.location, batch)
    decreases |batch|
  {
    if batch != [] {
      RunStaysOnTargets(rows0, m, batch[..|batch| - 1], rival);
    }
  }

  /** A call changes no row other than those its admitted entries name, whatever its
      outcome: rows of ineligible skus, of zero quantities and of other skus stay as they are. */
  lemma UntouchedOutsideTargets(rows: Rows, m: Mutation, batch: Batch, rival: Rival)
    ensures AgreeOutside(rows, Apply(rows, m, batch, rival).rows, Targets(m.location, batch))
  {
    RunStaysOnTargets(rows, m, batch, rival);
  }

  /** In a map, a skipped entry (ineligible sku or zero quantity) leaves every row of its sku
      as it was. */
  lemma SkippedEntryLeavesRows(rows: Rows, m: Mutation, batch: Batch, rival: Rival, i: nat, k: RowKey)
    requires DistinctKeys(batch)
    requires i < |batch| && Admit(batch[i]).Skip? && k.sku == batch[i].key.sku.id
    ensures k in Apply(rows, m, batch, rival).rows <==> k in rows
    ensures k in rows ==> Apply(rows, m, batch, rival).rows[k] == rows[k]
  {
    UntouchedOutsideTargets(rows, m, batch, rival);
    TargetsAreAdmitted(m.location, batch, k);
    if k in Targets(m.location, batch) {
      assert false;
    }
  }

  // ---------------------------------------------------------------------------
  // The planned effect of a call, computed against the rows at its start

  /** What an admitted entry's read finds in the rows at the start of the call. */
  function Found(rows0: Rows, m: Mutation, sku: SkuId): Option<Row>
  {
    Find(rows0, sku, m.location)
  }

  /** The entry's sku is short for a decrement: no record, or less than `q` in the field. */
  predicate Short(rows0: Rows, m: Mutation, sku: SkuId, q: int)
  {
    var f := Found(rows0, m, sku);
    f.None? || Quantity(f.value, m.field) < q
  }

  /** The quantity reported for a short sku: the stored one, or 0 without a record. */
  function Reported(rows0: Rows, m: Mutation, sku: SkuId): int
  {
    var f := Found(rows0, m, sku);
    if f.None? then 0 else Quantity(f.value, m.field)
  }

  /** The row an admitted entry leaves behind if its call commits, or None when it writes nothing. */
  function EntryEffect(rows0: Rows, m: Mutation, sku: SkuId, q: int): Option<Row>
  {
    var f := Found(rows0, m, sku);
    if m.Decrement? then
      if Short(rows0, m, sku, q) then None
      else Some(WithQuantity(f.value, m.field, Quantity(f.value, m.field) - q).(version := f.value.version + 1))
    else if f.Some? then
      Some(WithQuantity(f.value, m.field, Quantity(f.value, m.field) + q).(version := f.value.version + 1))
    else if m.atDefault || m.location.None? then None
    else Some(Row(q, q, 0))
  }

  /** The rows after every admitted entry of the batch has had its effect. */
  function Planned(rows0: Rows, m: Mutation, batch: Batch): Rows
    decreases |batch|
  {
    if batch == [] then rows0
    else
      var p := Planned(rows0, m, batch[..|batch| - 1]);
      match Admit(batch[|batch| - 1])
      case Proceed(sku, q) =>
        var eff := EntryEffect(rows0, m, sku.id, q);
        if eff.Some? then p[RowKey(sku.id, m.location.value) := eff.value] else p
      case _ => p
  }

  /** Every short sku of the batch with the quantity it had at the start of the call. */
  function Shortfall(rows0: Rows, m: Mutation, batch: Batch): map<SkuId, int>
    decreases |batch|
  {
    if batch == [] then map[]
    else
      var p := Shortfall(rows0, m, batch[..|batch| - 1]);
      match Admit(batch[|batch| - 1])
      case Proceed(sku, q) =>
        if Short(rows0, m, sku.id, q) then p[sku.id := Reported(rows0, m, sku.id)] else p
      case _ => p
  }

  /** No admitted entry of the batch names sku `id`. */
  ghost predicate NotAdmitted(batch: Batch, id: SkuId)
  {
    forall i :: 0 <= i < |batch| && Admit(batch[i]).Proceed? ==> Admit(batch[i]).sku.id != id
  }

  lemma {:induction false} PlannedAgreesAway(rows0: Rows, m: Mutation, batch: Batch, k: RowKey)
    requires NotAdmitted(batch, k.sku)
    ensures k in Planned(rows0, m, batch) <==> k in rows0
    ensures k in rows0 ==> Planned(rows0, m, batch)[k] == rows0[k]
    ensures k.sku !in Shortfall(rows0, m, batch)
    decreases |batch|
  {
    if batch != [] {
      var prefix := batch[..|batch| - 1];
      assert forall i :: 0 <= i < |prefix| ==> prefix[i] == batch[i];
      PlannedAgreesAway(rows0, m, prefix, k);
    }
  }

  /** In a map, the entries before the last one do not admit the last one's sku. */
  lemma LastNotAdmittedBefore(batch: Batch)
    requires DistinctKeys(batch) && batch != [] && Admit(batch[|batch| - 1]).Proceed?
    ensures NotAdmitted(batch[..|batch| - 1], Admit(batch[|batch| - 1]).sku.id)
  {
    var prefix := batch[..|batch| - 1];
    forall i | 0 <= i < |prefix| && Admit(prefix[i]).Proceed?
      ensures Admit(prefix[i]).sku.id != Admit(batch[|batch| - 1]).sku.id
    {
      assert prefix[i] == batch[i];
      assert IdentityOf(batch[i].key) != IdentityOf(batch[|batch| - 1].key);
    }
  }

  /** For a map (distinct keys), a loop that runs through its batch has written exactly the
      planned rows and collected exactly the shortfall. */
  lemma {:induction false} RunFollowsPlan(rows0: Rows, m: Mutation, batch: Batch, rival: Rival)
    requires DistinctKeys(batch)
    requires Run(Start(rows0), m, batch, rival).Running?
    ensures Run(Start(rows0), m, batch, rival).state.rows == Planned(rows0, m, batch)
    ensures m.Decrement? ==> Run(Start(rows0), m, batch, rival).state.unavailable == Shortfall(rows0, m, batch)
    decreases |batch|
  {
    if batch != [] {
      var prefix := batch[..|batch| - 1];
      var e := batch[|batch| - 1];
      assert DistinctKeys(prefix) by {
        forall i, j | 0 <= i < j < |prefix| ensures IdentityOf(prefix[i].key) != IdentityOf(prefix[j].key) {
          assert prefix[i] == batch[i] && prefix[j] == batch[j];
        }
      }
      RunningPrefix(Start(rows0), m, batch, rival, |batch| - 1);
      RunFollowsPlan(rows0, m, prefix, rival);
      if Admit(e).Proceed? {
        LastNotAdmittedBefore(batch);
        PlannedAgreesAway(rows0, m, prefix, RowKey(Admit(e).sku.id, if m.location.Some? then m.location.value else 0));
      }
    }
  }

  /** The planned row of an admitted entry of a map: the entries after it do not touch it. */
  lemma {:induction false} PlannedAtEntry(rows0: Rows, m: Mutation, batch: Batch, i: nat)
    requires DistinctKeys(batch) && i < |batch| && Admit(batch[i]).Proceed? && m.location.Some?
    ensures var g := Admit(batch[i]);
            var k := RowKey(g.sku.id, m.location.value);
            var eff := EntryEffect(rows0, m, g.sku.id, g.quantity);
            && (eff.Some? ==> k in Planned(rows0, m, batch) && Planned(rows0, m, batch)[k] == eff.value)
            && (eff.None? ==> (k in Planned(rows0, m, batch) <==> k in rows0)
                              && (k in rows0 ==> Planned(rows0, m, batch)[k] == rows0[k]))
            && (m.Decrement? ==> (g.sku.id in Shortfall(rows0, m, batch) <==> Short(rows0, m, g.sku.id, g.quantity)))
            && (m.Decrement? && Short(rows0, m, g.sku.id, g.quantity) ==>
                  Shortfall(rows0, m, batch)[g.sku.id] == Reported(rows0, m, g.sku.id))
    decreases |batch|
  {
    var g := Admit(batch[i]);
    var prefix := batch[..|batch| - 1];
    assert DistinctKeys(prefix) by {
      forall a, b | 0 <= a < b < |prefix| ensures IdentityOf(prefix[a].key) != IdentityOf(prefix[b].key) {
        assert prefix[a] == batch[a] && prefix[b] == batch[b];
      }
    }
    if i == |batch| - 1 {
      LastNotAdmittedBefore(batch);
      PlannedAgreesAway(rows0, m, prefix, RowKey(g.sku.id, m.location.value));
    } else {
      assert prefix[i] == batch[i];
      PlannedAtEntry(rows0, m, prefix, i);
      var e := batch[|batch| - 1];
      if Admit(e).Proceed? {
        assert IdentityOf(batch[i].key) != IdentityOf(e.key);
      }
    }
  }

  /** Only skus of admitted entries appear in the shortfall. */
  lemma {:induction false} ShortfallIsAdmitted(rows0: Rows, m: Mutation, batch: Batch, id: SkuId)
    requires id in Shortfall(rows0, m, batch)
    ensures exists i :: 0 <= i < |batch| && Admit(batch[i]).Proceed? && Admit(batch[i]).sku.id == id
    decreases |batch|
  {
    var prefix := batch[..|batch| - 1];
    if id in Shortfall(rows0, m, prefix) {
      ShortfallIsAdmitted(rows0, m, prefix, id);
      var i :| 0 <= i < |prefix| && Admit(prefix[i]).Proceed? && Admit(prefix[i]).sku.id == id;
      assert prefix[i] == batch[i];
    } else {
      assert Admit(batch[|batch| - 1]).Proceed?;
    }
  }

  // ---------------------------------------------------------------------------
  // Decrement

  /** A decrement of a map commits exactly the planned rows when no sku is short, and
      otherwise fails with the map of every short sku of the batch (the whole batch is
      looked at first) to the quantity it has, while the store stays as it was. */
  lemma DecrementOutcome(rows: Rows, m: Mutation, batch: Batch, rival: Rival)
    requires m.Decrement? && DistinctKeys(batch)
    ensures var r := Apply(rows, m, batch, rival);
            && (r.outcome.Ok? ==> r.rows == Planned(rows, m, batch) && Shortfall(rows, m, batch) == map[])
            && (r.outcome.Fail? && r.outcome.failure.Unavailable? ==>
                  r.outcome.failure.available == Shortfall(rows, m, batch)
                  && forall i :: 0 <= i < |batch| ==> !Admit(batch[i]).Reject?)
            && (Run(Start(rows), m, batch, rival).Running? && Shortfall(rows, m, batch) != map[] ==>
                  r.outcome == Fail(Unavailable(Shortfall(rows, m, batch))))
  {
    var run := Run(Start(rows), m, batch, rival);
    if run.Running? {
      RunFollowsPlan(rows, m, batch, rival);
      forall i | 0 <= i < |batch| ensures !Admit(batch[i]).Reject? {
        NoRejectWhenRunning(Start(rows), m, batch, rival, i);
      }
    }
  }

  /** Each admitted entry of a committed decrement took `q` off its sku's row and left the
      other quantity alone; a sku is short exactly when it lacks a record or has less than `q`. */
  lemma DecrementEntryEffect(rows: Rows, m: Mutation, batch: Batch, rival: Rival, i: nat)
    requires m.Decrement? && DistinctKeys(batch) && i < |batch| && Admit(batch[i]).Proceed?
    requires Apply(rows, m, batch, rival).outcome.Ok?
    ensures var g := Admit(batch[i]);
            && m.location.Some?
            && var k := RowKey(g.sku.id, m.location.value);
               && k in rows && Quantity(rows[k], m.field) >= g.quantity
               && k in Apply(rows, m, batch, rival).rows
               && Apply(rows, m, batch, rival).rows[k] ==
                    WithQuantity(rows[k], m.field, Quantity(rows[k], m.field) - g.quantity).(version := rows[k].version + 1)
  {
    DecrementOutcome(rows, m, batch, rival);
    var g := Admit(batch[i]);
    if m.location.None? || Short(rows, m, g.sku.id, g.quantity) {
      if m.location.Some? {
        PlannedAtEntry(rows, m, batch, i);
      } else {
        ShortNoLocation(rows, m, batch, i);
      }
      assert false;
    }
    PlannedAtEntry(rows, m, batch, i);
  }

  /** Without a location every admitted entry of a decrement is short. */
  lemma {:induction false} ShortNoLocation(rows0: Rows, m: Mutation, batch: Batch, i: nat)
    requires m.Decrement? && m.location.None? && i < |batch| && Admit(batch[i]).Proceed?
    ensures Admit(batch[i]).sku.id in Shortfall(rows0, m, batch)
    decreases |batch|
  {
    var prefix := batch[..|batch| - 1];
    if i < |batch| - 1 {
      assert prefix[i] == batch[i];
      ShortNoLocation(rows0, m, prefix, i);
    }
  }

  // ---------------------------------------------------------------------------
  // Increment

  /** A default-location increment never creates a row. */
  lemma {:induction false} DefaultIncrementKeepsKeys(st: LoopState, m: Mutation, batch: Batch, rival: Rival)
    requires m.Increment? && m.atDefault
    ensures Run(st, m, batch, rival).state.rows.Keys == st.rows.Keys
    decreases |batch|
  {
    if batch != [] {
      DefaultIncrementKeepsKeys(st, m, batch[..|batch| - 1], rival);
    }
  }

  /** A default-location increment never creates a record, and one whose admitted sku has no
      record at the default location fails; when no entry before that sku threw, it fails
      with the illegal-state exception. */
  lemma DefaultIncrementNeverCreates(rows: Rows, m: Mutation, batch: Batch, rival: Rival, i: nat)
    requires m.Increment? && m.atDefault && i < |batch| && Admit(batch[i]).Proceed?
    requires Find(rows, Admit(batch[i]).sku.id, m.location).None?
    ensures Apply(rows, m, batch, rival).outcome.Fail?
    ensures Apply(rows, m, batch, rival).rows.Keys == rows.Keys
    ensures Run(Start(rows), m, batch[..i], rival).Running? ==> Apply(rows, m, batch, rival).outcome == Fail(IllegalState)
  {
    var prefix := Run(Start(rows), m, batch[..i], rival);
    if prefix.Running? {
      DefaultIncrementKeepsKeys(Start(rows), m, batch[..i], rival);
      assert batch[..i + 1][..i] == batch[..i];
      assert Run(Start(rows), m, batch[..i + 1], rival) == Aborted(IllegalState, prefix.state);
      AbortedStays(Start(rows), m, batch, rival, i + 1);
    } else {
      AbortedStays(Start(rows), m, batch, rival, i);
    }
    FailureRestoresQuantities(rows, m, batch, rival);
  }

  /** The loop of an increment runs through a batch with no throwing entry when nobody
      interferes and every admitted sku has a record (or may get one). */
  lemma {:induction false} IncrementRunsThrough(rows0: Rows, m: Mutation, batch: Batch)
    requires m.Increment?
    requires forall i :: 0 <= i < |batch| ==> !Admit(batch[i]).Reject?
    requires forall i :: 0 <= i < |batch| && Admit(batch[i]).Proceed? ==>
               Find(rows0, Admit(batch[i]).sku.id, m.location).Some? || (!m.atDefault && m.location.Some?)
    ensures Run(Start(rows0), m, batch, map[]).Running?
    decreases |batch|
  {
    if batch != [] {
      var prefix := batch[..|batch| - 1];
      assert forall i :: 0 <= i < |prefix| ==> prefix[i] == batch[i];
      IncrementRunsThrough(rows0, m, prefix);
      RunKeeps(rows0, Start(rows0), m, prefix, map[]);
    }
  }

  /** An increment of a map commits when nobody interferes, no entry throws and every
      admitted sku has a record or may get one: each such row gains `q`, a missing row at an
      explicit location is created with `q` in both quantities, and nothing else changes. */
  lemma IncrementEntryEffect(rows: Rows, m: Mutation, batch: Batch, i: nat)
    requires m.Increment? && DistinctKeys(batch) && m.location.Some?
    requires forall j :: 0 <= j < |batch| ==> !Admit(batch[j]).Reject?
    requires forall j :: 0 <= j < |batch| && Admit(batch[j]).Proceed? ==>
               Find(rows, Admit(batch[j]).sku.id, m.location).Some? || !m.atDefault
    requires i < |batch| && Admit(batch[i]).Proceed?
    ensures Apply(rows, m, batch, map[]).outcome == Ok
    ensures var g := Admit(batch[i]);
            var k := RowKey(g.sku.id, m.location.value);
            var after := Apply(rows, m, batch, map[]).rows;
            && k in after
            && (k in rows ==> after[k] == WithQuantity(rows[k], m.field, Quantity(rows[k], m.field) + g.quantity).(version := rows[k].version + 1))
            && (k !in rows ==> after[k] == Row(g.quantity, g.quantity, 0))
  {
    IncrementRunsThrough(rows, m, batch);
    RunFollowsPlan(rows, m, batch, map[]);
    PlannedAtEntry(rows, m, batch, i);
  }

  // ---------------------------------------------------------------------------
  // Round trip

  /** After a committed decrement no entry of the batch is rejected, and every admitted sku
      has a row at the location. */
  lemma DecrementPreparesIncrement(rows0: Rows, f: Field, location: LocationId, batch: Batch, rival: Rival)
    requires DistinctKeys(batch)
    requires Apply(rows0, Decrement(f, Some(location)), batch, rival).outcome.Ok?
    ensures forall j :: 0 <= j < |batch| ==> !Admit(batch[j]).Reject?
    ensures var rows1 := Apply(rows0, Decrement(f, Some(location)), batch, rival).rows;
            forall j :: 0 <= j < |batch| && Admit(batch[j]).Proceed? ==> Find(rows1, Admit(batch[j]).sku.id, Some(location)).Some?
  {
    var dec := Decrement(f, Some(location));
    var rows1 := Apply(rows0, dec, batch, rival).rows;
    DecrementOutcome(rows0, dec, batch, rival);
    forall j | 0 <= j < |batch| ensures !Admit(batch[j]).Reject? {
      NoRejectWhenRunning(Start(rows0), dec, batch, rival, j);
    }
    forall j | 0 <= j < |batch| && Admit(batch[j]).Proceed?
      ensures Find(rows1, Admit(batch[j]).sku.id, Some(location)).Some?
    {
      DecrementEntryEffect(rows0, dec, batch, rival, j);
    }
  }

  /** Compensation round trip: a committed decrement of a map at a location, followed by an
      increment of the same map at that location with no interference, commits and gives
      every row its quantities of before the decrement back (versions have moved on). */
  lemma DecrementThenIncrementRestores(rows0: Rows, f: Field, location: LocationId, atDefault: bool, batch: Batch, rival: Rival)
    requires DistinctKeys(batch)
    requires Apply(rows0, Decrement(f, Some(location)), batch, rival).outcome.Ok?
    ensures var rows1 := Apply(rows0, Decrement(f, Some(location)), batch, rival).rows;
            var after := Apply(rows1, Increment(f, Some(location), atDefault), batch, map[]);
            && after.outcome == Ok
            && after.rows.Keys == rows0.Keys
            && forall k :: k in rows0 ==> SameQuantities(after.rows[k], rows0[k])
  {
    var dec := Decrement(f, Some(location));
    var inc := Increment(f, Some(location), atDefault);
    var rows1 := Apply(rows0, dec, batch, rival).rows;
    DecrementPreparesIncrement(rows0, f, location, batch, rival);
    if exists j :: 0 <= j < |batch| && Admit(batch[j]).Proceed? {
      var j :| 0 <= j < |batch| && Admit(batch[j]).Proceed?;
      IncrementEntryEffect(rows1, inc, batch, j);
    } else {
      IncrementRunsThrough(rows1, inc, batch);
      RunFollowsPlan(rows1, inc, batch, map[]);
    }
    CompensatedRowsMatch(rows0, f, location, atDefault, batch, rival);
  }

  /** The row-by-row half of the round trip, once both calls have committed. */
  lemma CompensatedRowsMatch(rows0: Rows, f: Field, location: LocationId, atDefault: bool, batch: Batch, rival: Rival)
    requires DistinctKeys(batch)
    requires Apply(rows0, Decrement(f, Some(location)), batch, rival).outcome.Ok?
    requires Apply(Apply(rows0, Decrement(f, Some(location)), batch, rival).rows, Increment(f, Some(location), atDefault), batch, map[]).outcome.Ok?
    ensures var rows1 := Apply(rows0, Decrement(f, Some(location)), batch, rival).rows;
            var rows2 := Apply(rows1, Increment(f, Some(location), atDefault), batch, map[]).rows;
            && rows2.Keys == rows0.Keys
            && forall k :: k in rows0 ==> SameQuantities(rows2[k], rows0[k])
  {
    var dec := Decrement(f, Some(location));
    var inc := Increment(f, Some(location), atDefault);
    var rows1 := Apply(rows0, dec, batch, rival).rows;
    var rows2 := Apply(rows1, inc, batch, map[]).rows;
    UntouchedOutsideTargets(rows0, dec, batch, rival);
    UntouchedOutsideTargets(rows1, inc, batch, map[]);
    forall k | k in rows2 ensures k in rows0 {
      if k !in Targets(Some(location), batch) {
      } else {
        TargetsAreAdmitted(Some(location), batch, k);
        var j :| 0 <= j < |batch| && Admit(batch[j]).Proceed? && Some(location) == Some(k.location) && Admit(batch[j]).sku.id == k.sku;
        DecrementEntryEffect(rows0, dec, batch, rival, j);
      }
    }
    forall k | k in rows0 ensures k in rows2 && SameQuantities(rows2[k], rows0[k]) {
      if k !in Targets(Some(location), batch) {
      } else {
        TargetsAreAdmitted(Some(location), batch, k);
        var j :| 0 <= j < |batch| && Admit(batch[j]).Proceed? && Some(location) == Some(k.location) && Admit(batch[j]).sku.id == k.sku;
        DecrementEntryEffect(rows0, dec, batch, rival, j);
        DecrementPreparesIncrement(rows0, f, location, batch, rival);
        IncrementEntryEffect(rows1, inc, batch, j);
      }
    }
  }

  // ---------------------------------------------------------------------------
  // Availability and decrement

  /** For an active sku asked for a positive quantity at the same location with nobody
      interfering: the availability check says yes exactly when a decrement of that quantity
      commits, and says no exactly when the decrement reports the sku short. */
  lemma AvailabilityPredictsDecrement(rows: Rows, s: Sku, q: int, location: Option<LocationId>)
    requires s.active && q > 0
    ensures var e := Apply(rows, Decrement(Available, location), [Entry(SkuKey(s), Qty(q))], map[]);
            && (IsQuantityAvailable(rows, Some(s), Some(q), location) == Success(true) <==> e.outcome == Ok)
            && (IsQuantityAvailable(rows, Some(s), Some(q), location) == Success(false) <==>
                  e.outcome == Fail(Unavailable(map[s.id := Reported(rows, Decrement(Available, location), s.id)])))
  {
    var b := [Entry(SkuKey(s), Qty(q))];
    var m := Decrement(Available, location);
    assert b[..0] == [];
    assert Run(Start(rows), m, b, map[]) == Step(Start(rows), m, b[0], map[]);
  }
}
