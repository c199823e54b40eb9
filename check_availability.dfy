/** The add-to-cart step that refuses a cart item when the default location does not have
    the requested quantity available. It never changes the inventory. */
module CheckAvailability {
  import opened InventoryTypes
  import opened InventoryRules
  import opened InventoryService

  /** The sku the step checks, and the sku id the request carries afterwards. */
  datatype Resolution = Resolution(sku: Option<Sku>, skuId: Option<SkuId>)

  /** Finding the sku: by the request's sku id through the catalog when it has one; otherwise
      through the order item it names, which yields a sku only when it is a discrete item (and
      dereferences that item's sku to copy its id into the request). */
  function ResolveSku(skuId: Option<SkuId>, orderItemId: Option<int>,
                      catalog: SkuId -> Option<Sku>, orderItems: Option<int> -> Option<OrderItem>): (r: Result<Resolution>)
    ensures skuId.Some? ==> r == Success(Resolution(catalog(skuId.value), skuId))
    ensures r.Failed? <==> skuId.None? && orderItems(orderItemId).Some? && orderItems(orderItemId).value.DiscreteItem? &&
                           orderItems(orderItemId).value.sku.None?
    ensures r.Failed? ==> r.failure == NullPointer
    ensures r.Success? && r.value.sku.Some? && skuId.None? ==>
              && r.value.skuId == Some(r.value.sku.value.id)
              && orderItems(orderItemId).Some? && orderItems(orderItemId).value.DiscreteItem?
              && orderItems(orderItemId).value.sku == r.value.sku
    ensures r.Success? && r.value.sku.None? ==> r.value.skuId == skuId
  {
    if skuId.Some? then Success(Resolution(catalog(skuId.value), skuId))
    else
      match orderItems(orderItemId)
      case Some(DiscreteItem(sku, _)) =>
        if sku.None? then Failed(NullPointer) else Success(Resolution(sku, Some(sku.value.id)))
      case _ => Success(Resolution(None, None))
  }

  /** The step's outcome and the request's sku id afterwards. */
  datatype Checked = Checked(outcome: Outcome, skuId: Option<SkuId>)

  /** The whole step: resolve the sku, ask for the quantity at the default location, and
      turn a "no" into the unavailability exception naming the sku id and the quantity. */
  function CheckSpec(rows: Rows, defaultLocation: Option<LocationId>, skuId: Option<SkuId>, orderItemId: Option<int>,
                     quantity: Option<int>, catalog: SkuId -> Option<Sku>, orderItems: Option<int> -> Option<OrderItem>): (r: Checked)
    ensures r.outcome.Fail? && r.outcome.failure.UnavailableSku? ==> r.outcome.failure == UnavailableSku(r.skuId, quantity)
    ensures r.outcome.Fail? && !r.outcome.failure.UnavailableSku? ==> IsRuntime(r.outcome.failure)
    ensures r.outcome.Fail? && r.outcome.failure.NullPointer? ==>
              ResolveSku(skuId, orderItemId, catalog, orderItems).Failed? || ResolveSku(skuId, orderItemId, catalog, orderItems).value.sku.None?
  {
    match ResolveSku(skuId, orderItemId, catalog, orderItems)
    case Failed(f) => Checked(Fail(f), skuId)
    case Success(res) =>
      match IsQuantityAvailable(rows, res.sku, quantity, defaultLocation)
      case Failed(f) => Checked(Fail(f), res.skuId)
      case Success(available) =>
        if available then Checked(Ok, res.skuId) else Checked(Fail(UnavailableSku(res.skuId, quantity)), res.skuId)
  }

  /** The step lets an item through exactly when its sku resolves and the availability check
      says yes; it refuses it as unavailable exactly when the check says no. */
  lemma CheckPassesExactlyWhenAvailable(rows: Rows, defaultLocation: Option<LocationId>, skuId: Option<SkuId>, orderItemId: Option<int>,
                                        quantity: Option<int>, catalog: SkuId -> Option<Sku>, orderItems: Option<int> -> Option<OrderItem>)
    ensures var r := CheckSpec(rows, defaultLocation, skuId, orderItemId, quantity, catalog, orderItems);
            var res := ResolveSku(skuId, orderItemId, catalog, orderItems);
            && (r.outcome == Ok <==>
                  res.Success? && res.value.sku.Some? && IsQuantityAvailable(rows, res.value.sku, quantity, defaultLocation) == Success(true))
            && (r.outcome.Fail? && r.outcome.failure.UnavailableSku? <==>
                  res.Success? && res.value.sku.Some? && IsQuantityAvailable(rows, res.value.sku, quantity, defaultLocation) == Success(false))
  {
  }

  /** For an active sku named by id and a positive quantity, the step agrees with the checkout
      decrement at the default location with nobody interfering: it passes exactly when that
      decrement would commit, and refuses exactly when the decrement would report the sku short. */
  lemma CheckAgreesWithDecrement(rows: Rows, defaultLocation: Option<LocationId>, s: Sku, q: int, orderItemId: Option<int>,
                                 catalog: SkuId -> Option<Sku>, orderItems: Option<int> -> Option<OrderItem>)
    requires catalog(s.id) == Some(s) && s.active && q > 0
    ensures var r := CheckSpec(rows, defaultLocation, Some(s.id), orderItemId, Some(q), catalog, orderItems);
            var e := Apply(rows, Decrement(Available, defaultLocation), [Entry(SkuKey(s), Qty(q))], map[]);
            && (r.outcome == Ok <==> e.outcome == Ok)
            && (r.outcome == Fail(UnavailableSku(Some(s.id), Some(q))) <==> e.outcome.Fail? && e.outcome.failure.Unavailable?)
  {
    AvailabilityPredictsDecrement(rows, s, q, defaultLocation);
  }

  /** Running the step again on the request it updated gives the same answer, provided the
      catalog finds the order item's sku by its id. */
  lemma CheckIsRepeatable(rows: Rows, defaultLocation: Option<LocationId>, skuId: Option<SkuId>, orderItemId: Option<int>,
                          quantity: Option<int>, catalog: SkuId -> Option<Sku>, orderItems: Option<int> -> Option<OrderItem>)
    requires var res := ResolveSku(skuId, orderItemId, catalog, orderItems);
             res.Success? && res.value.sku.Some? ==> catalog(res.value.sku.value.id) == res.value.sku
    ensures var first := CheckSpec(rows, defaultLocation, skuId, orderItemId, quantity, catalog, orderItems);
            var resolved := ResolveSku(skuId, orderItemId, catalog, orderItems);
            resolved.Success? ==> CheckSpec(rows, defaultLocation, first.skuId, orderItemId, quantity, catalog, orderItems) == first
  {
  }

  /** The cart item request the step reads and may update. */
  class ItemRequest {
    var skuId: Option<SkuId>
    var orderItemId: Option<int>
    var quantity: Option<int>

    constructor (skuId: Option<SkuId>, orderItemId: Option<int>, quantity: Option<int>)
      ensures this.skuId == skuId && this.orderItemId == orderItemId && this.quantity == quantity
    {
      this.skuId := skuId;
      this.orderItemId := orderItemId;
      this.quantity := quantity;
    }
  }

  class CheckAvailabilityActivity {
    const service: InventoryServiceImpl
    const catalog: SkuId -> Option<Sku>
    const orderItems: Option<int> -> Option<OrderItem>

    constructor (service: InventoryServiceImpl, catalog: SkuId -> Option<Sku>, orderItems: Option<int> -> Option<OrderItem>)
      ensures this.service == service && this.catalog == catalog && this.orderItems == orderItems
    {
      this.service := service;
      this.catalog := catalog;
      this.orderItems := orderItems;
    }

    /** The step: only the request's sku id may change; the inventory store is left alone. */
    method Execute(request: ItemRequest) returns (outcome: Outcome)
      modifies request
      ensures Checked(outcome, request.skuId)
              == CheckSpec(service.dao.rows, service.dao.defaultLocation, old(request.skuId), request.orderItemId, request.quantity,
                           catalog, orderItems)
      ensures request.orderItemId == old(request.orderItemId) && request.quantity == old(request.quantity)
      ensures unchanged(service.dao)
    {
      var skuId := request.skuId;
      var sku: Option<Sku> := None;
      if skuId.Some? {
        sku := catalog(skuId.value);
      } else {
        var orderItem := orderItems(request.orderItemId);
        if orderItem.Some? && orderItem.value.DiscreteItem? {
          if orderItem.value.sku.None? {
            return Fail(NullPointer);
          }
          sku := orderItem.value.sku;
          request.skuId := Some(sku.value.id);
          skuId := Some(sku.value.id);
        }
      }
      var available := service.IsQuantityAvailable(sku, request.quantity);
      if available.Failed? {
        return Fail(available.failure);
      }
      if !available.value {
        return Fail(UnavailableSku(skuId, request.quantity));
      }
      return Ok;
    }
  }
}
