/** A stocking location: an id, an address and three flags with fixed initial values. */
module FulfillmentLocationEntity {
  import opened InventoryTypes

  /** Addresses are entities of the customer profile; the location holds a reference. */
  type AddressId = int

  class FulfillmentLocation {
    var id: Option<LocationId>
    var address: Option<AddressId>
    var pickupLocation: bool
    var shippingLocation: bool
    var defaultLocation: bool

    /** A new location is a shipping location that is neither a pickup nor the default location. */
    constructor ()
      ensures !pickupLocation && shippingLocation && !defaultLocation
      ensures id == None && address == None
    {
      id := None;
      address := None;
      pickupLocation := false;
      shippingLocation := true;
      defaultLocation := false;
    }

    method SetId(v: Option<LocationId>)
      modifies this
      ensures id == v && address == old(address)
      ensures pickupLocation == old(pickupLocation) && shippingLocation == old(shippingLocation)
      ensures defaultLocation == old(defaultLocation)
    {
      id := v;
    }

    method SetAddress(v: Option<AddressId>)
      modifies this
      ensures address == v && id == old(id)
      ensures pickupLocation == old(pickupLocation) && shippingLocation == old(shippingLocation)
      ensures defaultLocation == old(defaultLocation)
    {
      address := v;
    }

    method SetPickupLocation(v: bool)
      modifies this
      ensures pickupLocation == v
      ensures id == old(id) && address == old(address)
      ensures shippingLocation == old(shippingLocation) && defaultLocation == old(defaultLocation)
    {
      pickupLocation := v;
    }

    method SetShippingLocation(v: bool)
      modifies this
      ensures shippingLocation == v
      ensures id == old(id) && address == old(address)
      ensures pickupLocation == old(pickupLocation) && defaultLocation == old(defaultLocation)
    {
      shippingLocation := v;
    }

    /** Changes this location only: nothing clears the flag on other locations. */
    method SetDefaultLocation(v: bool)
      modifies this
      ensures defaultLocation == v
      ensures id == old(id) && address == old(address)
      ensures pickupLocation == old(pickupLocation) && shippingLocation == old(shippingLocation)
    {
      defaultLocation := v;
    }
  }

  /** Two distinct locations can both be marked default: the class does not keep a single
      default location. */
  method TwoDefaultLocations() returns (a: FulfillmentLocation, b: FulfillmentLocation)
    ensures a != b && a.defaultLocation && b.defaultLocation
  {
    a := new FulfillmentLocation();
    b := new FulfillmentLocation();
    a.SetDefaultLocation(true);
    b.SetDefaultLocation(true);
  }
}
