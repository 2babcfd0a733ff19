/**
 * The delivery-partner routes (backend/app/api/routers/delivery_partner.py) that carry
 * logic: the partial profile update and the paged listing of the partner's shipments.
 */
module PartnerRouter {
  import opened Wrappers
  import opened Records
  import opened Pagination
  import opened PartnerService

  /** The partial update request: a field left out or sent as null is `None`. */
  datatype DeliveryPartnerUpdate = DeliveryPartnerUpdate(
    serviceableZipCodes: Option<seq<int>>,
    maxHandlingCapacity: Option<int>)

  /** A value of the dumped update dictionary. */
  datatype UpdateValue = ZipCodes(zips: seq<int>) | Capacity(capacity: int)

  const ZipCodesKey: string := "serviceable_zip_codes"
  const CapacityKey: string := "max_handling_capacity"

  /** `model_dump(exclude_none=True)`: one key per supplied field, none for the fields left out. */
  function ModelDumpExcludeNone(u: DeliveryPartnerUpdate): (d: map<string, UpdateValue>)
    ensures ZipCodesKey in d <==> u.serviceableZipCodes.Some?
    ensures CapacityKey in d <==> u.maxHandlingCapacity.Some?
    ensures ZipCodesKey in d ==> d[ZipCodesKey] == ZipCodes(u.serviceableZipCodes.value)
    ensures CapacityKey in d ==> d[CapacityKey] == Capacity(u.maxHandlingCapacity.value)
    ensures d == map[] <==> u.serviceableZipCodes.None? && u.maxHandlingCapacity.None?
    ensures d.Keys <= {ZipCodesKey, CapacityKey}
  {
    var zips := if u.serviceableZipCodes.Some? then map[ZipCodesKey := ZipCodes(u.serviceableZipCodes.value)] else map[];
    var cap := if u.maxHandlingCapacity.Some? then map[CapacityKey := Capacity(u.maxHandlingCapacity.value)] else map[];
    assert ZipCodesKey != CapacityKey;
    assert ZipCodesKey in zips + cap ==> u.serviceableZipCodes.Some?;
    zips + cap
  }

  /**
   * `sqlmodel_update`: every key of the dictionary overwrites the partner attribute of that
   * name; attributes without a key keep their value.
   */
  function SqlModelUpdate(p: PartnerProfile, d: map<string, UpdateValue>): (q: PartnerProfile)
    ensures q.serviceableZipCodes ==
      if ZipCodesKey in d && d[ZipCodesKey].ZipCodes? then d[ZipCodesKey].zips else p.serviceableZipCodes
    ensures q.maxHandlingCapacity ==
      if CapacityKey in d && d[CapacityKey].Capacity? then d[CapacityKey].capacity else p.maxHandlingCapacity
    ensures q.name == p.name && q.email == p.email
    ensures q.currentHandlingCapacity == p.currentHandlingCapacity
    ensures q.serviceableLocations == p.serviceableLocations
  {
    var zips := if ZipCodesKey in d && d[ZipCodesKey].ZipCodes? then d[ZipCodesKey].zips else p.serviceableZipCodes;
    var cap := if CapacityKey in d && d[CapacityKey].Capacity? then d[CapacityKey].capacity else p.maxHandlingCapacity;
    p.(serviceableZipCodes := zips, maxHandlingCapacity := cap)
  }

  /**
   * A partial update overwrites exactly the supplied fields: a field sent as null or left out
   * never overwrites, every other attribute keeps its value.
   */
  lemma PartialUpdateOverwritesSuppliedFields(p: PartnerProfile, u: DeliveryPartnerUpdate)
    ensures var q := SqlModelUpdate(p, ModelDumpExcludeNone(u));
      && q.serviceableZipCodes == (if u.serviceableZipCodes.Some? then u.serviceableZipCodes.value else p.serviceableZipCodes)
      && q.maxHandlingCapacity == (if u.maxHandlingCapacity.Some? then u.maxHandlingCapacity.value else p.maxHandlingCapacity)
      && q.name == p.name && q.email == p.email
      && q.currentHandlingCapacity == p.currentHandlingCapacity
      && q.serviceableLocations == p.serviceableLocations
  {
  }

  /**
   * `update_delivery_partner`: drops the fields sent as null, raises EntityNotFound leaving the
   * partner as it was when nothing is left, and otherwise applies the rest to the partner.
   * It assigns the zip-code list but never the serviceable locations the zip-code query joins
   * on, so it cannot change which zip codes the partner covers.
   */
  method UpdateDeliveryPartner(partner: DeliveryPartner, u: DeliveryPartnerUpdate)
    returns (r: Result<DeliveryPartner, ServiceError>)
    modifies partner
    ensures r.Err? <==> u.serviceableZipCodes.None? && u.maxHandlingCapacity.None?
    ensures r.Err? ==> r.error == EntityNotFound && partner.Profile() == old(partner.Profile())
    ensures r.Ok? ==> r.value == partner && partner.Profile() == SqlModelUpdate(old(partner.Profile()), ModelDumpExcludeNone(u))
    ensures partner.shipments == old(partner.shipments)
    ensures forall zipcode :: Covers(partner, zipcode) == old(Covers(partner, zipcode))
  {
    var update := ModelDumpExcludeNone(u);
    if update == map[] {
      return Err(EntityNotFound);
    }
    if ZipCodesKey in update && update[ZipCodesKey].ZipCodes? {
      partner.serviceableZipCodes := update[ZipCodesKey].zips;
    }
    if CapacityKey in update && update[CapacityKey].Capacity? {
      partner.maxHandlingCapacity := update[CapacityKey].capacity;
    }
    return Ok(partner);
  }

  /** The listing filter: rows whose `delivery_partner_id` is the partner's id. */
  function AssignedTo(partnerId: nat): ShipmentRecord -> bool
  {
    (s: ShipmentRecord) => s.deliveryPartnerId == Some(partnerId)
  }

  /**
   * `get_shipments`: the requested page of the shipments assigned to the partner, the length
   * of the partner's `shipments` relationship as the total, the page echoed, and the page count.
   */
  function GetShipments(partner: DeliveryPartner, table: seq<ShipmentRecord>, params: PaginationParams)
    : (r: Result<ShipmentPage<ShipmentRecord>, ListingError>)
    reads partner
    ensures r.Ok? <==> params.page >= 1 && params.pageSize >= 1
    ensures params.pageSize == 0 ==> r == Err(ZeroDivision)
    ensures r.Ok? ==> r.value.totalShipments == |partner.shipments| && r.value.page == params.page
    ensures r.Ok? ==> r.value.totalPages * params.pageSize >= |partner.shipments|
    ensures r.Ok? ==> r.value.totalPages == 0 || (r.value.totalPages - 1) * params.pageSize < |partner.shipments|
    ensures r.Ok? ==> |r.value.shipments| <= params.pageSize
    ensures r.Ok? ==> forall i :: 0 <= i < |r.value.shipments| ==>
      r.value.shipments[i] in table && r.value.shipments[i].deliveryPartnerId == Some(partner.id)
    ensures r.Ok? ==> Sorted(r.value.shipments, CreatedAt, params.order)
  {
    if params.page >= 1 && params.pageSize >= 1 then
      ListedPage(table, AssignedTo(partner.id), CreatedAt, |partner.shipments|, params);
      ListShipments(table, AssignedTo(partner.id), CreatedAt, |partner.shipments|, params)
    else
      ListShipments(table, AssignedTo(partner.id), CreatedAt, |partner.shipments|, params)
  }
}
