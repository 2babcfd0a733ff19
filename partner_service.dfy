/**
 * The delivery-partner service (backend/app/services/deliver_partner.py): registering a
 * partner with its serviceable locations, finding the partners that cover a zip code, and
 * assigning a new shipment to the first covering partner that still has capacity.
 */
module PartnerService {
  import opened Wrappers
  import opened Records

  /** The exceptions the partner service and its router raise. */
  datatype ServiceError = DeliveryPartnerNotAvailable | EntityNotFound

  /** A row of the location table; the zip code is its primary key. */
  class Location {
    const zipCode: int

    constructor (zipCode: int)
      ensures this.zipCode == zipCode
    {
      this.zipCode := zipCode;
    }
  }

  /** The signup request of a delivery partner. */
  datatype DeliveryPartnerCreate = DeliveryPartnerCreate(
    name: string,
    email: string,
    serviceableZipCodes: seq<int>,
    maxHandlingCapacity: int,
    password: string)

  /** Everything a partner row holds besides its `shipments` relationship. */
  datatype PartnerProfile = PartnerProfile(
    name: string,
    email: string,
    serviceableZipCodes: seq<int>,
    maxHandlingCapacity: int,
    currentHandlingCapacity: int,
    serviceableLocations: seq<Location>)

  /**
   * A delivery partner row. `serviceableZipCodes` is taken to be a settable attribute, the one
   * a partial update assigns (the table definition is not part of this model);
   * `serviceableLocations` is the relationship signup fills and the zip-code query joins on.
   * `currentHandlingCapacity` is read, never written, by the operations modelled here.
   */
  class DeliveryPartner {
    const id: nat
    var name: string
    var email: string
    var serviceableZipCodes: seq<int>
    var maxHandlingCapacity: int
    var currentHandlingCapacity: int
    var serviceableLocations: seq<Location>
    var shipments: seq<ShipmentRecord>

    /** The row `_add_user` creates from the signup request with its zip list left out. */
    constructor (id: nat, create: DeliveryPartnerCreate, currentHandlingCapacity: int)
      ensures this.id == id
      ensures Profile() == PartnerProfile(create.name, create.email, [], create.maxHandlingCapacity, currentHandlingCapacity, [])
      ensures shipments == []
    {
      this.id := id;
      name := create.name;
      email := create.email;
      serviceableZipCodes := [];
      maxHandlingCapacity := create.maxHandlingCapacity;
      this.currentHandlingCapacity := currentHandlingCapacity;
      serviceableLocations := [];
      shipments := [];
    }

    /** The row's fields other than `shipments`. */
    function Profile(): PartnerProfile
      reads this
    {
      PartnerProfile(name, email, serviceableZipCodes, maxHandlingCapacity, currentHandlingCapacity, serviceableLocations)
    }
  }

  /** Some serviceable location of `p` has zip code `zipcode`. */
  predicate Covers(p: DeliveryPartner, zipcode: int)
    reads p
  {
    exists i :: 0 <= i < |p.serviceableLocations| && p.serviceableLocations[i].zipCode == zipcode
  }

  /**
   * `get_partner_by_zipcode`: the partners, in the order the database returns them, that have
   * a serviceable location with the given zip code — all of them and no others.
   */
  function GetPartnerByZipcode(partners: seq<DeliveryPartner>, zipcode: int): (r: seq<DeliveryPartner>)
    reads partners
    ensures |r| <= |partners|
    ensures forall i :: 0 <= i < |r| ==> r[i] in partners && Covers(r[i], zipcode)
    ensures forall i :: 0 <= i < |partners| && Covers(partners[i], zipcode) ==> partners[i] in r
    ensures |partners| == 1 ==> r == if Covers(partners[0], zipcode) then partners else []
  {
    if partners == [] then []
    else if Covers(partners[0], zipcode) then [partners[0]] + GetPartnerByZipcode(partners[1..], zipcode)
    else GetPartnerByZipcode(partners[1..], zipcode)
  }

  /**
   * The query filters partner by partner: on two lists one after the other it gives the
   * covering partners of the first followed by those of the second, in query order.
   */
  lemma {:induction false} GetPartnerByZipcodeConcat(a: seq<DeliveryPartner>, b: seq<DeliveryPartner>, zipcode: int)
    ensures GetPartnerByZipcode(a + b, zipcode) == GetPartnerByZipcode(a, zipcode) + GetPartnerByZipcode(b, zipcode)
  {
    if a != [] {
      assert (a + b)[1..] == a[1..] + b;
      GetPartnerByZipcodeConcat(a[1..], b, zipcode);
    } else {
      assert a + b == b;
    }
  }

  /** The current handling capacity of each partner, position by position. */
  function Capacities(partners: seq<DeliveryPartner>): (r: seq<int>)
    reads partners
    ensures |r| == |partners|
    ensures forall i :: 0 <= i < |r| ==> r[i] == partners[i].currentHandlingCapacity
  {
    seq(|partners|, i reads partners requires 0 <= i < |partners| => partners[i].currentHandlingCapacity)
  }

  /**
   * First fit: the position of the first positive capacity, every earlier one being at most
   * zero; none when no capacity is positive.
   */
  function FirstFit(caps: seq<int>): (r: Option<nat>)
    ensures r.Some? ==> r.value < |caps| && caps[r.value] > 0
    ensures r.Some? ==> forall j :: 0 <= j < r.value ==> caps[j] <= 0
    ensures r.None? <==> forall j :: 0 <= j < |caps| ==> caps[j] <= 0
  {
    if caps == [] then None
    else if caps[0] > 0 then Some(0)
    else match FirstFit(caps[1..])
      case None => None
      case Some(k) => Some(k + 1)
  }

  /**
   * `add`: registers a partner and attaches one serviceable location per submitted zip code,
   * in order, reusing the location row the table already has for that zip code and creating
   * a new one only when there is none. `locations` is the location table as `session.get`
   * sees it; `id` and `currentHandlingCapacity` stand for what `_add_user` gives the new row.
   */
  method Add(create: DeliveryPartnerCreate, locations: map<int, Location>, id: nat, currentHandlingCapacity: int)
    returns (partner: DeliveryPartner)
    requires forall z :: z in locations ==> locations[z].zipCode == z
    ensures fresh(partner) && partner.id == id && partner.shipments == []
    ensures partner.name == create.name && partner.email == create.email
    ensures partner.maxHandlingCapacity == create.maxHandlingCapacity
    ensures partner.currentHandlingCapacity == currentHandlingCapacity
    ensures partner.serviceableZipCodes == []
    ensures |partner.serviceableLocations| == |create.serviceableZipCodes|
    ensures forall i :: 0 <= i < |create.serviceableZipCodes| ==>
      partner.serviceableLocations[i].zipCode == create.serviceableZipCodes[i]
    ensures forall i :: 0 <= i < |create.serviceableZipCodes| && create.serviceableZipCodes[i] in locations ==>
      partner.serviceableLocations[i] == locations[create.serviceableZipCodes[i]]
    ensures forall i :: 0 <= i < |create.serviceableZipCodes| && create.serviceableZipCodes[i] !in locations ==>
      fresh(partner.serviceableLocations[i])
  {
    partner := new DeliveryPartner(id, create, currentHandlingCapacity);
    var zips := create.serviceableZipCodes;
    for i := 0 to |zips|
      invariant fresh(partner) && partner.id == id && partner.shipments == []
      invariant partner.name == create.name && partner.email == create.email
      invariant partner.maxHandlingCapacity == create.maxHandlingCapacity
      invariant partner.currentHandlingCapacity == currentHandlingCapacity
      invariant partner.serviceableZipCodes == []
      invariant |partner.serviceableLocations| == i
      invariant forall k :: 0 <= k < i ==> partner.serviceableLocations[k].zipCode == zips[k]
      invariant forall k :: 0 <= k < i && zips[k] in locations ==> partner.serviceableLocations[k] == locations[zips[k]]
      invariant forall k :: 0 <= k < i && zips[k] !in locations ==> fresh(partner.serviceableLocations[k])
    {
      var location: Location;
      if zips[i] in locations {
        location := locations[zips[i]];
      } else {
        location := new Location(zips[i]);
      }
      partner.serviceableLocations := partner.serviceableLocations + [location];
    }
  }

  /**
   * `assign_shipment`: walks the partners covering the shipment's destination in query
   * order and appends the shipment to the first one whose current handling capacity is
   * positive; raises DeliveryPartnerNotAvailable, changing nothing, when there is none.
   */
  method AssignShipment(partners: seq<DeliveryPartner>, shipment: ShipmentRecord)
    returns (r: Result<DeliveryPartner, ServiceError>)
    modifies partners
    ensures var eligible := old(GetPartnerByZipcode(partners, shipment.destination));
      var pick := FirstFit(old(Capacities(eligible)));
      && (r.Ok? <==> pick.Some?)
      && (r.Ok? ==> r.value == eligible[pick.value])
      && (r.Err? ==> r.error == DeliveryPartnerNotAvailable)
    ensures var first := old(FirstAvailable(partners, shipment.destination));
      (r.Ok? <==> first.Some?) && (r.Ok? ==> r.value == first.value)
    ensures r.Ok? ==> r.value in partners && r.value.shipments == old(r.value.shipments) + [shipment]
    ensures forall p :: p in partners && (r.Err? || p != r.value) ==> p.shipments == old(p.shipments)
    ensures forall p :: p in partners ==> p.Profile() == old(p.Profile())
  {
    FirstFitIsFirstAvailable(partners, shipment.destination);
    var eligible := GetPartnerByZipcode(partners, shipment.destination);
    ghost var caps := Capacities(eligible);
    for i := 0 to |eligible|
      invariant forall j :: 0 <= j < i ==> caps[j] <= 0
      invariant forall p :: p in partners ==> p.shipments == old(p.shipments) && p.Profile() == old(p.Profile())
    {
      var partner := eligible[i];
      if partner.currentHandlingCapacity > 0 {
        partner.shipments := partner.shipments + [shipment];
        return Ok(partner);
      }
    }
    return Err(DeliveryPartnerNotAvailable);
  }

  /** The first partner, in query order, that covers the zip code and has positive capacity. */
  function FirstAvailable(partners: seq<DeliveryPartner>, zipcode: int): (r: Option<DeliveryPartner>)
    reads partners
    ensures r.Some? ==> r.value in partners && Covers(r.value, zipcode) && r.value.currentHandlingCapacity > 0
  {
    if partners == [] then None
    else if Covers(partners[0], zipcode) && partners[0].currentHandlingCapacity > 0 then Some(partners[0])
    else FirstAvailable(partners[1..], zipcode)
  }

  /**
   * `FirstAvailable` finds nothing exactly when no partner covers the zip code with positive
   * capacity, and otherwise the partner at the first position that does.
   */
  lemma {:induction false} FirstAvailableIsFirst(partners: seq<DeliveryPartner>, zipcode: int)
    ensures var r := FirstAvailable(partners, zipcode);
      r.None? <==> forall i :: 0 <= i < |partners| ==>
        !(Covers(partners[i], zipcode) && partners[i].currentHandlingCapacity > 0)
    ensures var r := FirstAvailable(partners, zipcode);
      r.Some? ==> exists i :: && 0 <= i < |partners| && partners[i] == r.value
                              && forall j :: 0 <= j < i ==>
                                   !(Covers(partners[j], zipcode) && partners[j].currentHandlingCapacity > 0)
  {
    if partners != [] && !(Covers(partners[0], zipcode) && partners[0].currentHandlingCapacity > 0) {
      FirstAvailableIsFirst(partners[1..], zipcode);
      var r := FirstAvailable(partners, zipcode);
      if r.Some? {
        var i :| && 0 <= i < |partners[1..]| && partners[1..][i] == r.value
                 && forall j :: 0 <= j < i ==>
                      !(Covers(partners[1..][j], zipcode) && partners[1..][j].currentHandlingCapacity > 0);
        assert partners[i + 1] == r.value;
        assert forall j :: 0 <= j < i + 1 ==>
          !(Covers(partners[j], zipcode) && partners[j].currentHandlingCapacity > 0) by {
          forall j | 1 <= j < i + 1
            ensures !(Covers(partners[j], zipcode) && partners[j].currentHandlingCapacity > 0)
          {
            assert partners[j] == partners[1..][j - 1];
          }
        }
      } else {
        forall i | 1 <= i < |partners|
          ensures !(Covers(partners[i], zipcode) && partners[i].currentHandlingCapacity > 0)
        {
          assert partners[i] == partners[1..][i - 1];
        }
      }
    }
  }

  /**
   * First fit over the covering partners is the first partner of the whole list that covers
   * the zip code and has capacity: filtering first does not change which partner is picked.
   */
  lemma {:induction false} FirstFitIsFirstAvailable(partners: seq<DeliveryPartner>, zipcode: int)
    ensures var eligible := GetPartnerByZipcode(partners, zipcode);
      var pick := FirstFit(Capacities(eligible));
      && (pick.Some? <==> FirstAvailable(partners, zipcode).Some?)
      && (pick.Some? ==> eligible[pick.value] == FirstAvailable(partners, zipcode).value)
  {
    if partners != [] {
      var p := partners[0];
      var rest := GetPartnerByZipcode(partners[1..], zipcode);
      FirstFitIsFirstAvailable(partners[1..], zipcode);
      if Covers(p, zipcode) {
        var eligible := GetPartnerByZipcode(partners, zipcode);
        assert eligible == [p] + rest;
        assert Capacities(eligible)[1..] == Capacities(rest);
      }
    }
  }

  /** A partner `assign_shipment` picks covers the destination and has positive capacity. */
  lemma AssignedPartnerIsEligible(partners: seq<DeliveryPartner>, zipcode: int)
    ensures var eligible := GetPartnerByZipcode(partners, zipcode);
      var pick := FirstFit(Capacities(eligible));
      pick.Some? ==> && eligible[pick.value] in partners
                     && Covers(eligible[pick.value], zipcode)
                     && eligible[pick.value].currentHandlingCapacity > 0
  {
  }
}
