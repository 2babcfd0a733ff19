/**
 * The data shapes of the generated HTTP client (frontend/app/lib/client.ts) and of the
 * frontend's own Shipment type (frontend/app/lib/types.ts): the closed enumerations
 * ShipmentStatus and TagName, the annotated numeric bounds, and the timeline records.
 */
module ApiTypes {
  import opened Wrappers

  /** The seven statuses a shipment event can carry. */
  datatype ShipmentStatus =
    | Placed
    | Processing
    | InTransit
    | OutForDelivery
    | Delivered
    | Returned
    | Cancelled

  /** The ten handling tag names. */
  datatype TagName =
    | Express
    | Standard
    | Fragile
    | Heavy
    | International
    | Domestic
    | TemperatureControlled
    | Gift
    | Return
    | Documents

  /** Every status, in declaration order. */
  const AllShipmentStatuses: seq<ShipmentStatus> :=
    [Placed, Processing, InTransit, OutForDelivery, Delivered, Returned, Cancelled]

  /** Every tag name, in declaration order. */
  const AllTagNames: seq<TagName> :=
    [Express, Standard, Fragile, Heavy, International, Domestic, TemperatureControlled, Gift, Return, Documents]

  /** The string each status member stands for on the wire. */
  function StatusValue(s: ShipmentStatus): string
  {
    match s
    case Placed => "placed"
    case Processing => "processing"
    case InTransit => "in_transit"
    case OutForDelivery => "out_for_delivery"
    case Delivered => "delivered"
    case Returned => "returned"
    case Cancelled => "cancelled"
  }

  /** The string each tag member stands for on the wire. */
  function TagValue(t: TagName): string
  {
    match t
    case Express => "express"
    case Standard => "standard"
    case Fragile => "fragile"
    case Heavy => "heavy"
    case International => "international"
    case Domestic => "domestic"
    case TemperatureControlled => "temperature_controlled"
    case Gift => "gift"
    case Return => "return"
    case Documents => "documents"
  }

  /** Reads a wire string back as a status; strings outside the enumeration are rejected. */
  function ParseShipmentStatus(v: string): (r: Option<ShipmentStatus>)
    ensures r.Some? ==> StatusValue(r.value) == v
    ensures r.None? ==> forall s :: StatusValue(s) != v
  {
    if v == "placed" then Some(Placed)
    else if v == "processing" then Some(Processing)
    else if v == "in_transit" then Some(InTransit)
    else if v == "out_for_delivery" then Some(OutForDelivery)
    else if v == "delivered" then Some(Delivered)
    else if v == "returned" then Some(Returned)
    else if v == "cancelled" then Some(Cancelled)
    else None
  }

  /** Reads a wire string back as a tag name; strings outside the enumeration are rejected. */
  function ParseTagName(v: string): (r: Option<TagName>)
    ensures r.Some? ==> TagValue(r.value) == v
    ensures r.None? ==> forall t :: TagValue(t) != v
  {
    if v == "express" then Some(Express)
    else if v == "standard" then Some(Standard)
    else if v == "fragile" then Some(Fragile)
    else if v == "heavy" then Some(Heavy)
    else if v == "international" then Some(International)
    else if v == "domestic" then Some(Domestic)
    else if v == "temperature_controlled" then Some(TemperatureControlled)
    else if v == "gift" then Some(Gift)
    else if v == "return" then Some(Return)
    else if v == "documents" then Some(Documents)
    else None
  }

  /** ShipmentStatus is closed: exactly seven members, with seven distinct wire strings. */
  lemma ShipmentStatusIsClosed(s: ShipmentStatus)
    ensures s in AllShipmentStatuses
    ensures |AllShipmentStatuses| == 7
    ensures forall i, j :: 0 <= i < j < 7 ==> StatusValue(AllShipmentStatuses[i]) != StatusValue(AllShipmentStatuses[j])
    ensures ParseShipmentStatus(StatusValue(s)) == Some(s)
  {
  }

  /** TagName is closed: exactly ten members, with ten distinct wire strings. */
  lemma TagNameIsClosed(t: TagName)
    ensures t in AllTagNames
    ensures |AllTagNames| == 10
    ensures forall i, j :: 0 <= i < j < 10 ==> TagValue(AllTagNames[i]) != TagValue(AllTagNames[j])
    ensures ParseTagName(TagValue(t)) == Some(t)
  {
  }

  /** Shipment weight, annotated `@min 1 @max 25`. */
  type Weight = w: int | 1 <= w <= 25 witness 1

  /** Review rating, annotated `@min 1 @max 5`. */
  type Rating = r: int | 1 <= r <= 5 witness 1

  /** One entry of a shipment's timeline. */
  datatype ShipmentEvent = ShipmentEvent(
    id: string,
    createdAt: string,
    location: int,
    status: ShipmentStatus,
    description: Option<string>,
    shipmentId: string)

  /** A tag as the frontend reads it. */
  datatype TagRead = TagRead(name: TagName, instruction: string)

  /** A shipment as the frontend reads it; the timeline is in creation order. */
  datatype Shipment = Shipment(
    content: string,
    weight: int,
    destination: int,
    id: string,
    timeline: seq<ShipmentEvent>,
    estimatedDelivery: string,
    tags: seq<TagRead>)

  /** The body of a review submission. */
  datatype BodySubmitReview = BodySubmitReview(rating: Rating, comment: Option<string>)

  /** The body of a shipment creation request. */
  datatype ShipmentCreate = ShipmentCreate(
    content: string,
    weight: Weight,
    destination: int,
    clientContactEmail: string,
    clientContactPhone: Option<int>)
}
