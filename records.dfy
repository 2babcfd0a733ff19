/**
 * The database rows the backend works on. The database models themselves are not part of
 * this model; the fields below are the ones the routers and the partner service read.
 */
module Records {
  import opened Wrappers
  import opened ApiTypes

  /** A row of the shipment table. `createdAt` is the creation timestamp the listings order by. */
  datatype ShipmentRecord = ShipmentRecord(
    id: nat,
    content: string,
    weight: Weight,
    destination: int,
    createdAt: int,
    sellerId: nat,
    deliveryPartnerId: Option<nat>)

  /** A seller with its `shipments` relationship as loaded with the row. */
  datatype Seller = Seller(id: nat, name: string, email: string, shipments: seq<ShipmentRecord>)

  /** The column both shipment listings order by. */
  function CreatedAt(s: ShipmentRecord): int
  {
    s.createdAt
  }
}
