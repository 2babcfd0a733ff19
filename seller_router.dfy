/**
 * The seller route with logic (backend/app/api/routers/seller.py): the paged listing of the
 * seller's shipments, the same query as the partner's with the seller filter.
 */
module SellerRouter {
  import opened Wrappers
  import opened Records
  import opened Pagination

  /** The listing filter: rows whose `seller_id` is the seller's id. */
  function SoldBy(sellerId: nat): ShipmentRecord -> bool
  {
    (s: ShipmentRecord) => s.sellerId == sellerId
  }

  /**
   * `get_shipments`: the requested page of the seller's shipments, the length of the seller's
   * `shipments` relationship as the total, the page echoed, and the page count.
   */
  function GetShipments(seller: Seller, table: seq<ShipmentRecord>, params: PaginationParams)
    : (r: Result<ShipmentPage<ShipmentRecord>, ListingError>)
    ensures r.Ok? <==> params.page >= 1 && params.pageSize >= 1
    ensures params.pageSize == 0 ==> r == Err(ZeroDivision)
    ensures r.Ok? ==> r.value.totalShipments == |seller.shipments| && r.value.page == params.page
    ensures r.Ok? ==> r.value.totalPages * params.pageSize >= |seller.shipments|
    ensures r.Ok? ==> r.value.totalPages == 0 || (r.value.totalPages - 1) * params.pageSize < |seller.shipments|
    ensures r.Ok? ==> |r.value.shipments| <= params.pageSize
    ensures r.Ok? ==> forall i :: 0 <= i < |r.value.shipments| ==>
      r.value.shipments[i] in table && r.value.shipments[i].sellerId == seller.id
    ensures r.Ok? ==> Sorted(r.value.shipments, CreatedAt, params.order)
  {
    if params.page >= 1 && params.pageSize >= 1 then
      ListedPage(table, SoldBy(seller.id), CreatedAt, |seller.shipments|, params);
      ListShipments(table, SoldBy(seller.id), CreatedAt, |seller.shipments|, params)
    else
      ListShipments(table, SoldBy(seller.id), CreatedAt, |seller.shipments|, params)
  }

  /**
   * When the seller's `shipments` relationship holds as many rows as the filter keeps and no
   * two of the seller's shipments were created at the same time, the pages a client fetches
   * one query at a time, pages 1 to `total_pages`, give every one of the seller's shipments
   * exactly once, in the requested order, whichever valid order each query returned.
   */
  lemma SellerPagesCoverListing(seller: Seller, table: seq<ShipmentRecord>, pageSize: nat, order: Order,
                                answers: nat -> seq<ShipmentRecord>)
    requires pageSize >= 1
    requires CreationTimesIdentify(Owned(table, SoldBy(seller.id)), CreatedAt)
    requires |seller.shipments| == |Owned(table, SoldBy(seller.id))|
    requires ValidAnswers(answers, table, SoldBy(seller.id), CreatedAt, order, CeilDiv(|seller.shipments|, pageSize))
    ensures QueriedPages(answers, pageSize, CeilDiv(|seller.shipments|, pageSize))
      == OrderedListing(table, SoldBy(seller.id), CreatedAt, order)
  {
    QueriedPagesCoverListing(answers, table, SoldBy(seller.id), CreatedAt, order, pageSize);
  }
}
