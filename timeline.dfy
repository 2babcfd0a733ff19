/**
 * The frontend's timeline helpers (frontend/app/lib/utils.ts): the latest status of a
 * shipment is the status of its last timeline event, and the dashboard counts shipments by
 * latest status.
 */
module Timeline {
  import opened ApiTypes

  /** Every shipment of the list has at least one timeline event. */
  predicate AllHaveTimeline(shipments: seq<Shipment>)
  {
    forall i :: 0 <= i < |shipments| ==> |shipments[i].timeline| > 0
  }

  /**
   * `getLatestStatus`: the status of the last timeline event. The source indexes the last
   * element without a check, so a shipment with an empty timeline makes it throw.
   */
  function GetLatestStatus(s: Shipment): (status: ShipmentStatus)
    requires |s.timeline| > 0
    ensures status == s.timeline[|s.timeline| - 1].status
  {
    s.timeline[|s.timeline| - 1].status
  }

  /** Appending an event to a timeline makes that event's status the latest one. */
  lemma AppendedEventIsLatest(s: Shipment, e: ShipmentEvent)
    ensures GetLatestStatus(s.(timeline := s.timeline + [e])) == e.status
  {
  }

  /** The shipments whose latest status has the wire string `status`, in list order. */
  function ShipmentsWithStatus(shipments: seq<Shipment>, status: string): (r: seq<Shipment>)
    requires AllHaveTimeline(shipments)
    ensures |r| <= |shipments|
    ensures AllHaveTimeline(r)
    ensures forall i :: 0 <= i < |r| ==> r[i] in shipments && StatusValue(GetLatestStatus(r[i])) == status
    ensures forall i :: 0 <= i < |shipments| && StatusValue(GetLatestStatus(shipments[i])) == status ==> shipments[i] in r
    ensures ParseShipmentStatus(status).None? ==> r == []
    ensures |shipments| == 1 ==> r == if StatusValue(GetLatestStatus(shipments[0])) == status then shipments else []
  {
    if shipments == [] then []
    else if StatusValue(GetLatestStatus(shipments[0])) == status then
      [shipments[0]] + ShipmentsWithStatus(shipments[1..], status)
    else
      ShipmentsWithStatus(shipments[1..], status)
  }

  /**
   * The filter works shipment by shipment: filtering two lists one after the other gives the
   * filtered first list followed by the filtered second, so it keeps list order and multiplicity.
   */
  lemma {:induction false} ShipmentsWithStatusConcat(a: seq<Shipment>, b: seq<Shipment>, status: string)
    requires AllHaveTimeline(a) && AllHaveTimeline(b)
    ensures AllHaveTimeline(a + b)
    ensures ShipmentsWithStatus(a + b, status) == ShipmentsWithStatus(a, status) + ShipmentsWithStatus(b, status)
  {
    assert AllHaveTimeline(a + b) by {
      forall i | 0 <= i < |a + b| ensures |(a + b)[i].timeline| > 0 {
        if i >= |a| { assert (a + b)[i] == b[i - |a|]; }
      }
    }
    if a != [] {
      assert (a + b)[0] == a[0];
      assert (a + b)[1..] == a[1..] + b;
      ShipmentsWithStatusConcat(a[1..], b, status);
    } else {
      assert a + b == b;
    }
  }

  /**
   * `getShipmentsCountWithStatus`, exported as `getShipmentsCountForStatus`: how many
   * shipments have `status` as their latest status. At most the number of shipments, and
   * zero for an empty list or a string no status stands for.
   */
  function GetShipmentsCountWithStatus(shipments: seq<Shipment>, status: string): (n: nat)
    requires AllHaveTimeline(shipments)
    ensures n <= |shipments|
    ensures shipments == [] ==> n == 0
    ensures ParseShipmentStatus(status).None? ==> n == 0
  {
    |ShipmentsWithStatus(shipments, status)|
  }

  /** The count over a concatenation is the sum of the counts. */
  lemma {:induction false} CountOfConcatenation(a: seq<Shipment>, b: seq<Shipment>, status: string)
    requires AllHaveTimeline(a) && AllHaveTimeline(b)
    ensures AllHaveTimeline(a + b)
    ensures GetShipmentsCountWithStatus(a + b, status)
      == GetShipmentsCountWithStatus(a, status) + GetShipmentsCountWithStatus(b, status)
  {
    assert AllHaveTimeline(a + b) by {
      forall i | 0 <= i < |a + b| ensures |(a + b)[i].timeline| > 0 {
        if i >= |a| { assert (a + b)[i] == b[i - |a|]; }
      }
    }
    if a == [] {
      assert a + b == b;
    } else {
      assert (a + b)[0] == a[0];
      assert (a + b)[1..] == a[1..] + b;
      CountOfConcatenation(a[1..], b, status);
      assert |ShipmentsWithStatus(a + b, status)|
        == (if StatusValue(GetLatestStatus(a[0])) == status then 1 else 0) + |ShipmentsWithStatus(a[1..] + b, status)|;
      assert |ShipmentsWithStatus(a, status)|
        == (if StatusValue(GetLatestStatus(a[0])) == status then 1 else 0) + |ShipmentsWithStatus(a[1..], status)|;
    }
  }

  /** The count for each of the seven statuses, added up. */
  function CountsOverAllStatuses(shipments: seq<Shipment>): nat
    requires AllHaveTimeline(shipments)
  {
    GetShipmentsCountWithStatus(shipments, StatusValue(Placed))
    + GetShipmentsCountWithStatus(shipments, StatusValue(Processing))
    + GetShipmentsCountWithStatus(shipments, StatusValue(InTransit))
    + GetShipmentsCountWithStatus(shipments, StatusValue(OutForDelivery))
    + GetShipmentsCountWithStatus(shipments, StatusValue(Delivered))
    + GetShipmentsCountWithStatus(shipments, StatusValue(Returned))
    + GetShipmentsCountWithStatus(shipments, StatusValue(Cancelled))
  }

  /** Every shipment is counted under exactly one status: the seven counts add up to the list length. */
  lemma {:induction false} CountsPartitionShipments(shipments: seq<Shipment>)
    requires AllHaveTimeline(shipments)
    ensures CountsOverAllStatuses(shipments) == |shipments|
  {
    if shipments != [] {
      var rest := shipments[1..];
      CountsPartitionShipments(rest);
    }
  }
}
