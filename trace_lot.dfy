/**
 * The public lot-traceability page: it looks up the order carrying the lot id
 * of the route and shows its traceability record and journey, or a not-found
 * view naming the requested id.
 */
module TraceLot {
  import opened Wrappers
  import opened TrackingData

  /** The position of the first order carrying `lotId`. */
  function FindIndex(orders: seq<Order>, lotId: string): (r: Option<nat>)
    ensures r.None? <==> forall k :: 0 <= k < |orders| ==> orders[k].lotId != lotId
    ensures r.Some? ==> r.value < |orders| && orders[r.value].lotId == lotId
    ensures r.Some? ==> forall k :: 0 <= k < r.value ==> orders[k].lotId != lotId
  {
    if orders == [] then None
    else if orders[0].lotId == lotId then Some(0)
    else match FindIndex(orders[1..], lotId)
      case None => None
      case Some(k) => Some(k + 1)
  }

  /**
   * `mockOrders.find((o) => o.lotId === lotId)`; the route parameter is `None`
   * when absent, and then no order matches.
   */
  function Find(orders: seq<Order>, lotId: Option<string>): (r: Option<Order>)
    ensures r.None? <==> lotId.None? || forall k :: 0 <= k < |orders| ==> orders[k].lotId != lotId.value
    ensures r.Some? ==> exists k :: 0 <= k < |orders| && orders[k] == r.value && r.value.lotId == lotId.value
                                    && forall m :: 0 <= m < k ==> orders[m].lotId != lotId.value
  {
    match lotId
    case None => None
    case Some(id) =>
      match FindIndex(orders, id)
      case None => None
      case Some(k) => Some(orders[k])
  }

  /** What the page shows. */
  datatype TraceView =
    | LotNotFound(requested: Option<string>)
    | LotFound(header: Option<string>, traceability: TraceabilityInfo, events: seq<TrackingEvent>)

  /** The page, as a function of the order list and the route parameter. */
  function RenderTraceLot(orders: seq<Order>, lotId: Option<string>): (v: TraceView)
    ensures v.LotNotFound? <==> Find(orders, lotId).None?
    ensures v.LotNotFound? ==> v.requested == lotId
    ensures v.LotFound? ==> v.header == lotId
    ensures v.LotFound? ==> v.traceability == Find(orders, lotId).value.traceability
    ensures v.LotFound? ==> v.events == Find(orders, lotId).value.trackingEvents
  {
    match Find(orders, lotId)
    case None => LotNotFound(lotId)
    case Some(order) => LotFound(lotId, order.traceability, order.trackingEvents)
  }

  /** With distinct lot ids, looking up an order's own lot id gives that order. */
  lemma FindOwnLot(orders: seq<Order>, k: nat)
    requires DistinctLotIds(orders) && k < |orders|
    ensures Find(orders, Some(orders[k].lotId)) == Some(orders[k])
  {
  }

  /** In a well-formed dataset a found lot shows a record carrying the requested id. */
  lemma FoundRecordMatches(orders: seq<Order>, lotId: Option<string>)
    requires TraceIdsMatch(orders)
    requires RenderTraceLot(orders, lotId).LotFound?
    ensures RenderTraceLot(orders, lotId).traceability.lotId == lotId.value
  {
    var k := FindIndex(orders, lotId.value).value;
    assert orders[k].traceability.lotId == orders[k].lotId;
  }

  /** The first sample lot is found, and its record says Grade A. */
  lemma FirstSampleLotIsGradeA()
    ensures var v := RenderTraceLot(MockOrders, Some("LOT-GVF-2026-0206A"));
            v.LotFound? && v.traceability.qualityGrade == "Grade A"
  {
    MockOrdersWellFormed();
    assert MockOrders[0].lotId == "LOT-GVF-2026-0206A";
    FindOwnLot(MockOrders, 0);
  }

  /** An unknown lot id renders the not-found view naming that id. */
  lemma UnknownLotNotFound()
    ensures RenderTraceLot(MockOrders, Some("LOT-DOES-NOT-EXIST")) == LotNotFound(Some("LOT-DOES-NOT-EXIST"))
  {
    var id := "LOT-DOES-NOT-EXIST";
    assert id[4] == 'D';
    assert forall k :: 0 <= k < |MockOrders| ==> MockOrders[k].lotId[4] != 'D';
  }
}
