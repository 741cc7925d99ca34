/**
 * The order records behind order tracking and lot traceability, and the fixed
 * set of five orders the application ships with.
 */
module TrackingData {
  import opened Wrappers

  /** The stage a tracking event reports (`TrackingEvent.type`). */
  datatype Stage = Harvest | Quality | Packed | Shipped | InTransit | Delivered

  /** The six possible values of `Order.status`. */
  datatype OrderStatus =
    | StatusPending | StatusPacked | StatusShipped | StatusInTransit | StatusDelivered | StatusCancelled

  datatype TrackingEvent = TrackingEvent(
    id: string,
    timestamp: string,
    title: string,
    description: string,
    stage: Stage,
    location: Option<string>,
    completed: bool)

  datatype TraceabilityInfo = TraceabilityInfo(
    lotId: string,
    product: string,
    farm: string,
    farmLocation: string,
    harvestDate: string,
    qualityGrade: string,
    qualityScanDate: Option<string>,
    temperature: Option<string>,
    certifications: seq<string>)

  datatype Order = Order(
    id: string,
    items: string,
    total: string,
    date: string,
    status: OrderStatus,
    consumer: string,
    farm: string,
    lotId: string,
    eta: Option<string>,
    trackingEvents: seq<TrackingEvent>,
    traceability: TraceabilityInfo)

  /** The text the source stores for each status. */
  function StatusLabel(s: OrderStatus): string
  {
    match s
    case StatusPending => "Pending"
    case StatusPacked => "Packed"
    case StatusShipped => "Shipped"
    case StatusInTransit => "In Transit"
    case StatusDelivered => "Delivered"
    case StatusCancelled => "Cancelled"
  }

  /** The status a text names; exactly the six labels name one. */
  function StatusOfLabel(text: string): (r: Option<OrderStatus>)
    ensures r.Some? ==> StatusLabel(r.value) == text
  {
    if text == "Pending" then Some(StatusPending)
    else if text == "Packed" then Some(StatusPacked)
    else if text == "Shipped" then Some(StatusShipped)
    else if text == "In Transit" then Some(StatusInTransit)
    else if text == "Delivered" then Some(StatusDelivered)
    else if text == "Cancelled" then Some(StatusCancelled)
    else None
  }

  /** Every status has its own label, and the label gives the status back. */
  lemma StatusLabelRoundTrip(s: OrderStatus)
    ensures StatusOfLabel(StatusLabel(s)) == Some(s)
  {
  }

  /** The text the source stores for each stage. */
  function StageName(t: Stage): string
  {
    match t
    case Harvest => "harvest"
    case Quality => "quality"
    case Packed => "packed"
    case Shipped => "shipped"
    case InTransit => "in_transit"
    case Delivered => "delivered"
  }

  /** The journey of a full six-event order, stage by stage. */
  const CanonicalOrder: seq<Stage> := [Harvest, Quality, Packed, Shipped, InTransit, Delivered]

  /** No two orders share a lot id. */
  predicate DistinctLotIds(orders: seq<Order>)
  {
    forall i, j :: 0 <= i < j < |orders| ==> orders[i].lotId != orders[j].lotId
  }

  /** Each order's traceability record carries the order's own lot id. */
  predicate TraceIdsMatch(orders: seq<Order>)
  {
    forall i :: 0 <= i < |orders| ==> orders[i].traceability.lotId == orders[i].lotId
  }

  /** No incomplete event comes before a completed one. */
  predicate CompletedPrefix(events: seq<TrackingEvent>)
  {
    forall i, j :: 0 <= i < j < |events| && events[j].completed ==> events[i].completed
  }

  /** A six-event order lists the stages in their canonical order. */
  predicate CanonicalStages(events: seq<TrackingEvent>)
  {
    |events| == 6 ==> forall i :: 0 <= i < 6 ==> events[i].stage == CanonicalOrder[i]
  }

  /** The index of the last completed event, if any event is completed. */
  function LastCompleted(events: seq<TrackingEvent>): (r: Option<nat>)
    ensures r.None? <==> forall k :: 0 <= k < |events| ==> !events[k].completed
    ensures r.Some? ==> r.value < |events| && events[r.value].completed
    ensures r.Some? ==> forall m :: r.value < m < |events| ==> !events[m].completed
  {
    if events == [] then None
    else if events[|events| - 1].completed then Some(|events| - 1)
    else LastCompleted(events[..|events| - 1])
  }

  /** A completed event with nothing completed after it is the last completed one. */
  lemma LastCompletedAt(events: seq<TrackingEvent>, k: nat)
    requires k < |events| && events[k].completed
    requires forall m :: k < m < |events| ==> !events[m].completed
    ensures LastCompleted(events) == Some(k)
  {
  }

  /** The stage of the last completed event. */
  function LastCompletedStage(events: seq<TrackingEvent>): Option<Stage>
  {
    match LastCompleted(events)
    case None => None
    case Some(k) => Some(events[k].stage)
  }

  /**
   * The status names the last completed stage for the statuses that name a
   * stage; pending and cancelled are not constrained.
   */
  predicate StatusAgrees(o: Order)
  {
    match o.status
    case StatusPacked => LastCompletedStage(o.trackingEvents) == Some(Packed)
    case StatusShipped => LastCompletedStage(o.trackingEvents) == Some(Shipped)
    case StatusInTransit => LastCompletedStage(o.trackingEvents) == Some(InTransit)
    case StatusDelivered => LastCompletedStage(o.trackingEvents) == Some(Delivered)
    case _ => true
  }

  /** All the dataset invariants together. */
  predicate WellFormed(orders: seq<Order>)
  {
    && DistinctLotIds(orders)
    && TraceIdsMatch(orders)
    && (forall i :: 0 <= i < |orders| ==> CompletedPrefix(orders[i].trackingEvents))
    && (forall i :: 0 <= i < |orders| ==> CanonicalStages(orders[i].trackingEvents))
    && (forall i :: 0 <= i < |orders| ==> StatusAgrees(orders[i]))
  }

  /**
   * A delivered six-event order whose status agrees with its events and whose
   * completed events form a prefix has every event completed.
   */
  lemma DeliveredAllCompleted(o: Order)
    requires o.status == StatusDelivered && |o.trackingEvents| == 6
    requires StatusAgrees(o) && CanonicalStages(o.trackingEvents) && CompletedPrefix(o.trackingEvents)
    ensures forall i :: 0 <= i < |o.trackingEvents| ==> o.trackingEvents[i].completed
  {
    var e := o.trackingEvents;
    var k := LastCompleted(e).value;
    assert e[k].stage == CanonicalOrder[k];
    assert k == 5;
  }

  const Tomatoes: Order := Order(
    "ORD-1245",
    "Organic Tomatoes (3kg), Spinach (2 bunches)",
    "₹195",
    "Feb 6, 2026",
    StatusInTransit,
    "Priya Sharma",
    "Green Valley Farm",
    "LOT-GVF-2026-0206A",
    Some("Today by 2 PM"),
    [ TrackingEvent("1", "Feb 5, 6:00 AM", "Harvested", "Organic tomatoes and spinach picked fresh from field B3", Harvest, Some("Green Valley Farm, Nashik"), true),
      TrackingEvent("2", "Feb 5, 8:30 AM", "Quality Inspected", "Grade A — Passed pesticide residue test, freshness verified", Quality, Some("Farm QC Lab"), true),
      TrackingEvent("3", "Feb 5, 10:00 AM", "Packed & Labeled", "Packed in eco-friendly crates with QR traceability tag", Packed, Some("Green Valley Packhouse"), true),
      TrackingEvent("4", "Feb 5, 2:00 PM", "Shipped", "Dispatched via cold-chain logistics — Vehicle MH-12-AB-1234", Shipped, Some("Nashik Distribution Hub"), true),
      TrackingEvent("5", "Feb 6, 10:00 AM", "In Transit", "En route to delivery address — ETA 2:00 PM", InTransit, Some("Mumbai, Maharashtra"), true),
      TrackingEvent("6", "", "Delivered", "Awaiting delivery confirmation", Delivered, None, false) ],
    TraceabilityInfo(
      "LOT-GVF-2026-0206A",
      "Organic Tomatoes & Spinach",
      "Green Valley Farm",
      "Nashik, Maharashtra",
      "Feb 5, 2026",
      "Grade A",
      Some("Feb 5, 2026"),
      Some("4°C (Cold Chain)"),
      ["Organic India", "FSSAI", "No Pesticides"]))

  const Rice: Order := Order(
    "ORD-1242",
    "Basmati Rice (5kg)",
    "₹425",
    "Feb 4, 2026",
    StatusShipped,
    "Amit Kumar",
    "Golden Fields",
    "LOT-GF-2026-0203B",
    Some("Feb 7 by 5 PM"),
    [ TrackingEvent("1", "Feb 3, 7:00 AM", "Harvested", "Basmati paddy harvested from plot 12", Harvest, Some("Golden Fields, Dehradun"), true),
      TrackingEvent("2", "Feb 3, 12:00 PM", "Quality Inspected", "Grade A+ — Moisture content 12%, grain length verified", Quality, Some("Farm Mill Lab"), true),
      TrackingEvent("3", "Feb 3, 4:00 PM", "Packed & Labeled", "Vacuum-sealed 5kg bags with QR code", Packed, Some("Golden Fields Warehouse"), true),
      TrackingEvent("4", "Feb 4, 9:00 AM", "Shipped", "Dispatched via standard logistics", Shipped, Some("Dehradun Logistics Hub"), true),
      TrackingEvent("5", "", "In Transit", "Awaiting transit update", InTransit, None, false),
      TrackingEvent("6", "", "Delivered", "Awaiting delivery", Delivered, None, false) ],
    TraceabilityInfo(
      "LOT-GF-2026-0203B",
      "Basmati Rice",
      "Golden Fields",
      "Dehradun, Uttarakhand",
      "Feb 3, 2026",
      "Grade A+",
      Some("Feb 3, 2026"),
      None,
      ["FSSAI", "GI Tagged"]))

  const Mangoes: Order := Order(
    "ORD-1240",
    "Alphonso Mangoes (1 dozen)",
    "₹250",
    "Feb 2, 2026",
    StatusDelivered,
    "Neha Reddy",
    "Mango Paradise",
    "LOT-MP-2026-0201C",
    None,
    [ TrackingEvent("1", "Feb 1, 6:30 AM", "Harvested", "Hand-picked Alphonso mangoes from orchard A1", Harvest, Some("Mango Paradise, Ratnagiri"), true),
      TrackingEvent("2", "Feb 1, 9:00 AM", "Quality Inspected", "Grade A — Brix level 18°, no bruising detected", Quality, Some("Farm QC Station"), true),
      TrackingEvent("3", "Feb 1, 11:00 AM", "Packed & Labeled", "Packed in mango-specific cushioned boxes with QR tag", Packed, Some("Ratnagiri Packhouse"), true),
      TrackingEvent("4", "Feb 1, 3:00 PM", "Shipped", "Cold-chain dispatch — Vehicle MH-08-CD-5678", Shipped, Some("Ratnagiri Hub"), true),
      TrackingEvent("5", "Feb 2, 8:00 AM", "In Transit", "Arrived at local distribution center", InTransit, Some("Hyderabad DC"), true),
      TrackingEvent("6", "Feb 2, 1:30 PM", "Delivered", "Successfully delivered — Signed by Neha Reddy", Delivered, Some("Hyderabad"), true) ],
    TraceabilityInfo(
      "LOT-MP-2026-0201C",
      "Alphonso Mangoes",
      "Mango Paradise",
      "Ratnagiri, Maharashtra",
      "Feb 1, 2026",
      "Grade A",
      Some("Feb 1, 2026"),
      Some("8°C (Cold Chain)"),
      ["GI Tagged", "FSSAI", "Organic India"]))

  const Potatoes: Order := Order(
    "ORD-1238",
    "Potatoes (10kg)",
    "₹250",
    "Feb 1, 2026",
    StatusDelivered,
    "Vikram Singh",
    "Sunrise Farms",
    "LOT-SF-2026-0131D",
    None,
    [ TrackingEvent("1", "Jan 31, 7:00 AM", "Harvested", "Fresh potatoes from field C2", Harvest, Some("Sunrise Farms, Agra"), true),
      TrackingEvent("2", "Jan 31, 10:00 AM", "Quality Inspected", "Grade B+ — Size and weight verified", Quality, None, true),
      TrackingEvent("3", "Jan 31, 1:00 PM", "Packed & Labeled", "Packed in 10kg jute bags", Packed, None, true),
      TrackingEvent("4", "Jan 31, 4:00 PM", "Shipped", "Dispatched via road transport", Shipped, None, true),
      TrackingEvent("5", "Feb 1, 9:00 AM", "In Transit", "Arrived at local hub", InTransit, None, true),
      TrackingEvent("6", "Feb 1, 3:00 PM", "Delivered", "Successfully delivered", Delivered, None, true) ],
    TraceabilityInfo(
      "LOT-SF-2026-0131D",
      "Potatoes",
      "Sunrise Farms",
      "Agra, Uttar Pradesh",
      "Jan 31, 2026",
      "Grade B+",
      None,
      None,
      ["FSSAI"]))

  const Chilies: Order := Order(
    "ORD-1235",
    "Green Chilies (2kg)",
    "₹120",
    "Jan 30, 2026",
    StatusCancelled,
    "Lata Devi",
    "Spice Valley",
    "LOT-SV-2026-0130E",
    None,
    [ TrackingEvent("1", "Jan 30, 7:00 AM", "Harvested", "Green chilies picked from greenhouse G1", Harvest, Some("Spice Valley, Guntur"), true),
      TrackingEvent("2", "Jan 30, 10:00 AM", "Order Cancelled", "Cancelled by customer before packing", Quality, None, false) ],
    TraceabilityInfo(
      "LOT-SV-2026-0130E",
      "Green Chilies",
      "Spice Valley",
      "Guntur, Andhra Pradesh",
      "Jan 30, 2026",
      "N/A",
      None,
      None,
      ["FSSAI"]))

  /** `mockOrders`, in the source's order. */
  const MockOrders: seq<Order> := [Tomatoes, Rice, Mangoes, Potatoes, Chilies]

  /** The invariants each order keeps on its own. */
  predicate OrderInvariants(o: Order)
  {
    && o.traceability.lotId == o.lotId
    && CompletedPrefix(o.trackingEvents)
    && CanonicalStages(o.trackingEvents)
    && StatusAgrees(o)
  }

  /** Five orders with distinct lot ids, each keeping its own invariants, form a well-formed dataset. */
  lemma WellFormedOfFive(a: Order, b: Order, c: Order, d: Order, e: Order)
    requires OrderInvariants(a) && OrderInvariants(b) && OrderInvariants(c)
    requires OrderInvariants(d) && OrderInvariants(e)
    requires a.lotId != b.lotId && a.lotId != c.lotId && a.lotId != d.lotId && a.lotId != e.lotId
    requires b.lotId != c.lotId && b.lotId != d.lotId && b.lotId != e.lotId
    requires c.lotId != d.lotId && c.lotId != e.lotId && d.lotId != e.lotId
    ensures WellFormed([a, b, c, d, e])
  {
    var orders := [a, b, c, d, e];
    assert forall i :: 0 <= i < 5 ==> OrderInvariants(orders[i]);
  }

  lemma TomatoesInvariants()
    ensures OrderInvariants(Tomatoes)
    ensures LastCompletedStage(Tomatoes.trackingEvents) == Some(InTransit)
  {
    LastCompletedAt(Tomatoes.trackingEvents, 4);
  }

  lemma RiceInvariants()
    ensures OrderInvariants(Rice)
    ensures LastCompletedStage(Rice.trackingEvents) == Some(Shipped)
  {
    LastCompletedAt(Rice.trackingEvents, 3);
  }

  lemma MangoesInvariants()
    ensures OrderInvariants(Mangoes)
    ensures LastCompletedStage(Mangoes.trackingEvents) == Some(Delivered)
  {
    LastCompletedAt(Mangoes.trackingEvents, 5);
  }

  lemma PotatoesInvariants()
    ensures OrderInvariants(Potatoes)
    ensures LastCompletedStage(Potatoes.trackingEvents) == Some(Delivered)
  {
    LastCompletedAt(Potatoes.trackingEvents, 5);
  }

  lemma ChiliesInvariants()
    ensures OrderInvariants(Chilies)
    ensures LastCompletedStage(Chilies.trackingEvents) == Some(Harvest)
  {
    LastCompletedAt(Chilies.trackingEvents, 0);
  }

  /** The sample lot ids differ pairwise. */
  lemma MockLotIdsDistinct()
    ensures Tomatoes.lotId != Rice.lotId && Tomatoes.lotId != Mangoes.lotId
    ensures Tomatoes.lotId != Potatoes.lotId && Tomatoes.lotId != Chilies.lotId
    ensures Rice.lotId != Mangoes.lotId && Rice.lotId != Potatoes.lotId && Rice.lotId != Chilies.lotId
    ensures Mangoes.lotId != Potatoes.lotId && Mangoes.lotId != Chilies.lotId
    ensures Potatoes.lotId != Chilies.lotId
  {
    assert Tomatoes.lotId[4] == 'G' && Rice.lotId[4] == 'G' && Mangoes.lotId[4] == 'M';
    assert Potatoes.lotId[4] == 'S' && Chilies.lotId[4] == 'S';
    assert Tomatoes.lotId[5] == 'V' && Rice.lotId[5] == 'F';
    assert Potatoes.lotId[5] == 'F' && Chilies.lotId[5] == 'V';
  }

  /** The five sample orders satisfy every dataset invariant. */
  lemma MockOrdersWellFormed()
    ensures WellFormed(MockOrders)
  {
    TomatoesInvariants();
    RiceInvariants();
    MangoesInvariants();
    PotatoesInvariants();
    ChiliesInvariants();
    MockLotIdsDistinct();
    WellFormedOfFive(Tomatoes, Rice, Mangoes, Potatoes, Chilies);
  }

  /** The delivered sample orders have every event completed. */
  lemma DeliveredSamplesComplete()
    ensures forall k :: 0 <= k < |Mangoes.trackingEvents| ==> Mangoes.trackingEvents[k].completed
    ensures forall k :: 0 <= k < |Potatoes.trackingEvents| ==> Potatoes.trackingEvents[k].completed
  {
    MangoesInvariants();
    PotatoesInvariants();
    DeliveredAllCompleted(Mangoes);
    DeliveredAllCompleted(Potatoes);
  }
}
