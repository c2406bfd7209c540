/**
 * The order confirmation page: it finds the paid order whose identifier the
 * payment page handed over, shows its status, and counts the estimated
 * preparation time down once a minute.
 */
module Confirmation {
  import opened Wrappers
  import opened Records
  import opened Storage

  // ---------------------------------------------------------------------------
  // Finding the order

  predicate HasOrder(orders: seq<PaidOrder>, id: string) {
    exists i :: 0 <= i < |orders| && orders[i].draft.orderId == id
  }

  /** `orders.find(o => o.orderId === orderId)`: the first order with the identifier. */
  function FindOrder(orders: seq<PaidOrder>, id: string): (r: Option<PaidOrder>)
    ensures r.None? <==> !HasOrder(orders, id)
    ensures r.Some? ==> r.value.draft.orderId == id
    ensures r.Some? ==> (exists i :: 0 <= i < |orders| && orders[i] == r.value &&
                           forall j :: 0 <= j < i ==> orders[j].draft.orderId != id)
  {
    if orders == [] then None
    else if orders[0].draft.orderId == id then
      assert orders[0] == orders[0];  // names the witness i = 0 of the first-match clause
      Some(orders[0])
    else
      var r := FindOrder(orders[1..], id);
      assert HasOrder(orders, id) ==> HasOrder(orders[1..], id) by {
        if HasOrder(orders, id) {
          var i :| 0 <= i < |orders| && orders[i].draft.orderId == id;
          assert orders[1..][i - 1] == orders[i];
        }
      }
      assert HasOrder(orders[1..], id) ==> HasOrder(orders, id) by {
        if HasOrder(orders[1..], id) {
          var i :| 0 <= i < |orders[1..]| && orders[1..][i].draft.orderId == id;
          assert orders[i + 1] == orders[1..][i];
        }
      }
      if r.Some? then
        var i :| 0 <= i < |orders[1..]| && orders[1..][i] == r.value &&
          forall j :: 0 <= j < i ==> orders[1..][j].draft.orderId != id;
        assert orders[i + 1] == r.value;
        assert forall j :: 1 <= j < i + 1 ==> orders[j] == orders[1..][j - 1];
        r
      else r
  }

  /** Appending an order: an earlier match still wins, and otherwise the new order is found by its own identifier. */
  lemma {:induction false} FindOrderAppend(orders: seq<PaidOrder>, o: PaidOrder, id: string)
    ensures FindOrder(orders + [o], id) ==
      if FindOrder(orders, id).Some? then FindOrder(orders, id)
      else if o.draft.orderId == id then Some(o)
      else None
  {
    if orders != [] {
      assert (orders + [o])[0] == orders[0];
      assert (orders + [o])[1..] == orders[1..] + [o];
      FindOrderAppend(orders[1..], o, id);
    }
  }

  /** A freshly appended order whose identifier is new is exactly what a lookup of that identifier returns. */
  lemma FindFreshOrder(orders: seq<PaidOrder>, o: PaidOrder)
    requires !HasOrder(orders, o.draft.orderId)
    ensures FindOrder(orders + [o], o.draft.orderId) == Some(o)
  {
    FindOrderAppend(orders, o, o.draft.orderId);
  }

  /** What the mount effect concludes. */
  datatype Lookup =
    | NoOrderId           // nothing (or an empty identifier) in the navigation state: redirect home
    | NotFound            // no stored order has the identifier: redirect home
    | Found(order: PaidOrder)

  /** The orderId guard, then the find over the stored orders (absent list: empty). */
  function LookupOrder(m: Entries, navOrderId: Option<string>): (r: Lookup)
    requires WellTyped(m)
    ensures r.NoOrderId? <==> navOrderId.None? || navOrderId.value == ""
    ensures r.NotFound? <==>
      (navOrderId.Some? && navOrderId.value != "" && !HasOrder(StoredOrders(m), navOrderId.value))
    ensures r.Found? ==>
      (navOrderId.Some? && r.order.draft.orderId == navOrderId.value && r.order in StoredOrders(m))
  {
    if navOrderId.None? || navOrderId.value == "" then NoOrderId
    else
      match FindOrder(StoredOrders(m), navOrderId.value)
      case None => NotFound
      case Some(o) => Found(o)
  }

  predicate RedirectsHome(r: Lookup) {
    !r.Found?
  }

  // ---------------------------------------------------------------------------
  // Status display

  datatype Glyph = CheckCircle | ChefHat | Clock

  /** An icon and the text colour it is drawn in. */
  datatype Icon = Icon(glyph: Glyph, tone: string)

  /** `getStatusIcon` */
  function StatusIcon(status: string): (r: Icon)
    ensures r.glyph == Clock <==> status != "paid" && status != "preparing" && status != "ready"
  {
    match status
    case "paid" => Icon(CheckCircle, "text-green-600")
    case "preparing" => Icon(ChefHat, "text-orange-600")
    case "ready" => Icon(CheckCircle, "text-blue-600")
    case _ => Icon(Clock, "text-gray-600")
  }

  /** `getStatusText` */
  function StatusText(status: string): (r: string)
    ensures r == "Processing" <==> status != "paid" && status != "preparing" && status != "ready"
  {
    match status
    case "paid" => "Order Confirmed"
    case "preparing" => "Being Prepared"
    case "ready" => "Ready for Pickup"
    case _ => "Processing"
  }

  /** `getStatusColor` */
  function StatusColor(status: string): (r: string)
    ensures r == "bg-gray-100 text-gray-800" <==> status != "paid" && status != "preparing" && status != "ready"
  {
    match status
    case "paid" => "bg-green-100 text-green-800"
    case "preparing" => "bg-orange-100 text-orange-800"
    case "ready" => "bg-blue-100 text-blue-800"
    case _ => "bg-gray-100 text-gray-800"
  }

  /** The four cases the three mappings share: the three known statuses and everything else. */
  function StatusCase(status: string): (k: nat)
    ensures k < 4
  {
    if status == "paid" then 0
    else if status == "preparing" then 1
    else if status == "ready" then 2
    else 3
  }

  /** Two statuses get the same icon, the same label and the same colour exactly when they fall in the same case. */
  lemma SameCaseSplit(s: string, t: string)
    ensures StatusIcon(s) == StatusIcon(t) <==> StatusCase(s) == StatusCase(t)
    ensures StatusText(s) == StatusText(t) <==> StatusCase(s) == StatusCase(t)
    ensures StatusColor(s) == StatusColor(t) <==> StatusCase(s) == StatusCase(t)
  {
  }

  // ---------------------------------------------------------------------------
  // The countdown

  const InitialEstimate: int := 25

  /** The interval's updater `prev > 0 ? prev - 1 : 0`. */
  function CountdownStep(prev: int): (next: int)
    ensures next >= 0
    ensures prev >= 0 ==> next <= prev
    ensures next == 0 <==> prev <= 1
  {
    if prev > 0 then prev - 1 else 0
  }

  /** The estimate after `k` ticks. */
  function Countdown(prev: int, k: nat): int
    decreases k
  {
    if k == 0 then prev else Countdown(CountdownStep(prev), k - 1)
  }

  /** From a non-negative start, `k` ticks take off `k` minutes, but never below zero. */
  lemma {:induction false} CountdownFormula(p: nat, k: nat)
    ensures Countdown(p, k) == if k <= p then p - k else 0
  {
    if k > 0 {
      CountdownFormula(CountdownStep(p), k - 1);
    }
  }

  /** From 25 the estimate never increases, is 0 after 25 ticks and stays there. */
  lemma CountdownFromEstimate(k: nat)
    ensures 0 <= Countdown(InitialEstimate, k + 1) <= Countdown(InitialEstimate, k)
    ensures k >= 25 ==> Countdown(InitialEstimate, k) == 0
    ensures k < 25 ==> Countdown(InitialEstimate, k) > 0
  {
    CountdownFormula(InitialEstimate, k);
    CountdownFormula(InitialEstimate, k + 1);
  }

  /** The subtotal line shows the stored amount; it is not recomputed from the items. */
  function DisplayedSubtotal(o: PaidOrder): int {
    o.draft.totalAmount
  }

  // ---------------------------------------------------------------------------
  // The page's state

  class ConfirmationView {
    var order: Option<PaidOrder>
    var estimatedTime: int

    ghost predicate Valid()
      reads this
    {
      0 <= estimatedTime <= InitialEstimate
    }

    constructor ()
      ensures order == None && estimatedTime == InitialEstimate && Valid()
    {
      order := None;
      estimatedTime := InitialEstimate;
    }

    /** The mount effect: show the order found, or report that the page redirects home. */
    method Load(store: LocalStorage, navOrderId: Option<string>) returns (redirectHome: bool)
      requires store.Valid()
      modifies this
      ensures redirectHome <==> RedirectsHome(LookupOrder(store.entries, navOrderId))
      ensures LookupOrder(store.entries, navOrderId).Found? ==>
        order == Some(LookupOrder(store.entries, navOrderId).order)
      ensures redirectHome ==> order == old(order)
      ensures estimatedTime == old(estimatedTime)
    {
      if navOrderId.None? || navOrderId.value == "" {
        return true;
      }
      var saved := store.GetItem(OrdersKey);
      var orders := if saved.Some? then saved.value.orders else [];
      var found := FindOrder(orders, navOrderId.value);
      if found.Some? {
        order := found;
        redirectHome := false;
      } else {
        redirectHome := true;
      }
    }

    /** One firing of the minute timer. */
    method Tick()
      requires Valid()
      modifies this
      ensures Valid()
      ensures estimatedTime == CountdownStep(old(estimatedTime))
      ensures order == old(order)
    {
      estimatedTime := CountdownStep(estimatedTime);
    }
  }
}
