/**
 * The payment page: it shows the pending order, lets the customer pick a
 * payment method, and on confirmation settles the order into the `orders`
 * list, clears the cart and the pending order, and hands the order's
 * identifier to the confirmation page.
 */
module Payment {
  import opened Wrappers
  import opened Records
  import opened Storage

  /** The three choices of the radio group. */
  const PaymentMethods: set<string> := {"qr", "card", "mobile"}

  const DefaultPaymentMethod: string := "qr"

  const PaidStatus: string := "paid"

  /**
   * The storage after settlement: the order, stamped paid, appended to the
   * stored list (an absent list counts as empty), then `cart` and
   * `currentOrder` removed. No other key is touched.
   */
  function Settle(m: Entries, draft: Order, paymentMethod: string, paymentTime: string): (r: Entries)
    requires WellTyped(m)
    ensures WellTyped(r)
    ensures StoredOrders(r) == StoredOrders(m) + [PaidOrder(draft, paymentMethod, PaidStatus, paymentTime)]
    ensures OrdersKey in r && CartKey !in r && CurrentOrderKey !in r
    ensures StoredDraft(r) == None
    ensures forall k :: k != OrdersKey && k != CartKey && k != CurrentOrderKey ==>
      (k in r <==> k in m) && (k in r ==> r[k] == m[k])
  {
    var orders := StoredOrders(m) + [PaidOrder(draft, paymentMethod, PaidStatus, paymentTime)];
    m[OrdersKey := OrdersEntry(orders)] - {CartKey} - {CurrentOrderKey}
  }

  /** Settling keeps every earlier order where it was and adds exactly one after them. */
  lemma SettleKeepsHistory(m: Entries, draft: Order, paymentMethod: string, paymentTime: string)
    requires WellTyped(m)
    ensures |StoredOrders(Settle(m, draft, paymentMethod, paymentTime))| == |StoredOrders(m)| + 1
    ensures StoredOrders(Settle(m, draft, paymentMethod, paymentTime))[..|StoredOrders(m)|] == StoredOrders(m)
    ensures StoredOrders(Settle(m, draft, paymentMethod, paymentTime))[|StoredOrders(m)|].draft == draft
  {
    var before := StoredOrders(m);
    var after := StoredOrders(Settle(m, draft, paymentMethod, paymentTime));
    assert after == before + [PaidOrder(draft, paymentMethod, PaidStatus, paymentTime)];
    assert after[..|before|] == before;
  }

  /** The state of the payment page. */
  class PaymentView {
    var orderData: Option<Order>
    var paymentMethod: string
    var isProcessing: bool

    /** A known method is selected, and processing only starts for a loaded order. */
    ghost predicate Valid()
      reads this
    {
      paymentMethod in PaymentMethods && (isProcessing ==> orderData.Some?)
    }

    constructor ()
      ensures orderData == None && paymentMethod == DefaultPaymentMethod && !isProcessing
      ensures Valid()
    {
      orderData := None;
      paymentMethod := DefaultPaymentMethod;
      isProcessing := false;
    }

    /** The mount effect: load the pending order, or report that the page redirects home. */
    method Load(store: LocalStorage) returns (redirectHome: bool)
      requires Valid() && store.Valid()
      modifies this
      ensures Valid()
      ensures redirectHome <==> CurrentOrderKey !in store.entries
      ensures !redirectHome ==> orderData == StoredDraft(store.entries)
      ensures redirectHome ==> orderData == old(orderData)
      ensures paymentMethod == old(paymentMethod) && isProcessing == old(isProcessing)
    {
      var savedOrder := store.GetItem(CurrentOrderKey);
      if savedOrder.Some? {
        orderData := Some(savedOrder.value.draft);
        redirectHome := false;
      } else {
        redirectHome := true;
      }
    }

    /** The radio group: one of the three offered methods. */
    method SelectMethod(choice: string)
      requires Valid() && choice in PaymentMethods
      modifies this
      ensures Valid()
      ensures paymentMethod == choice
      ensures orderData == old(orderData) && isProcessing == old(isProcessing)
    {
      paymentMethod := choice;
    }

    /**
     * `handlePayment` together with the body of its timer, as one step: with
     * no order loaded nothing happens; otherwise processing starts for good,
     * the order is settled and its identifier is handed to the confirmation
     * page.
     */
    method HandlePayment(store: LocalStorage, paymentTime: string) returns (handoff: Option<string>)
      requires Valid() && store.Valid()
      modifies this, store
      ensures Valid() && store.Valid()
      ensures orderData == old(orderData) && paymentMethod == old(paymentMethod)
      ensures old(isProcessing) ==> isProcessing
      ensures orderData.None? ==>
        handoff == None && isProcessing == old(isProcessing) && store.entries == old(store.entries)
      ensures orderData.Some? ==>
        && isProcessing
        && handoff == Some(orderData.value.orderId)
        && store.entries == Settle(old(store.entries), orderData.value, paymentMethod, paymentTime)
    {
      if orderData.None? {
        return None;
      }
      isProcessing := true;
      var saved := store.GetItem(OrdersKey);
      var orders := if saved.Some? then saved.value.orders else [];
      var newOrder := PaidOrder(orderData.value, paymentMethod, PaidStatus, paymentTime);
      orders := orders + [newOrder];
      store.SetItem(OrdersKey, OrdersEntry(orders));
      store.RemoveItem(CartKey);
      store.RemoveItem(CurrentOrderKey);
      handoff := Some(orderData.value.orderId);
    }
  }
}
