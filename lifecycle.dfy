/**
 * The order lifecycle across the four pages: the menu page hands the cart to
 * storage, the cart page turns it into a pending order, the payment page
 * settles it, and the confirmation page finds it by the identifier it was
 * handed.
 */
module Lifecycle {
  import opened Wrappers
  import opened Records
  import opened Storage
  import opened JsStrings
  import opened TableMenu
  import opened CartPage
  import opened Payment
  import opened Confirmation

  /**
   * Placing an order and paying for it, on storage values: the confirmation
   * lookup of the handed-off identifier finds the paid order, which carries
   * the cart and its total, and the cart and pending order are gone.
   */
  lemma OrderLifecycle(m: Entries, cart: seq<CartLine>, tableId: string, name: string,
                       instructions: string, now: nat, orderTime: string,
                       paymentMethod: string, paymentTime: string)
    requires WellTyped(m) && !AllWhitespace(name)
    requires !HasOrder(StoredOrders(m), OrderId(now, tableId))
    ensures BuildOrder(cart, tableId, name, instructions, now, orderTime).Success?
    ensures
      var order := BuildOrder(cart, tableId, name, instructions, now, orderTime).value;
      var settled := Settle(m[CurrentOrderKey := DraftEntry(order)], order, paymentMethod, paymentTime);
      && LookupOrder(settled, Some(order.orderId))
         == Found(PaidOrder(order, paymentMethod, PaidStatus, paymentTime))
      && order.items == cart
      && DisplayedSubtotal(PaidOrder(order, paymentMethod, PaidStatus, paymentTime)) == TotalPrice(cart)
      && StatusText(PaidStatus) == "Order Confirmed"
      && CartKey !in settled && CurrentOrderKey !in settled
  {
    var order := BuildOrder(cart, tableId, name, instructions, now, orderTime).value;
    var pending := m[CurrentOrderKey := DraftEntry(order)];
    assert StoredOrders(pending) == StoredOrders(m);
    var paid := PaidOrder(order, paymentMethod, PaidStatus, paymentTime);
    FindFreshOrder(StoredOrders(m), paid);
  }

  /**
   * The same flow driven through the pages' own operations on one storage
   * object: open the cart, fill in the name, place the order, load the payment
   * page, pick a method, pay, and open the confirmation page.
   */
  method Checkout(store: LocalStorage, menu: MenuPage, name: string, instructions: string,
                  now: nat, orderTime: string, choice: string, paymentTime: string)
    returns (shown: Option<PaidOrder>)
    requires store.Valid() && menu.Valid() && menu.cart != []
    requires !AllWhitespace(name) && choice in PaymentMethods
    requires !HasOrder(StoredOrders(store.entries), OrderId(now, menu.tableId.GetOr("")))
    modifies store
    ensures store.Valid()
    ensures shown.Some?
    ensures shown.value.draft.items == menu.cart
    ensures shown.value.draft.orderId == OrderId(now, menu.tableId.GetOr(""))
    ensures shown.value.paymentMethod == choice && shown.value.status == PaidStatus
    ensures DisplayedSubtotal(shown.value) == TotalPrice(menu.cart)
    ensures StoredOrders(store.entries) == StoredOrders(old(store.entries)) + [shown.value]
    ensures CartKey !in store.entries && CurrentOrderKey !in store.entries
  {
    var order := PlaceFromMenu(store, menu, name, instructions, now, orderTime);
    shown := PayAndConfirm(store, order, choice, paymentTime);
  }

  /** The menu page opens the cart page, which places the order. */
  method PlaceFromMenu(store: LocalStorage, menu: MenuPage, name: string, instructions: string,
                       now: nat, orderTime: string)
    returns (order: Order)
    requires store.Valid() && menu.Valid() && menu.cart != [] && !AllWhitespace(name)
    modifies store
    ensures store.Valid()
    ensures StoredDraft(store.entries) == Some(order)
    ensures StoredOrders(store.entries) == StoredOrders(old(store.entries))
    ensures order.items == menu.cart && order.totalAmount == TotalPrice(menu.cart)
    ensures order.orderId == OrderId(now, menu.tableId.GetOr(""))
  {
    menu.GoToCart(store);
    var cartView := new CartView();
    cartView.Load(store);
    cartView.customerName := name;
    cartView.specialInstructions := instructions;
    var placed := cartView.PlaceOrder(store, now, orderTime);
    order := placed.value;
  }

  /** The payment page settles the pending order and the confirmation page shows it. */
  method PayAndConfirm(store: LocalStorage, order: Order, choice: string, paymentTime: string)
    returns (shown: Option<PaidOrder>)
    requires store.Valid() && StoredDraft(store.entries) == Some(order) && choice in PaymentMethods
    requires !HasOrder(StoredOrders(store.entries), order.orderId) && order.orderId != ""
    modifies store
    ensures store.Valid()
    ensures shown == Some(PaidOrder(order, choice, PaidStatus, paymentTime))
    ensures StoredOrders(store.entries) == StoredOrders(old(store.entries)) + [shown.value]
    ensures CartKey !in store.entries && CurrentOrderKey !in store.entries
  {
    var payment := new PaymentView();
    var paymentRedirect := payment.Load(store);
    payment.SelectMethod(choice);
    FindFreshOrder(StoredOrders(store.entries), PaidOrder(order, choice, PaidStatus, paymentTime));
    var handoff := payment.HandlePayment(store, paymentTime);
    var confirmation := new ConfirmationView();
    var confirmationRedirect := confirmation.Load(store, handoff);
    shown := confirmation.order;
  }

  /** Two Classic Burgers from an empty cart: one line of two, 25.98 in all. */
  lemma TwoBurgers()
    ensures AddToCart(AddToCart([], Menu[0]), Menu[0]) == [CartLine(Menu[0], 2)]
    ensures TotalItems(AddToCart(AddToCart([], Menu[0]), Menu[0])) == 2
    ensures TotalPrice(AddToCart(AddToCart([], Menu[0]), Menu[0])) == 2598
  {
    AddTwiceToEmpty(Menu[0]);
  }
}
