/**
 * The records that travel through the ordering flow. Prices and amounts are in
 * integer cents (the pages hold them as floating-point dollars).
 */
module Records {

  /** A dish of the menu catalogue; never changed after the catalogue is built. */
  datatype MenuItem = MenuItem(
    id: string,
    name: string,
    description: string,
    price: nat,
    category: string,
    available: bool)

  /** A menu item spread into a cart line together with how many of it are wanted. */
  datatype CartLine = CartLine(item: MenuItem, quantity: int) {
    function Id(): string { item.id }
  }

  /** The order record the cart page builds and the payment page reads. */
  datatype Order = Order(
    tableId: string,
    customerName: string,
    items: seq<CartLine>,
    specialInstructions: string,
    totalAmount: int,
    orderTime: string,
    orderId: string)

  /** An order after settlement: every field of the draft plus the payment fields. */
  datatype PaidOrder = PaidOrder(
    draft: Order,
    paymentMethod: string,
    status: string,
    paymentTime: string)
}
