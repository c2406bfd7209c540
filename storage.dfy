/**
 * The browser's local storage, seen through the four keys the pages use. Each
 * key holds the typed value the pages write there (the JSON text is abstracted
 * away); keys other than these four are never read and never changed.
 */
module Storage {
  import opened Wrappers
  import opened Records

  const CartKey: string := "cart"
  const TableIdKey: string := "tableId"
  const CurrentOrderKey: string := "currentOrder"
  const OrdersKey: string := "orders"

  datatype Value =
    | CartEntry(lines: seq<CartLine>)
    | TextEntry(text: string)
    | DraftEntry(draft: Order)
    | OrdersEntry(orders: seq<PaidOrder>)

  type Entries = map<string, Value>

  /** Every key the pages write holds the kind of value the pages write there. */
  predicate WellTyped(m: Entries) {
    && (CartKey in m ==> m[CartKey].CartEntry?)
    && (TableIdKey in m ==> m[TableIdKey].TextEntry?)
    && (CurrentOrderKey in m ==> m[CurrentOrderKey].DraftEntry?)
    && (OrdersKey in m ==> m[OrdersKey].OrdersEntry?)
  }

  /** `JSON.parse(localStorage.getItem('orders') || '[]')` */
  function StoredOrders(m: Entries): seq<PaidOrder>
    requires WellTyped(m)
  {
    if OrdersKey in m then m[OrdersKey].orders else []
  }

  /** The pending order under `currentOrder`, if any. */
  function StoredDraft(m: Entries): (r: Option<Order>)
    requires WellTyped(m)
    ensures r.Some? <==> CurrentOrderKey in m
  {
    if CurrentOrderKey in m then Some(m[CurrentOrderKey].draft) else None
  }

  /** `localStorage` itself: a mutable map from keys to stored values. */
  class LocalStorage {
    var entries: Entries

    ghost predicate Valid()
      reads this
    {
      WellTyped(entries)
    }

    constructor (initial: Entries)
      ensures entries == initial
    {
      entries := initial;
    }

    /** `getItem(key)`: null when the key is absent. */
    method GetItem(key: string) returns (v: Option<Value>)
      ensures v.Some? <==> key in entries
      ensures v.Some? ==> v.value == entries[key]
    {
      v := if key in entries then Some(entries[key]) else None;
    }

    /** `setItem(key, value)` */
    method SetItem(key: string, v: Value)
      modifies this
      ensures entries == old(entries)[key := v]
    {
      entries := entries[key := v];
    }

    /** `removeItem(key)`: a no-op when the key is absent. */
    method RemoveItem(key: string)
      modifies this
      ensures entries == old(entries) - {key}
    {
      entries := entries - {key};
    }
  }
}
