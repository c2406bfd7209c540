/**
 * The cart page: editing the cart lines handed over by the menu page, and
 * freezing them into the order record that the payment page settles.
 */
module CartPage {
  import opened Wrappers
  import opened Records
  import opened Storage
  import opened JsStrings
  import opened TableMenu

  // ---------------------------------------------------------------------------
  // removeItem and updateQuantity

  /** The `filter` in `removeItem`: every line of item `id` goes, the rest stay in order. */
  function RemoveItem(c: seq<CartLine>, id: string): (r: seq<CartLine>)
    ensures |r| <= |c|
  {
    if c == [] then []
    else (if c[0].Id() == id then [] else [c[0]]) + RemoveItem(c[1..], id)
  }

  /** The lines kept are exactly the lines of other items; none of item `id` is left. */
  lemma {:induction false} RemoveItemMembers(c: seq<CartLine>, id: string)
    ensures forall l :: l in RemoveItem(c, id) <==> l in c && l.Id() != id
    ensures !HasLine(RemoveItem(c, id), id)
  {
    if c != [] {
      RemoveItemMembers(c[1..], id);
      assert c == [c[0]] + c[1..];
    }
  }

  /** The `map` in `updateQuantity`: every line of item `id` gets quantity `n`. */
  function OverwriteQuantity(c: seq<CartLine>, id: string, n: int): (r: seq<CartLine>)
    ensures |r| == |c| && forall i :: 0 <= i < |r| ==> r[i].item == c[i].item
  {
    seq(|c|, i requires 0 <= i < |c| =>
      if c[i].Id() == id then c[i].(quantity := n) else c[i])
  }

  /** `updateQuantity`: 0 means remove; any other number, negative ones included, is stored as is. */
  function UpdateQuantity(c: seq<CartLine>, id: string, n: int): (r: seq<CartLine>)
    ensures n != 0 ==> |r| == |c|
    ensures |r| <= |c|
  {
    if n == 0 then RemoveItem(c, id) else OverwriteQuantity(c, id, n)
  }

  lemma {:induction false} RemoveItemAbsent(c: seq<CartLine>, id: string)
    requires !HasLine(c, id)
    ensures RemoveItem(c, id) == c
  {
    if c != [] {
      assert c[0].Id() != id;
      HasLineTail(c, id);
      RemoveItemAbsent(c[1..], id);
      assert c == [c[0]] + c[1..];
    }
  }

  lemma {:induction false} RemoveItemAppend(c: seq<CartLine>, d: seq<CartLine>, id: string)
    ensures RemoveItem(c + d, id) == RemoveItem(c, id) + RemoveItem(d, id)
  {
    if c == [] {
      assert c + d == d;
    } else {
      var head := if c[0].Id() == id then [] else [c[0]];
      assert (c + d)[0] == c[0] && (c + d)[1..] == c[1..] + d;
      RemoveItemAppend(c[1..], d, id);
      assert head + (RemoveItem(c[1..], id) + RemoveItem(d, id))
          == (head + RemoveItem(c[1..], id)) + RemoveItem(d, id);
    }
  }

  /** With one line per item, `removeItem` deletes exactly the item's line. */
  lemma RemoveItemShape(c: seq<CartLine>, i: nat)
    requires UniqueIds(c) && i < |c|
    ensures RemoveItem(c, c[i].Id()) == DeleteAt(c, i)
  {
    var id := c[i].Id();
    OnlyLineOfItem(c, i);
    Splice(c, i, c[i]);
    RemoveItemAppend(c[..i], [c[i]] + c[i + 1..], id);
    RemoveItemAppend([c[i]], c[i + 1..], id);
    RemoveItemAbsent(c[..i], id);
    RemoveItemAbsent(c[i + 1..], id);
    assert RemoveItem([c[i]], id) == [];
    assert [] + c[i + 1..] == c[i + 1..];
  }

  /** `updateQuantity(id, 0)` is `removeItem(id)`, and no line of the item is left. */
  lemma UpdateToZero(c: seq<CartLine>, id: string)
    ensures UpdateQuantity(c, id, 0) == RemoveItem(c, id)
    ensures !HasLine(UpdateQuantity(c, id, 0), id)
    ensures ItemQuantity(UpdateQuantity(c, id, 0), id) == 0
  {
    RemoveItemMembers(c, id);
  }

  /** With one line per item and `n != 0`, only the item's line changes, to quantity `n`. */
  lemma UpdateQuantityShape(c: seq<CartLine>, i: nat, n: int)
    requires UniqueIds(c) && i < |c| && n != 0
    ensures UpdateQuantity(c, c[i].Id(), n) == c[i := c[i].(quantity := n)]
  {
    var r := UpdateQuantity(c, c[i].Id(), n);
    assert forall j :: 0 <= j < |c| && j != i ==> c[j].Id() != c[i].Id();
    assert forall j :: 0 <= j < |c| ==> r[j] == c[i := c[i].(quantity := n)][j];
  }

  /** An item that is not in the cart: whatever the number, the cart stays as it is. */
  lemma UpdateQuantityAbsent(c: seq<CartLine>, id: string, n: int)
    requires !HasLine(c, id)
    ensures UpdateQuantity(c, id, n) == c
  {
    if n == 0 {
      RemoveItemAbsent(c, id);
    } else {
      var r := UpdateQuantity(c, id, n);
      assert forall j :: 0 <= j < |c| ==> r[j] == c[j];
    }
  }

  /** After `updateQuantity(id, n)`, `getItemQuantity(id)` reads back `n` (0 when removed). */
  lemma UpdateQuantityReadBack(c: seq<CartLine>, i: nat, n: int)
    requires i < |c|
    ensures ItemQuantity(UpdateQuantity(c, c[i].Id(), n), c[i].Id()) == n
  {
    if n != 0 {
      var id := c[i].Id();
      var r := UpdateQuantity(c, id, n);
      var k := FirstLineOf(c, id);
      assert forall j :: 0 <= j < |c| ==> r[j].Id() == c[j].Id();
      FindLineFirst(r, k);
    } else {
      UpdateToZero(c, c[i].Id());
    }
  }

  /** A non-negative number keeps one line per item and every quantity at least 1. */
  lemma UpdateQuantityKeepsInvariant(c: seq<CartLine>, id: string, n: int)
    requires CartInvariant(c) && n >= 0
    ensures CartInvariant(UpdateQuantity(c, id, n))
  {
    if HasLine(c, id) {
      var i :| 0 <= i < |c| && c[i].Id() == id;
      if n == 0 {
        RemoveItemShape(c, i);
        InvariantAfterDelete(c, i);
      } else {
        UpdateQuantityShape(c, i, n);
        InvariantAfterUpdate(c, i, c[i].(quantity := n));
      }
    } else {
      UpdateQuantityAbsent(c, id, n);
    }
  }

  /** The trash button keeps one line per item and every quantity at least 1. */
  lemma RemoveItemKeepsInvariant(c: seq<CartLine>, id: string)
    requires CartInvariant(c)
    ensures CartInvariant(RemoveItem(c, id))
  {
    UpdateQuantityKeepsInvariant(c, id, 0);
  }

  /** The minus and plus buttons of a line never leave a line at 0 or below. */
  lemma StepButtonsKeepInvariant(c: seq<CartLine>, i: nat)
    requires CartInvariant(c) && i < |c|
    ensures CartInvariant(UpdateQuantity(c, c[i].Id(), c[i].quantity - 1))
    ensures CartInvariant(UpdateQuantity(c, c[i].Id(), c[i].quantity + 1))
  {
    UpdateQuantityKeepsInvariant(c, c[i].Id(), c[i].quantity - 1);
    UpdateQuantityKeepsInvariant(c, c[i].Id(), c[i].quantity + 1);
  }

  /** Setting a line to `n` moves the item count by `n - q` and the price by `price * (n - q)`. */
  lemma UpdateQuantityTotals(c: seq<CartLine>, i: nat, n: int)
    requires UniqueIds(c) && i < |c|
    ensures TotalItems(UpdateQuantity(c, c[i].Id(), n)) == TotalItems(c) - c[i].quantity + n
    ensures TotalPrice(UpdateQuantity(c, c[i].Id(), n)) ==
      TotalPrice(c) - LinePrice(c[i]) + c[i].item.price * n
  {
    if n == 0 {
      RemoveItemShape(c, i);
      TotalsDeleteAt(c, i);
    } else {
      UpdateQuantityShape(c, i, n);
      TotalsUpdateAt(c, i, c[i].(quantity := n));
    }
  }

  // ---------------------------------------------------------------------------
  // handlePlaceOrder

  datatype PlaceOrderError = NameRequired

  /** `ORD-${Date.now()}-${tableId}` */
  function OrderId(now: nat, tableId: string): (r: string)
    ensures |r| > 5 + |tableId| && r[..4] == "ORD-" && r[|r| - |tableId|..] == tableId
  {
    "ORD-" + Decimal(now) + "-" + tableId
  }

  /** The identifier determines the moment and the table it was made from. */
  lemma OrderIdInjective(a: nat, ta: string, b: nat, tb: string)
    requires OrderId(a, ta) == OrderId(b, tb)
    ensures a == b && ta == tb
  {
    var da, db := Decimal(a), Decimal(b);
    var u, v := da + "-" + ta, db + "-" + tb;
    assert OrderId(a, ta) == "ORD-" + u && OrderId(b, tb) == "ORD-" + v;
    assert u == OrderId(a, ta)[4..] == v;
    DigitsEndAtDash(da, ta);
    DigitsEndAtDash(db, tb);
    assert da == u[..|da|] == db;
    DecimalInjective(a, b);
    assert ta == u[|da| + 1..] == tb;
  }

  /** The position of the first character that is not a decimal digit (the length if none). */
  function DigitRun(s: string): (k: nat)
    ensures k <= |s|
  {
    if s == [] || !IsDigit(s[0]) then 0 else 1 + DigitRun(s[1..])
  }

  lemma {:induction false} DigitsEndAtDash(d: string, rest: string)
    requires forall i :: 0 <= i < |d| ==> IsDigit(d[i])
    ensures DigitRun(d + "-" + rest) == |d|
  {
    if d != [] {
      assert (d + "-" + rest)[1..] == d[1..] + "-" + rest;
      DigitsEndAtDash(d[1..], rest);
    }
  }

  /**
   * The order record built from the page's state, or the refusal when the name
   * is empty once trimmed. The name and instructions are stored untrimmed.
   */
  function BuildOrder(cart: seq<CartLine>, tableId: string, name: string, instructions: string,
                      now: nat, orderTime: string): (r: Result<Order, PlaceOrderError>)
    ensures r.Failure? <==> AllWhitespace(name)
    ensures r.Failure? ==> r.error == NameRequired
    ensures r.Success? ==>
      && r.value.items == cart
      && r.value.totalAmount == TotalPrice(cart)
      && r.value.orderId == OrderId(now, tableId)
      && r.value.tableId == tableId
      && r.value.customerName == name
      && r.value.specialInstructions == instructions
      && r.value.orderTime == orderTime
  {
    if IsBlank(name) then Failure(NameRequired)
    else Success(Order(tableId, name, cart, instructions, TotalPrice(cart), orderTime, OrderId(now, tableId)))
  }

  // ---------------------------------------------------------------------------
  // The page's state

  /** The state of the cart page: the cart, the table and the two form fields. */
  class CartView {
    var cart: seq<CartLine>
    var tableId: string
    var customerName: string
    var specialInstructions: string

    constructor ()
      ensures cart == [] && tableId == "" && customerName == "" && specialInstructions == ""
    {
      cart := [];
      tableId := "";
      customerName := "";
      specialInstructions := "";
    }

    /** The mount effect: a stored cart replaces the page's cart; a non-empty stored table id replaces its table. */
    method Load(store: LocalStorage)
      requires store.Valid()
      modifies this
      ensures CartKey in store.entries ==> cart == store.entries[CartKey].lines
      ensures CartKey !in store.entries ==> cart == old(cart)
      ensures tableId ==
        if TableIdKey in store.entries && store.entries[TableIdKey].text != ""
        then store.entries[TableIdKey].text else old(tableId)
      ensures customerName == old(customerName) && specialInstructions == old(specialInstructions)
    {
      var savedCart := store.GetItem(CartKey);
      var savedTableId := store.GetItem(TableIdKey);
      if savedCart.Some? {
        cart := savedCart.value.lines;
      }
      if savedTableId.Some? && savedTableId.value.text != "" {
        tableId := savedTableId.value.text;
      }
    }

    /** `updateQuantity`: the new cart replaces the state and the `cart` key. */
    method SetQuantity(store: LocalStorage, id: string, n: int)
      requires store.Valid()
      modifies this, store
      ensures cart == UpdateQuantity(old(cart), id, n)
      ensures store.entries == old(store.entries)[CartKey := CartEntry(cart)]
      ensures store.Valid()
      ensures tableId == old(tableId) && customerName == old(customerName)
      ensures specialInstructions == old(specialInstructions)
    {
      if n == 0 {
        Remove(store, id);
        return;
      }
      cart := OverwriteQuantity(cart, id, n);
      store.SetItem(CartKey, CartEntry(cart));
    }

    /** `removeItem`: the filtered cart replaces the state and the `cart` key. */
    method Remove(store: LocalStorage, id: string)
      requires store.Valid()
      modifies this, store
      ensures cart == RemoveItem(old(cart), id)
      ensures store.entries == old(store.entries)[CartKey := CartEntry(cart)]
      ensures store.Valid()
      ensures tableId == old(tableId) && customerName == old(customerName)
      ensures specialInstructions == old(specialInstructions)
    {
      cart := RemoveItem(cart, id);
      store.SetItem(CartKey, CartEntry(cart));
    }

    /**
     * `handlePlaceOrder`, reachable only from the page shown for a non-empty
     * cart: a blank name writes nothing; otherwise the order is written under
     * `currentOrder` and nothing else changes.
     */
    method PlaceOrder(store: LocalStorage, now: nat, orderTime: string)
      returns (result: Result<Order, PlaceOrderError>)
      requires store.Valid() && cart != []
      modifies store
      ensures result == BuildOrder(cart, tableId, customerName, specialInstructions, now, orderTime)
      ensures result.Failure? ==> store.entries == old(store.entries)
      ensures result.Success? ==>
        store.entries == old(store.entries)[CurrentOrderKey := DraftEntry(result.value)]
      ensures store.Valid()
    {
      result := BuildOrder(cart, tableId, customerName, specialInstructions, now, orderTime);
      if result.Failure? {
        return;
      }
      store.SetItem(CurrentOrderKey, DraftEntry(result.value));
    }
  }
}
