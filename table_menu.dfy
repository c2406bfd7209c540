/**
 * The per-table menu page: the catalogue, its category list, the cart updaters
 * behind the Add and minus buttons, the cart totals, and the hand-off of the
 * cart to local storage when the customer opens the cart.
 */
module TableMenu {
  import opened Wrappers
  import opened Records
  import opened Storage

  /** The sample catalogue the page renders (prices in cents). */
  const Menu: seq<MenuItem> := [
    MenuItem("1", "Classic Burger", "Beef patty with lettuce, tomato, onion, and our special sauce", 1299, "Main Course", true),
    MenuItem("2", "Margherita Pizza", "Fresh tomato sauce, mozzarella, and basil", 1499, "Main Course", true),
    MenuItem("3", "Caesar Salad", "Crisp romaine lettuce with parmesan and croutons", 999, "Appetizers", true),
    MenuItem("4", "Chocolate Cake", "Rich chocolate cake with vanilla ice cream", 799, "Desserts", true),
    MenuItem("5", "Grilled Salmon", "Fresh Atlantic salmon with seasonal vegetables", 1899, "Main Course", false),
    MenuItem("6", "French Fries", "Crispy golden fries with sea salt", 599, "Sides", true)
  ]

  /** Six dishes with distinct identifiers and positive prices; only the salmon is unavailable. */
  lemma MenuCatalogue()
    ensures |Menu| == 6
    ensures forall i, j :: 0 <= i < j < |Menu| ==> Menu[i].id != Menu[j].id
    ensures forall i :: 0 <= i < |Menu| ==> Menu[i].price > 0
    ensures forall i :: 0 <= i < |Menu| ==> (Menu[i].available <==> Menu[i].name != "Grilled Salmon")
  {
  }

  // ---------------------------------------------------------------------------
  // Categories: the distinct categories in order of first appearance

  function CategoryColumn(items: seq<MenuItem>): seq<string> {
    seq(|items|, i requires 0 <= i < |items| => items[i].category)
  }

  /** `[...new Set(xs)]`: each element once, kept where it first occurs. */
  function Distinct(xs: seq<string>): (r: seq<string>)
    ensures |r| <= |xs|
    decreases |xs|
  {
    if xs == [] then []
    else
      var prefix := Distinct(xs[..|xs| - 1]);
      if xs[|xs| - 1] in prefix then prefix else prefix + [xs[|xs| - 1]]
  }

  /** The distinct list holds exactly the elements of `xs`, each once. */
  lemma {:induction false} DistinctElements(xs: seq<string>)
    ensures forall x :: x in Distinct(xs) <==> x in xs
    ensures forall i :: 0 <= i < |Distinct(xs)| ==> Distinct(xs)[i] in xs
    ensures forall i, j :: 0 <= i < j < |Distinct(xs)| ==> Distinct(xs)[i] != Distinct(xs)[j]
    decreases |xs|
  {
    if xs != [] {
      var init := xs[..|xs| - 1];
      DistinctElements(init);
      assert xs == init + [xs[|xs| - 1]];
    }
  }

  /** The position at which `x` first occurs in `xs`. */
  function FirstIndex(xs: seq<string>, x: string): (k: nat)
    requires x in xs
    ensures k < |xs| && xs[k] == x
    ensures forall j :: 0 <= j < k ==> xs[j] != x
  {
    if xs[0] == x then 0 else 1 + FirstIndex(xs[1..], x)
  }

  /** `categories` */
  function Categories(items: seq<MenuItem>): (r: seq<string>)
    ensures |r| <= |items|
  {
    Distinct(CategoryColumn(items))
  }

  lemma FirstIndexOfPrefix(xs: seq<string>, n: nat, x: string)
    requires n <= |xs| && x in xs[..n]
    ensures x in xs && FirstIndex(xs, x) == FirstIndex(xs[..n], x)
  {
    var k := FirstIndex(xs[..n], x);
    assert xs[k] == xs[..n][k];
    assert forall j :: 0 <= j < k ==> xs[j] == xs[..n][j];
  }

  /** Every element of `r` occurs in `xs`, and `r` lists them by where they first occur in `xs`. */
  predicate InFirstAppearanceOrder(xs: seq<string>, r: seq<string>) {
    && (forall i :: 0 <= i < |r| ==> r[i] in xs)
    && (forall i, j :: 0 <= i < j < |r| ==> FirstIndex(xs, r[i]) < FirstIndex(xs, r[j]))
  }

  lemma {:induction false} DistinctPairOrder(xs: seq<string>, i: nat, j: nat)
    requires i < j < |Distinct(xs)|
    ensures Distinct(xs)[i] in xs && Distinct(xs)[j] in xs
    ensures FirstIndex(xs, Distinct(xs)[i]) < FirstIndex(xs, Distinct(xs)[j])
    decreases |xs|
  {
    var n := |xs| - 1;
    var init := xs[..n];
    var prefix := Distinct(init);
    var r := Distinct(xs);
    DistinctElements(init);
    assert r == prefix || r == prefix + [xs[n]];
    assert r[i] == prefix[i] && prefix[i] in init;
    FirstIndexOfPrefix(xs, n, prefix[i]);
    if j < |prefix| {
      assert r[j] == prefix[j] && prefix[j] in init;
      DistinctPairOrder(init, i, j);
      FirstIndexOfPrefix(xs, n, prefix[j]);
    } else {
      assert r[j] == xs[n] && xs[n] !in init;
      assert forall k :: 0 <= k < n ==> xs[k] == init[k];
    }
  }

  /** The distinct list keeps the order in which the elements first occur. */
  lemma DistinctFirstAppearanceOrder(xs: seq<string>)
    ensures InFirstAppearanceOrder(xs, Distinct(xs))
  {
    forall i, j | 0 <= i < j < |Distinct(xs)|
      ensures FirstIndex(xs, Distinct(xs)[i]) < FirstIndex(xs, Distinct(xs)[j])
    {
      DistinctPairOrder(xs, i, j);
    }
  }

  /** `categories` lists each category exactly once, in order of first appearance. */
  lemma CategoriesAreDistinctInOrder(items: seq<MenuItem>)
    ensures forall c :: c in Categories(items) <==> exists i :: 0 <= i < |items| && items[i].category == c
    ensures forall i, j :: 0 <= i < j < |Categories(items)| ==> Categories(items)[i] != Categories(items)[j]
    ensures InFirstAppearanceOrder(CategoryColumn(items), Categories(items))
  {
    var col := CategoryColumn(items);
    DistinctElements(col);
    DistinctFirstAppearanceOrder(col);
    forall c ensures c in col <==> exists i :: 0 <= i < |items| && items[i].category == c {
      if c in col {
        var i :| 0 <= i < |col| && col[i] == c;
        assert items[i].category == c;
      }
      if exists i :: 0 <= i < |items| && items[i].category == c {
        var i :| 0 <= i < |items| && items[i].category == c;
        assert col[i] == c;
      }
    }
  }

  lemma MenuColumn()
    ensures CategoryColumn(Menu) ==
      ["Main Course", "Main Course", "Appetizers", "Desserts", "Main Course", "Sides"]
  {
  }

  lemma DistinctSnoc(xs: seq<string>, r: seq<string>, x: string)
    requires Distinct(xs) == r
    ensures Distinct(xs + [x]) == if x in r then r else r + [x]
  {
    assert (xs + [x])[..|xs|] == xs;
  }

  /** The sample catalogue has four categories, in first-appearance order. */
  lemma MenuCategories()
    ensures Categories(Menu) == ["Main Course", "Appetizers", "Desserts", "Sides"]
  {
    MenuColumn();
    MenuColumnPrefix6();
  }

  // The four categories of the sample catalogue, in order of first appearance.
  const MainCourse := "Main Course"
  const Appetizers := "Appetizers"
  const Desserts := "Desserts"
  const Sides := "Sides"

  lemma MenuColumnPrefix2()
    ensures Distinct([MainCourse, MainCourse]) == [MainCourse]
  {
    DistinctSnoc([], [], MainCourse);
    assert [] + [MainCourse] == [MainCourse];
    DistinctSnoc([MainCourse], [MainCourse], MainCourse);
  }

  lemma MenuColumnPrefix3()
    ensures Distinct([MainCourse, MainCourse, Appetizers]) == [MainCourse, Appetizers]
  {
    MenuColumnPrefix2();
    DistinctSnoc([MainCourse, MainCourse], [MainCourse], Appetizers);
    assert [MainCourse, MainCourse] + [Appetizers] == [MainCourse, MainCourse, Appetizers];
  }

  lemma MenuColumnPrefix4()
    ensures Distinct([MainCourse, MainCourse, Appetizers, Desserts])
         == [MainCourse, Appetizers, Desserts]
  {
    MenuColumnPrefix3();
    var xs := [MainCourse, MainCourse, Appetizers];
    DistinctSnoc(xs, [MainCourse, Appetizers], Desserts);
    assert xs + [Desserts] == [MainCourse, MainCourse, Appetizers, Desserts];
  }

  lemma MenuColumnPrefix5()
    ensures Distinct([MainCourse, MainCourse, Appetizers, Desserts, MainCourse])
         == [MainCourse, Appetizers, Desserts]
  {
    MenuColumnPrefix4();
    var xs := [MainCourse, MainCourse, Appetizers, Desserts];
    DistinctSnoc(xs, [MainCourse, Appetizers, Desserts], MainCourse);
    assert xs + [MainCourse] == [MainCourse, MainCourse, Appetizers, Desserts, MainCourse];
  }

  lemma MenuColumnPrefix6()
    ensures Distinct([MainCourse, MainCourse, Appetizers, Desserts, MainCourse, Sides])
         == [MainCourse, Appetizers, Desserts, Sides]
  {
    MenuColumnPrefix5();
    var xs := [MainCourse, MainCourse, Appetizers, Desserts, MainCourse];
    DistinctSnoc(xs, [MainCourse, Appetizers, Desserts], Sides);
    assert xs + [Sides] == [MainCourse, MainCourse, Appetizers, Desserts, MainCourse, Sides];
  }

  // ---------------------------------------------------------------------------
  // Cart lines

  predicate HasLine(c: seq<CartLine>, id: string) {
    exists i :: 0 <= i < |c| && c[i].Id() == id
  }

  /** At most one line per menu item. */
  predicate UniqueIds(c: seq<CartLine>) {
    forall i, j :: 0 <= i < j < |c| ==> c[i].Id() != c[j].Id()
  }

  predicate PositiveQuantities(c: seq<CartLine>) {
    forall i :: 0 <= i < |c| ==> c[i].quantity >= 1
  }

  /** What the menu page keeps true of its cart. */
  predicate CartInvariant(c: seq<CartLine>) {
    UniqueIds(c) && PositiveQuantities(c)
  }

  lemma HasLineTail(c: seq<CartLine>, id: string)
    requires c != [] && c[0].Id() != id
    ensures HasLine(c, id) <==> HasLine(c[1..], id)
  {
    if HasLine(c, id) {
      var i :| 0 <= i < |c| && c[i].Id() == id;
      assert c[1..][i - 1] == c[i];
    }
    if HasLine(c[1..], id) {
      var i :| 0 <= i < |c[1..]| && c[1..][i].Id() == id;
      assert c[i + 1] == c[1..][i];
    }
  }

  /** `cart.find(line => line.id === id)`: the first line of the item, if any. */
  function FindLine(c: seq<CartLine>, id: string): (r: Option<CartLine>)
    ensures r.None? <==> !HasLine(c, id)
    ensures r.Some? ==> r.value.Id() == id && r.value in c
    ensures r.Some? ==> (exists i :: 0 <= i < |c| && c[i] == r.value &&
                           forall j :: 0 <= j < i ==> c[j].Id() != id)
  {
    if c == [] then None
    else if c[0].Id() == id then
      assert c[0] == c[0];  // names the witness i = 0 of the first-match clause
      Some(c[0])
    else
      HasLineTail(c, id);
      var r := FindLine(c[1..], id);
      if r.Some? then
        var i :| 0 <= i < |c[1..]| && c[1..][i] == r.value &&
          forall j :: 0 <= j < i ==> c[1..][j].Id() != id;
        assert c[i + 1] == r.value;
        assert forall j :: 1 <= j < i + 1 ==> c[j] == c[1..][j - 1];
        r
      else r
  }

  /** The line found is the line at the first position holding the item. */
  lemma {:induction false} FindLineFirst(c: seq<CartLine>, i: nat)
    requires i < |c| && forall j :: 0 <= j < i ==> c[j].Id() != c[i].Id()
    ensures FindLine(c, c[i].Id()) == Some(c[i])
  {
    if i > 0 {
      var tail := c[1..];
      assert tail[i - 1] == c[i];
      assert forall j :: 0 <= j < i - 1 ==> tail[j] == c[j + 1];
      FindLineFirst(tail, i - 1);
    }
  }

  /** With one line per item, the line found is the item's own line. */
  lemma FindLineAt(c: seq<CartLine>, i: nat)
    requires UniqueIds(c) && i < |c|
    ensures FindLine(c, c[i].Id()) == Some(c[i])
  {
    FindLineFirst(c, i);
  }

  /** The `map` in `addToCart`: every line of item `id` gets one more. */
  function IncrementMatching(c: seq<CartLine>, id: string): (r: seq<CartLine>)
    ensures |r| == |c| && forall i :: 0 <= i < |r| ==> r[i].item == c[i].item
  {
    seq(|c|, i requires 0 <= i < |c| =>
      if c[i].Id() == id then c[i].(quantity := c[i].quantity + 1) else c[i])
  }

  /** The updater of `addToCart`; it does not look at `item.available`. */
  function AddToCart(c: seq<CartLine>, item: MenuItem): (r: seq<CartLine>)
    ensures |r| == if HasLine(c, item.id) then |c| else |c| + 1
    ensures HasLine(r, item.id)
  {
    if FindLine(c, item.id).Some? then
      var r := IncrementMatching(c, item.id);
      var i :| 0 <= i < |c| && c[i].Id() == item.id;
      assert r[i].Id() == item.id;
      r
    else
      var r := c + [CartLine(item, 1)];
      assert r[|c|].Id() == item.id;
      r
  }

  /** The updater of `removeFromCart`: the `reduce` that decrements matching lines and drops those at 1. */
  function RemoveFromCart(c: seq<CartLine>, id: string): (r: seq<CartLine>)
    ensures |r| <= |c|
  {
    if c == [] then []
    else
      var rest := RemoveFromCart(c[1..], id);
      if c[0].Id() == id then
        (if c[0].quantity > 1 then [c[0].(quantity := c[0].quantity - 1)] else []) + rest
      else [c[0]] + rest
  }

  /** `getItemQuantity`: the quantity of the line found for the item, or 0. */
  function ItemQuantity(c: seq<CartLine>, id: string): (r: int)
    ensures !HasLine(c, id) ==> r == 0
    ensures PositiveQuantities(c) ==> (r >= 1 <==> HasLine(c, id))
  {
    match FindLine(c, id)
    case Some(line) => line.quantity
    case None => 0
  }

  /** `getTotalItems`: the sum of the quantities. */
  function TotalItems(c: seq<CartLine>): (r: int)
    ensures c == [] ==> r == 0
    ensures PositiveQuantities(c) ==> r >= |c|
  {
    if c == [] then 0
    else
      assert PositiveQuantities(c) ==> PositiveQuantities(c[1..]) by {
        forall i | 0 <= i < |c[1..]| ensures c[1..][i] == c[i + 1] { }
      }
      c[0].quantity + TotalItems(c[1..])
  }

  function LinePrice(l: CartLine): int {
    l.item.price * l.quantity
  }

  /** `getTotalPrice`: the sum of price times quantity, in cents. */
  function TotalPrice(c: seq<CartLine>): (r: int)
    ensures c == [] ==> r == 0
    ensures PositiveQuantities(c) ==> r >= 0
  {
    if c == [] then 0
    else
      assert PositiveQuantities(c) ==> PositiveQuantities(c[1..]) by {
        forall i | 0 <= i < |c[1..]| ensures c[1..][i] == c[i + 1] { }
      }
      LinePrice(c[0]) + TotalPrice(c[1..])
  }

  // ---------------------------------------------------------------------------
  // Totals over pieces of a cart

  lemma {:induction false} TotalsAppend(c: seq<CartLine>, d: seq<CartLine>)
    ensures TotalItems(c + d) == TotalItems(c) + TotalItems(d)
    ensures TotalPrice(c + d) == TotalPrice(c) + TotalPrice(d)
  {
    if c == [] {
      assert c + d == d;
    } else {
      assert (c + d)[1..] == c[1..] + d;
      TotalsAppend(c[1..], d);
    }
  }

  lemma {:induction false} TotalsUpdateAt(c: seq<CartLine>, i: nat, l: CartLine)
    requires i < |c|
    ensures TotalItems(c[i := l]) == TotalItems(c) - c[i].quantity + l.quantity
    ensures TotalPrice(c[i := l]) == TotalPrice(c) - LinePrice(c[i]) + LinePrice(l)
  {
    if i == 0 {
      assert c[i := l][1..] == c[1..];
    } else {
      assert c[i := l][1..] == c[1..][i - 1 := l];
      TotalsUpdateAt(c[1..], i - 1, l);
    }
  }

  /** The cart without its line at position `i`. */
  function DeleteAt(c: seq<CartLine>, i: nat): (r: seq<CartLine>)
    requires i < |c|
    ensures |r| == |c| - 1
    ensures forall j :: 0 <= j < |r| ==> r[j] == c[if j < i then j else j + 1]
  {
    c[..i] + c[i + 1..]
  }

  lemma {:induction false} TotalsDeleteAt(c: seq<CartLine>, i: nat)
    requires i < |c|
    ensures TotalItems(DeleteAt(c, i)) == TotalItems(c) - c[i].quantity
    ensures TotalPrice(DeleteAt(c, i)) == TotalPrice(c) - LinePrice(c[i])
  {
    var d := DeleteAt(c, i);
    if i == 0 {
      assert d == c[1..];
    } else {
      assert d[0] == c[0];
      assert d[1..] == DeleteAt(c[1..], i - 1);
      TotalsDeleteAt(c[1..], i - 1);
    }
  }

  lemma ItemQuantityAt(c: seq<CartLine>, i: nat)
    requires UniqueIds(c) && i < |c|
    ensures ItemQuantity(c, c[i].Id()) == c[i].quantity
  {
    FindLineAt(c, i);
  }

  // ---------------------------------------------------------------------------
  // addToCart

  /** An item already in the cart: only its line changes, and by exactly one. */
  lemma AddToCartExisting(c: seq<CartLine>, item: MenuItem, i: nat)
    requires UniqueIds(c) && i < |c| && c[i].Id() == item.id
    ensures AddToCart(c, item) == c[i := c[i].(quantity := c[i].quantity + 1)]
  {
    var r := AddToCart(c, item);
    assert FindLine(c, item.id).Some?;
    assert forall j :: 0 <= j < |c| && j != i ==> c[j].Id() != item.id;
    assert forall j :: 0 <= j < |c| ==> r[j] == c[i := c[i].(quantity := c[i].quantity + 1)][j];
  }

  /** An item not yet in the cart: one new line with quantity 1 at the end. */
  lemma AddToCartNew(c: seq<CartLine>, item: MenuItem)
    requires !HasLine(c, item.id)
    ensures AddToCart(c, item) == c + [CartLine(item, 1)]
  {
  }

  /** `addToCart` keeps one line per item and every quantity at least 1. */
  lemma AddToCartKeepsInvariant(c: seq<CartLine>, item: MenuItem)
    requires CartInvariant(c)
    ensures CartInvariant(AddToCart(c, item))
  {
    if HasLine(c, item.id) {
      var i :| 0 <= i < |c| && c[i].Id() == item.id;
      AddToCartExisting(c, item, i);
      var r := c[i := c[i].(quantity := c[i].quantity + 1)];
      assert forall j :: 0 <= j < |c| ==> r[j].Id() == c[j].Id();
    } else {
      var r := c + [CartLine(item, 1)];
      assert forall j :: 0 <= j < |c| ==> r[j] == c[j];
    }
  }

  /** Adding an item raises its quantity by one and leaves every other quantity alone. */
  lemma AddToCartQuantities(c: seq<CartLine>, item: MenuItem, id: string)
    ensures ItemQuantity(AddToCart(c, item), id) ==
      ItemQuantity(c, id) + (if id == item.id then 1 else 0)
  {
    var r := AddToCart(c, item);
    var present := HasLine(c, item.id);
    assert present ==> forall j :: 0 <= j < |c| ==> r[j].Id() == c[j].Id();
    assert !present ==> forall j :: 0 <= j < |c| ==> r[j] == c[j];
    if HasLine(c, id) {
      var i := FirstLineOf(c, id);
      FindLineFirst(c, i);
      FindLineFirst(r, i);
    } else if id == item.id {
      FindLineFirst(r, |c|);
    } else {
      assert !HasLine(r, id);
    }
  }

  /** The position of the first line of item `id`. */
  lemma FirstLineOf(c: seq<CartLine>, id: string) returns (i: nat)
    requires HasLine(c, id)
    ensures i < |c| && c[i].Id() == id && forall j :: 0 <= j < i ==> c[j].Id() != id
  {
    i :| 0 <= i < |c| && c[i] == FindLine(c, id).value &&
      forall j :: 0 <= j < i ==> c[j].Id() != id;
    assert FindLine(c, id).value.Id() == id;
  }

  /** Adding an item raises the item count by one and the price by the unit
      price of the item's line (the line already in the cart, or the new one). */
  lemma AddToCartTotals(c: seq<CartLine>, item: MenuItem)
    requires UniqueIds(c)
    ensures TotalItems(AddToCart(c, item)) == TotalItems(c) + 1
    ensures TotalPrice(AddToCart(c, item)) == TotalPrice(c) +
      (if FindLine(c, item.id).Some? then FindLine(c, item.id).value.item.price else item.price)
  {
    if HasLine(c, item.id) {
      var i :| 0 <= i < |c| && c[i].Id() == item.id;
      FindLineAt(c, i);
      AddToCartTotalsAt(c, item, i);
    } else {
      TotalsAppend(c, [CartLine(item, 1)]);
    }
  }

  lemma AddToCartTotalsAt(c: seq<CartLine>, item: MenuItem, i: nat)
    requires UniqueIds(c) && i < |c| && c[i].Id() == item.id
    ensures TotalItems(AddToCart(c, item)) == TotalItems(c) + 1
    ensures TotalPrice(AddToCart(c, item)) == TotalPrice(c) + c[i].item.price
  {
    AddToCartExisting(c, item, i);
    TotalsBump(c, i);
  }

  lemma TotalsBump(c: seq<CartLine>, i: nat)
    requires i < |c|
    ensures TotalItems(c[i := c[i].(quantity := c[i].quantity + 1)]) == TotalItems(c) + 1
    ensures TotalPrice(c[i := c[i].(quantity := c[i].quantity + 1)]) == TotalPrice(c) + c[i].item.price
  {
    TotalsUpdateAt(c, i, c[i].(quantity := c[i].quantity + 1));
    LinePriceBump(c[i]);
  }

  lemma LinePriceBump(l: CartLine)
    ensures LinePrice(l.(quantity := l.quantity + 1)) == LinePrice(l) + l.item.price
  {
    assert l.item.price * (l.quantity + 1) == l.item.price * l.quantity + l.item.price;
  }

  /** Adding the same item twice to an empty cart gives one line of two. */
  lemma AddTwiceToEmpty(item: MenuItem)
    ensures AddToCart(AddToCart([], item), item) == [CartLine(item, 2)]
  {
    var once := AddToCart([], item);
    assert once == [CartLine(item, 1)];
    assert HasLine(once, item.id) by { assert once[0].Id() == item.id; }
  }

  // ---------------------------------------------------------------------------
  // removeFromCart

  lemma {:induction false} RemoveFromCartAbsent(c: seq<CartLine>, id: string)
    requires !HasLine(c, id)
    ensures RemoveFromCart(c, id) == c
  {
    if c != [] {
      HasLineTail(c, id);
      RemoveFromCartAbsent(c[1..], id);
      assert c == [c[0]] + c[1..];
    }
  }

  lemma {:induction false} RemoveFromCartAppend(c: seq<CartLine>, d: seq<CartLine>, id: string)
    ensures RemoveFromCart(c + d, id) == RemoveFromCart(c, id) + RemoveFromCart(d, id)
  {
    if c == [] {
      assert c + d == d;
    } else {
      var head := if c[0].Id() != id then [c[0]]
        else if c[0].quantity > 1 then [c[0].(quantity := c[0].quantity - 1)] else [];
      assert (c + d)[0] == c[0] && (c + d)[1..] == c[1..] + d;
      assert RemoveFromCart(c + d, id) == head + RemoveFromCart(c[1..] + d, id);
      RemoveFromCartAppend(c[1..], d, id);
      assert head + (RemoveFromCart(c[1..], id) + RemoveFromCart(d, id))
          == (head + RemoveFromCart(c[1..], id)) + RemoveFromCart(d, id);
    }
  }

  /** A line above 1 loses one; a line at 1 disappears; all else stays in order. */
  lemma RemoveFromCartShape(c: seq<CartLine>, i: nat)
    requires UniqueIds(c) && i < |c|
    ensures RemoveFromCart(c, c[i].Id()) ==
      if c[i].quantity > 1 then c[i := c[i].(quantity := c[i].quantity - 1)]
      else DeleteAt(c, i)
  {
    OnlyLineOfItem(c, i);
    RemoveFromCartAt(c, i);
  }

  /** With one line per item, the item of line `i` occurs neither before nor after it. */
  lemma OnlyLineOfItem(c: seq<CartLine>, i: nat)
    requires UniqueIds(c) && i < |c|
    ensures !HasLine(c[..i], c[i].Id()) && !HasLine(c[i + 1..], c[i].Id())
  {
    var id := c[i].Id();
    var before, after := c[..i], c[i + 1..];
    forall j | 0 <= j < |before| ensures before[j].Id() != id {
      assert before[j] == c[j];
    }
    forall j | 0 <= j < |after| ensures after[j].Id() != id {
      assert after[j] == c[i + 1 + j];
    }
  }

  lemma RemoveFromCartAt(c: seq<CartLine>, i: nat)
    requires i < |c| && !HasLine(c[..i], c[i].Id()) && !HasLine(c[i + 1..], c[i].Id())
    ensures RemoveFromCart(c, c[i].Id()) ==
      if c[i].quantity > 1 then c[i := c[i].(quantity := c[i].quantity - 1)]
      else DeleteAt(c, i)
  {
    Splice(c, i, c[i].(quantity := c[i].quantity - 1));
    RemoveFromCartAround(c[..i], c[i], c[i + 1..]);
  }

  /** How a cart is put back together around position `i`. */
  lemma Splice(c: seq<CartLine>, i: nat, l: CartLine)
    requires i < |c|
    ensures c[..i] + ([c[i]] + c[i + 1..]) == c
    ensures c[..i] + ([l] + c[i + 1..]) == c[i := l]
    ensures c[..i] + c[i + 1..] == DeleteAt(c, i)
  {
    assert c == c[..i] + c[i..];
    assert c[i..] == [c[i]] + c[i + 1..];
  }

  lemma RemoveFromCartAround(before: seq<CartLine>, l: CartLine, after: seq<CartLine>)
    requires !HasLine(before, l.Id()) && !HasLine(after, l.Id())
    ensures RemoveFromCart(before + ([l] + after), l.Id()) ==
      if l.quantity > 1 then before + ([l.(quantity := l.quantity - 1)] + after) else before + after
  {
    RemoveFromCartAppend(before, [l] + after, l.Id());
    RemoveFromCartAppend([l], after, l.Id());
    RemoveFromCartAbsent(before, l.Id());
    RemoveFromCartAbsent(after, l.Id());
    assert RemoveFromCart([l], l.Id()) == if l.quantity > 1 then [l.(quantity := l.quantity - 1)] else [];
  }

  /** `removeFromCart` keeps one line per item and every quantity at least 1. */
  lemma RemoveFromCartKeepsInvariant(c: seq<CartLine>, id: string)
    requires CartInvariant(c)
    ensures CartInvariant(RemoveFromCart(c, id))
  {
    if HasLine(c, id) {
      var i :| 0 <= i < |c| && c[i].Id() == id;
      RemoveFromCartShape(c, i);
      if c[i].quantity > 1 {
        InvariantAfterUpdate(c, i, c[i].(quantity := c[i].quantity - 1));
      } else {
        InvariantAfterDelete(c, i);
      }
    } else {
      RemoveFromCartAbsent(c, id);
    }
  }

  lemma InvariantAfterUpdate(c: seq<CartLine>, i: nat, l: CartLine)
    requires CartInvariant(c) && i < |c| && l.Id() == c[i].Id() && l.quantity >= 1
    ensures CartInvariant(c[i := l])
  {
    var r := c[i := l];
    assert forall j :: 0 <= j < |c| ==> r[j].Id() == c[j].Id();
  }

  lemma InvariantAfterDelete(c: seq<CartLine>, i: nat)
    requires CartInvariant(c) && i < |c|
    ensures CartInvariant(DeleteAt(c, i))
  {
  }

  lemma HasLineAppend(a: seq<CartLine>, b: seq<CartLine>, id: string)
    ensures HasLine(a + b, id) <==> HasLine(a, id) || HasLine(b, id)
  {
    if HasLine(a + b, id) {
      var j :| 0 <= j < |a + b| && (a + b)[j].Id() == id;
      if j >= |a| {
        assert b[j - |a|] == (a + b)[j];
      }
    }
    if HasLine(a, id) {
      var j :| 0 <= j < |a| && a[j].Id() == id;
      assert (a + b)[j] == a[j];
    }
    if HasLine(b, id) {
      var j :| 0 <= j < |b| && b[j].Id() == id;
      assert (a + b)[|a| + j] == b[j];
    }
  }

  /** One fewer of the item (never below 0), one fewer item in all when present. */
  lemma RemoveFromCartCounts(c: seq<CartLine>, id: string)
    requires CartInvariant(c)
    ensures ItemQuantity(RemoveFromCart(c, id), id) ==
      if ItemQuantity(c, id) > 0 then ItemQuantity(c, id) - 1 else 0
    ensures TotalItems(RemoveFromCart(c, id)) ==
      TotalItems(c) - (if HasLine(c, id) then 1 else 0)
  {
    if HasLine(c, id) {
      var i :| 0 <= i < |c| && c[i].Id() == id;
      RemoveFromCartShape(c, i);
      ItemQuantityAt(c, i);
      if c[i].quantity > 1 {
        var l := c[i].(quantity := c[i].quantity - 1);
        TotalsUpdateAt(c, i, l);
        InvariantAfterUpdate(c, i, l);
        ItemQuantityAt(c[i := l], i);
      } else {
        TotalsDeleteAt(c, i);
        OnlyLineOfItem(c, i);
        Splice(c, i, c[i]);
        HasLineAppend(c[..i], c[i + 1..], id);
      }
    } else {
      RemoveFromCartAbsent(c, id);
    }
  }

  lemma {:induction false} RemoveUndoesIncrement(c: seq<CartLine>, id: string)
    requires PositiveQuantities(c)
    ensures RemoveFromCart(IncrementMatching(c, id), id) == c
  {
    if c != [] {
      var inc := IncrementMatching(c, id);
      assert inc[1..] == IncrementMatching(c[1..], id);
      assert PositiveQuantities(c[1..]) by {
        forall j | 0 <= j < |c[1..]| ensures c[1..][j].quantity >= 1 {
          assert c[1..][j] == c[j + 1];
        }
      }
      RemoveUndoesIncrement(c[1..], id);
      assert c == [c[0]] + c[1..];
    }
  }

  /** Removing one right after adding one restores the cart. */
  lemma RemoveAfterAdd(c: seq<CartLine>, item: MenuItem)
    requires PositiveQuantities(c)
    ensures RemoveFromCart(AddToCart(c, item), item.id) == c
  {
    if HasLine(c, item.id) {
      RemoveUndoesIncrement(c, item.id);
    } else {
      RemoveFromCartAppend(c, [CartLine(item, 1)], item.id);
      RemoveFromCartAbsent(c, item.id);
      assert RemoveFromCart([CartLine(item, 1)], item.id) == [];
    }
  }

  // ---------------------------------------------------------------------------
  // The page's state

  /** The `cart` state of the menu page for the table in the route. */
  class MenuPage {
    const tableId: Option<string>
    var cart: seq<CartLine>

    ghost predicate Valid()
      reads this
    {
      CartInvariant(cart)
    }

    constructor (tableId: Option<string>)
      ensures this.tableId == tableId && cart == [] && Valid()
    {
      this.tableId := tableId;
      cart := [];
    }

    /** The Add button. */
    method Add(item: MenuItem)
      requires Valid()
      modifies this
      ensures Valid()
      ensures cart == AddToCart(old(cart), item)
    {
      AddToCartKeepsInvariant(cart, item);
      cart := AddToCart(cart, item);
    }

    /** The minus button. */
    method Remove(itemId: string)
      requires Valid()
      modifies this
      ensures Valid()
      ensures cart == RemoveFromCart(old(cart), itemId)
    {
      RemoveFromCartKeepsInvariant(cart, itemId);
      cart := RemoveFromCart(cart, itemId);
    }

    /** `goToCart`: stores the cart and the table identifier (empty when the route has none). */
    method GoToCart(store: LocalStorage)
      requires store.Valid()
      modifies store
      ensures store.Valid()
      ensures store.entries ==
        old(store.entries)[CartKey := CartEntry(cart)][TableIdKey := TextEntry(tableId.GetOr(""))]
    {
      store.SetItem(CartKey, CartEntry(cart));
      store.SetItem(TableIdKey, TextEntry(tableId.GetOr("")));
    }
  }
}
