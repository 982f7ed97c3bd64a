/**
 * The customer's cart as the client pages keep it: adding items
 * (CustomerDashboard.js keyed by item id, CustomerMenu.js keyed by item id and
 * vendor), the item count, the total, the quantity buttons and the checkout
 * guards of Cart.js up to the place-order request.
 */
module Cart {
  import opened Common
  import opened OrderModel
  import OL = OrderLifecycle
  import Text
  import Lists

  /**
   * A cart entry: the menu item's id, name and price, its quantity (0 stands
   * for a missing quantity, which `|| 1` treats alike), and the vendor id
   * CustomerMenu.js attaches.
   */
  datatype CartItem = CartItem(id: Id, itemName: string, price: int, quantity: int, vendorId: Option<Id>)

  /** `item.quantity || 1`. */
  function Qty(q: int): int
  {
    if q == 0 then 1 else q
  }

  /** What one entry adds to the total. */
  function LineAmount(c: CartItem): int
  {
    c.price * Qty(c.quantity)
  }

  /** `calculateTotal`: the left fold of price × (quantity || 1). */
  function Total(cart: seq<CartItem>): int
    decreases |cart|
  {
    if cart == [] then 0 else Total(cart[..|cart| - 1]) + LineAmount(cart[|cart| - 1])
  }

  /** The total of a concatenation is the sum of the totals. */
  lemma {:induction false} TotalAppend(a: seq<CartItem>, b: seq<CartItem>)
    ensures Total(a + b) == Total(a) + Total(b)
    decreases |b|
  {
    if b == [] {
      assert a + b == a;
    } else {
      var b' := b[..|b| - 1];
      assert (a + b)[..|a + b| - 1] == a + b';
      TotalAppend(a, b');
    }
  }

  /** Replacing one entry changes the total by the difference of the two line amounts. */
  lemma TotalReplace(cart: seq<CartItem>, i: nat, c: CartItem)
    requires i < |cart|
    ensures Total(cart[i := c]) == Total(cart) - LineAmount(cart[i]) + LineAmount(c)
  {
    var pre, post := cart[..i], cart[i + 1..];
    assert cart == pre + [cart[i]] + post;
    assert cart[i := c] == pre + [c] + post;
    TotalAppend(pre + [cart[i]], post);
    TotalAppend(pre, [cart[i]]);
    TotalAppend(pre + [c], post);
    TotalAppend(pre, [c]);
    assert Total([c]) == LineAmount(c) by { assert [c][..0] == []; }
    assert Total([cart[i]]) == LineAmount(cart[i]) by { assert [cart[i]][..0] == []; }
  }

  function Max(a: int, b: int): int
  {
    if a >= b then a else b
  }

  /**
   * `updateQuantity(index, change)`: copies the cart, sets the entry's
   * quantity to max(1, (quantity || 1) + change) in the copy, and recomputes
   * the total.
   */
  method UpdateQuantity(cart: seq<CartItem>, index: nat, change: int) returns (next: seq<CartItem>, total: int)
    requires index < |cart|
    ensures |next| == |cart|
    ensures forall j :: 0 <= j < |cart| && j != index ==> next[j] == cart[j]
    ensures next[index] == cart[index].(quantity := Max(1, Qty(cart[index].quantity) + change))
    ensures next[index].quantity >= 1
    ensures total == Total(next)
    ensures total == Total(cart) - LineAmount(cart[index]) + cart[index].price * next[index].quantity
  {
    var copy := new CartItem[|cart|](j requires 0 <= j < |cart| => cart[j]);
    copy[index] := copy[index].(quantity := Max(1, Qty(copy[index].quantity) + change));
    next := copy[..];
    assert next == cart[index := next[index]];
    TotalReplace(cart, index, next[index]);
    total := Total(next);
  }

  /** The cart button's count, `cart.reduce((acc, i) => acc + i.quantity, 0)`. */
  function Count(cart: seq<CartItem>): int
    decreases |cart|
  {
    if cart == [] then 0 else Count(cart[..|cart| - 1]) + cart[|cart| - 1].quantity
  }

  /** How many entries satisfy `same`. */
  function Occurrences(cart: seq<CartItem>, same: CartItem -> bool): nat
    decreases |cart|
  {
    if cart == [] then 0
    else Occurrences(cart[..|cart| - 1], same) + (if same(cart[|cart| - 1]) then 1 else 0)
  }

  /** The `map` that adds one to the quantity of each entry satisfying `same`. */
  function Bump(cart: seq<CartItem>, same: CartItem -> bool): (r: seq<CartItem>)
    ensures |r| == |cart|
    ensures forall j :: 0 <= j < |cart| ==>
              r[j] == (if same(cart[j]) then cart[j].(quantity := cart[j].quantity + 1) else cart[j])
  {
    seq(|cart|, j requires 0 <= j < |cart| =>
      if same(cart[j]) then cart[j].(quantity := cart[j].quantity + 1) else cart[j])
  }

  /** Bumping raises the count by the number of bumped entries. */
  lemma {:induction false} BumpCount(cart: seq<CartItem>, same: CartItem -> bool)
    ensures Count(Bump(cart, same)) == Count(cart) + Occurrences(cart, same)
    decreases |cart|
  {
    if cart != [] {
      var init := cart[..|cart| - 1];
      assert Bump(cart, same)[..|cart| - 1] == Bump(init, same);
      BumpCount(init, same);
    }
  }

  /**
   * How a page recognises an existing entry: CustomerDashboard.js by item id,
   * CustomerMenu.js by item id and vendor id.
   */
  datatype Keying = ById | ByIdAndVendor

  /** The identity of an entry under a keying; it never depends on the quantity. */
  function Key(k: Keying, c: CartItem): (Id, Option<Id>)
  {
    match k
    case ById => (c.id, None)
    case ByIdAndVendor => (c.id, c.vendorId)
  }

  /** No two entries share a key. */
  ghost predicate UniqueKeys(cart: seq<CartItem>, k: Keying)
  {
    forall i, j :: 0 <= i < j < |cart| ==> Key(k, cart[i]) != Key(k, cart[j])
  }

  /** Whether some entry has the same key as `entry` (the `find`). */
  predicate Holds(cart: seq<CartItem>, k: Keying, entry: CartItem)
  {
    exists j :: 0 <= j < |cart| && Key(k, cart[j]) == Key(k, entry)
  }

  /** Under unique keys, exactly one entry has the key of an entry that is held. */
  lemma {:induction false} OccurrencesOfHeld(cart: seq<CartItem>, k: Keying, entry: CartItem)
    requires UniqueKeys(cart, k)
    ensures Occurrences(cart, c => Key(k, c) == Key(k, entry)) == (if Holds(cart, k, entry) then 1 else 0)
    decreases |cart|
  {
    if cart != [] {
      var init := cart[..|cart| - 1];
      assert UniqueKeys(init, k);
      OccurrencesOfHeld(init, k, entry);
      if Key(k, cart[|cart| - 1]) == Key(k, entry) {
        assert !Holds(init, k, entry);
      } else {
        assert Holds(cart, k, entry) <==> Holds(init, k, entry) by {
          if Holds(cart, k, entry) {
            var j :| 0 <= j < |cart| && Key(k, cart[j]) == Key(k, entry);
            assert init[j] == cart[j];
          }
        }
      }
    }
  }

  /**
   * The `addToCart` shape both pages share: when an entry with the new
   * entry's key is already there, every such entry's quantity goes up by
   * one (the `map`); otherwise the entry is appended.
   */
  function Add(cart: seq<CartItem>, entry: CartItem, k: Keying): (r: seq<CartItem>)
    ensures Holds(cart, k, entry) ==>
              |r| == |cart| && forall j :: 0 <= j < |cart| ==>
                r[j] == (if Key(k, cart[j]) == Key(k, entry) then cart[j].(quantity := cart[j].quantity + 1) else cart[j])
    ensures !Holds(cart, k, entry) ==> r == cart + [entry]
  {
    if Lists.FirstIndex(cart, c => Key(k, c) == Key(k, entry)) >= 0 then Bump(cart, c => Key(k, c) == Key(k, entry))
    else cart + [entry]
  }

  /** Adding keeps keys unique. */
  lemma AddKeepsKeysUnique(cart: seq<CartItem>, entry: CartItem, k: Keying)
    requires UniqueKeys(cart, k)
    ensures UniqueKeys(Add(cart, entry, k), k)
  {
    var r := Add(cart, entry, k);
    if Holds(cart, k, entry) {
      forall i, j | 0 <= i < j < |r| ensures Key(k, r[i]) != Key(k, r[j]) {
        assert Key(k, r[i]) == Key(k, cart[i]) && Key(k, r[j]) == Key(k, cart[j]);
      }
    }
  }

  /** With unique keys, adding raises the count by one when the key is held, else by the entry's quantity. */
  lemma AddCount(cart: seq<CartItem>, entry: CartItem, k: Keying)
    requires UniqueKeys(cart, k)
    ensures Count(Add(cart, entry, k)) == Count(cart) + (if Holds(cart, k, entry) then 1 else entry.quantity)
  {
    if Holds(cart, k, entry) {
      var same := c => Key(k, c) == Key(k, entry);
      assert Add(cart, entry, k) == Bump(cart, same);
      BumpCount(cart, same);
      OccurrencesOfHeld(cart, k, entry);
    } else {
      var r := cart + [entry];
      assert r[..|r| - 1] == cart;
    }
  }

  /** CustomerDashboard.js `addToCart(item)`: the item with quantity 1, merged by id. */
  function AddById(cart: seq<CartItem>, item: CartItem): (r: seq<CartItem>)
    ensures (exists j :: 0 <= j < |cart| && cart[j].id == item.id) ==>
              |r| == |cart| && forall j :: 0 <= j < |cart| ==>
                r[j] == (if cart[j].id == item.id then cart[j].(quantity := cart[j].quantity + 1) else cart[j])
    ensures (forall j :: 0 <= j < |cart| ==> cart[j].id != item.id) ==> r == cart + [item.(quantity := 1)]
  {
    Add(cart, item.(quantity := 1), ById)
  }

  /**
   * CustomerMenu.js `addToCart(item, vendorId)`: the item with the vendor id
   * attached and quantity 1, merged by (id, vendor id).
   */
  function AddByIdAndVendor(cart: seq<CartItem>, item: CartItem, vendorId: Id): (r: seq<CartItem>)
    ensures (exists j :: 0 <= j < |cart| && cart[j].id == item.id && cart[j].vendorId == Some(vendorId)) ==>
              |r| == |cart| && forall j :: 0 <= j < |cart| ==>
                r[j] == (if cart[j].id == item.id && cart[j].vendorId == Some(vendorId)
                         then cart[j].(quantity := cart[j].quantity + 1) else cart[j])
    ensures (forall j :: 0 <= j < |cart| ==> !(cart[j].id == item.id && cart[j].vendorId == Some(vendorId))) ==>
              r == cart + [item.(vendorId := Some(vendorId), quantity := 1)]
  {
    Add(cart, item.(vendorId := Some(vendorId), quantity := 1), ByIdAndVendor)
  }

  /** On a cart without repeated ids, adding an item keeps ids unique and raises the count by exactly one. */
  lemma AddByIdCount(cart: seq<CartItem>, item: CartItem)
    requires UniqueKeys(cart, ById)
    ensures UniqueKeys(AddById(cart, item), ById)
    ensures Count(AddById(cart, item)) == Count(cart) + 1
  {
    AddKeepsKeysUnique(cart, item.(quantity := 1), ById);
    AddCount(cart, item.(quantity := 1), ById);
  }

  /** The same for CustomerMenu.js, with (id, vendor id) as the key. */
  lemma AddByIdAndVendorCount(cart: seq<CartItem>, item: CartItem, vendorId: Id)
    requires UniqueKeys(cart, ByIdAndVendor)
    ensures UniqueKeys(AddByIdAndVendor(cart, item, vendorId), ByIdAndVendor)
    ensures Count(AddByIdAndVendor(cart, item, vendorId)) == Count(cart) + 1
  {
    var entry := item.(vendorId := Some(vendorId), quantity := 1);
    AddKeepsKeysUnique(cart, entry, ByIdAndVendor);
    AddCount(cart, entry, ByIdAndVendor);
  }

  /** The same item id from a second vendor becomes a separate entry. */
  lemma SameItemOtherVendorSeparate(item: CartItem, v1: Id, v2: Id)
    requires v1 != v2
    ensures var r := AddByIdAndVendor(AddByIdAndVendor([], item, v1), item, v2);
            |r| == 2 && r[0].vendorId == Some(v1) && r[1].vendorId == Some(v2)
            && r[0].quantity == 1 && r[1].quantity == 1
  {
    var one := AddByIdAndVendor([], item, v1);
    assert one == [item.(vendorId := Some(v1), quantity := 1)];
  }

  /** CustomerMenu.js's displayed amount `price * quantity`, which matches the checkout line once a quantity is set. */
  function ShownAmount(c: CartItem): (a: int)
    ensures c.quantity != 0 ==> a == LineAmount(c)
  {
    c.price * c.quantity
  }

  /** The order items the checkout sends: name and price copied, quantity defaulting to 1. */
  function OrderItems(cart: seq<CartItem>): (items: seq<LineItem>)
    ensures |items| == |cart|
    ensures forall j :: 0 <= j < |cart| ==>
              items[j] == LineItem(cart[j].itemName, Some(cart[j].price), Some(Qty(cart[j].quantity)))
  {
    seq(|cart|, j requires 0 <= j < |cart| =>
      LineItem(cart[j].itemName, Some(cart[j].price), Some(Qty(cart[j].quantity))))
  }

  /** The server prices the sent items at exactly the client's total. */
  lemma {:induction false} ServerTotalAgrees(cart: seq<CartItem>)
    ensures OL.Total(OrderItems(cart)) == Some(Total(cart))
    decreases |cart|
  {
    if cart != [] {
      var init := cart[..|cart| - 1];
      assert OrderItems(cart)[..|cart| - 1] == OrderItems(init);
      ServerTotalAgrees(init);
    }
  }

  /** Where `handlePayment` stops, or the payment it opens and the order it will post. */
  datatype Checkout =
    | BlankAddress
    | EmptyCart
    | SdkUnavailable
    | LoginRequired
    | Proceed(amount: int, request: OL.OrderRequest)

  /**
   * `handlePayment`: a blank address, then an empty cart, then a failed SDK
   * load, then a missing user id or token each stop it; otherwise the payment
   * is for the total in paise and its success handler posts the order with
   * the client's total and payment status "Paid".
   */
  function HandlePayment(address: string, cart: seq<CartItem>, vendorId: string, sdkLoaded: bool,
                         userId: Option<Id>, token: Option<string>): (c: Checkout)
    ensures Text.Blank(address) ==> c == BlankAddress
    ensures !Text.Blank(address) && cart == [] ==> c == EmptyCart
    ensures !Text.Blank(address) && cart != [] && !sdkLoaded ==> c == SdkUnavailable
    ensures !Text.Blank(address) && cart != [] && sdkLoaded && (!Truthy(userId) || !Truthy(token)) ==> c == LoginRequired
    ensures c.Proceed? <==> !Text.Blank(address) && cart != [] && sdkLoaded && Truthy(userId) && Truthy(token)
    ensures c.Proceed? ==> && c.amount == Total(cart) * 100
                           && c.request.vendorId == vendorId
                           && c.request.items == Some(OrderItems(cart))
                           && c.request.clientTotal == Some(Total(cart))
                           && c.request.clientPaymentStatus == Some("Paid")
                           && c.request.deliveryAddress == Some(address)
  {
    if Text.Blank(address) then BlankAddress
    else if cart == [] then EmptyCart
    else if !sdkLoaded then SdkUnavailable
    else if !Truthy(userId) || !Truthy(token) then LoginRequired
    else
      var total := Total(cart);
      Proceed(total * 100, OL.OrderRequest(vendorId, Some(OrderItems(cart)), Some(total), Some("Paid"), Some(address)))
  }

  /**
   * An order the checkout posts is stored at the cart's total but as
   * Pending: the server ignores the client's "Paid".
   */
  lemma {:induction false} CheckoutOrderPending(address: string, cart: seq<CartItem>, vendorId: string, userId: Id, token: string,
                                                id: Id, now: nat)
    requires HandlePayment(address, cart, vendorId, true, Some(userId), Some(token)).Proceed?
    requires vendorId != ""
    requires forall j :: 0 <= j < |cart| ==> cart[j].itemName != ""
    ensures var req := HandlePayment(address, cart, vendorId, true, Some(userId), Some(token)).request;
            var o := Validate(id, OL.PlaceOrder(userId, req, true).value, now);
            && o.Ok?
            && o.value.totalPrice == Total(cart)
            && o.value.paymentStatus == Pending
            && o.value.status == Ordered
  {
    var req := HandlePayment(address, cart, vendorId, true, Some(userId), Some(token)).request;
    assert req.items == Some(OrderItems(cart));
    ServerTotalAgrees(cart);
    var d := OL.PlaceOrder(userId, req, true);
    assert d.Ok? && d.value.totalPrice == Some(Total(cart));
    assert DraftValid(d.value);
  }

  /** The cart after the order request: emptied when the order was placed, kept otherwise. */
  function AfterOrder(cart: seq<CartItem>, placed: bool): (r: seq<CartItem>)
    ensures placed ==> r == [] && Total(r) == 0 && Count(r) == 0
    ensures !placed ==> r == cart
  {
    if placed then [] else cart
  }
}
