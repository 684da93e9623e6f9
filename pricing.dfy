/** The arithmetic of the checkout: the order total
    `sum(int(item['product_price']) * int(item['jumlah']) for item in cart_items)`
    and the `dipesan` line built for each cart item.
 */
module Pricing {
  import opened Coerce
  import opened Rows
  import opened Reorderings

  /** `int(item['product_price']) * int(item['jumlah'])`, None where either raises. */
  function Subtotal(item: CartItem): (r: Option<int>)
    ensures r.Some? <==> Convertible(item)
  {
    match (ToInt(item.productPrice), ToInt(item.jumlah))
    case (Some(p), Some(q)) => Some(p * q)
    case _ => None
  }

  /** Both numeric fields of an item go through `int()`. */
  predicate Convertible(item: CartItem) {
    ToInt(item.productPrice).Some? && ToInt(item.jumlah).Some?
  }

  predicate AllConvertible(cart: seq<CartItem>) {
    forall k :: 0 <= k < |cart| ==> Convertible(cart[k])
  }

  /** Adding two partial sums; an exception in either one wins. */
  function AddOpt(a: Option<int>, b: Option<int>): Option<int> {
    if a.Some? && b.Some? then Some(a.value + b.value) else None
  }

  /** The generator `sum` of line 282: None when some `int()` raises. */
  function CartTotal(cart: seq<CartItem>): (r: Option<int>)
    ensures r.Some? <==> AllConvertible(cart)
  {
    if cart == [] then Some(0)
    else AddOpt(Subtotal(cart[0]), CartTotal(cart[1..]))
  }

  /** The `dipesan` row built for one cart item of order `pesananId`. */
  function ItemLine(item: CartItem, pesananId: nat, userId: string): (l: OrderLine)
    requires Convertible(item)
    ensures l.pesananId == pesananId && l.productsId == item.productId && l.userId == userId
    ensures Subtotal(item) == Some(l.jumlah * l.harga)
  {
    OrderLine(pesananId, item.productId, ToInt(item.jumlah).value, ToInt(item.productPrice).value, userId)
  }

  /** `dipesan_to_insert`: one line per cart item, in cart order. */
  function CartLines(cart: seq<CartItem>, pesananId: nat, userId: string): (r: seq<OrderLine>)
    requires AllConvertible(cart)
    ensures |r| == |cart|
    ensures forall k :: 0 <= k < |cart| ==> r[k] == ItemLine(cart[k], pesananId, userId)
  {
    if cart == [] then []
    else [ItemLine(cart[0], pesananId, userId)] + CartLines(cart[1..], pesananId, userId)
  }

  /** The order total equals the sum of `jumlah * harga` over the lines written for it. */
  lemma {:induction false} LineSumIsCartTotal(cart: seq<CartItem>, pesananId: nat, userId: string)
    requires AllConvertible(cart)
    ensures CartTotal(cart) == Some(LineSum(CartLines(cart, pesananId, userId)))
  {
    if cart != [] {
      var lines := CartLines(cart, pesananId, userId);
      assert lines[1..] == CartLines(cart[1..], pesananId, userId);
      LineSumIsCartTotal(cart[1..], pesananId, userId);
    }
  }

  /** The sum of `int(item['jumlah'])` over the cart: how many pieces were ordered. */
  function CartQuantity(cart: seq<CartItem>): int
    requires AllConvertible(cart)
  {
    if cart == [] then 0 else ToInt(cart[0].jumlah).value + CartQuantity(cart[1..])
  }

  /** The `total_items` the order list later shows for the order is the number of
      pieces in the cart it was placed from. */
  lemma {:induction false} TotalItemsIsCartQuantity(cart: seq<CartItem>, pesananId: nat, userId: string)
    requires AllConvertible(cart)
    ensures TotalItems(CartLines(cart, pesananId, userId)) == CartQuantity(cart)
  {
    if cart != [] {
      var lines := CartLines(cart, pesananId, userId);
      assert lines[1..] == CartLines(cart[1..], pesananId, userId);
      TotalItemsIsCartQuantity(cart[1..], pesananId, userId);
    }
  }

  /** A worked cart: two pieces of P1 at 10000 and one piece of P2 at 5000. */
  function ExampleItems(): seq<CartItem> {
    [CartItem(JStr("P1"), JInt(10000), JInt(2)), CartItem(JStr("P2"), JInt(5000), JInt(1))]
  }

  /** The worked cart costs 25000 and gives two lines with quantities 2 and 1. */
  lemma ExampleCart(pesananId: nat, userId: string)
    ensures CartTotal(ExampleItems()) == Some(25000) && AllConvertible(ExampleItems())
    ensures CartLines(ExampleItems(), pesananId, userId) ==
              [OrderLine(pesananId, JStr("P1"), 2, 10000, userId), OrderLine(pesananId, JStr("P2"), 1, 5000, userId)]
  {
    var cart := ExampleItems();
    assert cart[1..] == [cart[1]] && cart[1..][1..] == [];
  }

  lemma {:induction false} CartTotalAppend(a: seq<CartItem>, b: seq<CartItem>)
    ensures CartTotal(a + b) == AddOpt(CartTotal(a), CartTotal(b))
  {
    if a == [] {
      assert a + b == b;
    } else {
      assert (a + b)[1..] == a[1..] + b;
      CartTotalAppend(a[1..], b);
    }
  }

  /** Taking one item out of the middle of the cart takes its subtotal out of the total. */
  lemma {:induction false} CartTotalRemoveAt(b: seq<CartItem>, k: nat)
    requires k < |b|
    ensures CartTotal(b) == AddOpt(Subtotal(b[k]), CartTotal(b[..k] + b[k + 1..]))
  {
    if k == 0 {
      assert b[..0] + b[1..] == b[1..];
    } else {
      var tail := b[1..];
      var rest := tail[..k - 1] + tail[k..];
      assert b[..k] == [b[0]] + tail[..k - 1];
      assert b[k + 1..] == tail[k..];
      var c := b[..k] + b[k + 1..];
      assert c == [b[0]] + rest;
      assert c[0] == b[0] && c[1..] == rest;
      CartTotalRemoveAt(tail, k - 1);
      AddOptShuffle(Subtotal(b[k]), Subtotal(b[0]), CartTotal(rest));
    }
  }

  lemma AddOptShuffle(a: Option<int>, b: Option<int>, c: Option<int>)
    ensures AddOpt(AddOpt(a, b), c) == AddOpt(b, AddOpt(a, c))
  {
  }

  /** The total does not depend on the order of the cart items. */
  lemma {:induction false} CartTotalPermutation(a: seq<CartItem>, b: seq<CartItem>)
    requires multiset(a) == multiset(b)
    ensures CartTotal(a) == CartTotal(b)
  {
    if a == [] {
      assert |b| == |multiset(b)| == 0;
    } else {
      var k := MatchFirst(a, b);
      CartTotalPermutation(a[1..], b[..k] + b[k + 1..]);
      CartTotalRemoveAt(b, k);
    }
  }
}
