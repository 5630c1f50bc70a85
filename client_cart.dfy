/**
 * The cart the browser pages keep in local storage: one entry per line,
 * with the product's id, name, price, quantity and store.  The pages share
 * its shape and its two sums.
 */
module ClientCart {
  import opened Wrappers
  import opened Seqs

  datatype CartItem = CartItem(productId: int, name: string, price: real, quantity: int, storeId: Option<int>)

  /** JavaScript truthiness of a possibly-null id: `null` and `0` are false. */
  predicate Truthy(id: Option<int>)
  {
    id.Some? && id.value != 0
  }

  /** The number of items in the cart: the sum of the quantities, as the badge shows it. */
  function CartCount(cart: seq<CartItem>): int
  {
    if cart == [] then 0 else CartCount(cart[..|cart| - 1]) + cart[|cart| - 1].quantity
  }

  /** The sum of price times quantity over the lines. */
  function CartSubtotal(cart: seq<CartItem>): real
  {
    if cart == [] then 0.0
    else CartSubtotal(cart[..|cart| - 1]) + cart[|cart| - 1].price * cart[|cart| - 1].quantity as real
  }

  /** `cart.find(i => i.productId === productId)` as a position: the first line for the product, or -1. */
  function FirstWith(cart: seq<CartItem>, productId: int): (k: int)
    ensures -1 <= k < |cart|
    ensures k >= 0 ==> cart[k].productId == productId
    ensures forall j :: 0 <= j < |cart| && (k < 0 || j < k) ==> cart[j].productId != productId
  {
    if cart == [] then -1
    else if cart[0].productId == productId then 0
    else
      var k := FirstWith(cart[1..], productId);
      assert forall j :: 1 <= j < |cart| ==> cart[j] == cart[1..][j - 1];
      if k < 0 then -1 else k + 1
  }

  /** `cart.filter(i => i.productId !== productId)`. */
  function WithoutProduct(cart: seq<CartItem>, productId: int): (r: seq<CartItem>)
    ensures |r| <= |cart|
    ensures forall k :: 0 <= k < |r| ==> r[k].productId != productId && r[k] in cart
    ensures forall k :: 0 <= k < |cart| && cart[k].productId != productId ==> cart[k] in r
    ensures IsSubseq(r, cart)
  {
    if cart == [] then []
    else if cart[0].productId == productId then WithoutProduct(cart[1..], productId)
    else [cart[0]] + WithoutProduct(cart[1..], productId)
  }

  /** The count seen from the front: the first line's quantity plus the rest. */
  lemma {:induction false} CountFront(cart: seq<CartItem>)
    requires cart != []
    ensures CartCount(cart) == cart[0].quantity + CartCount(cart[1..])
    decreases |cart|
  {
    if |cart| > 1 {
      CountFront(cart[..|cart| - 1]);
      assert cart[..|cart| - 1][1..] == cart[1..][..|cart| - 2];
    }
  }

  /** Changing one line's quantity changes the count by the difference. */
  lemma {:induction false} CountUpdate(cart: seq<CartItem>, k: int, q: int)
    requires 0 <= k < |cart|
    ensures CartCount(cart[k := cart[k].(quantity := q)]) == CartCount(cart) - cart[k].quantity + q
    decreases |cart|
  {
    var c' := cart[k := cart[k].(quantity := q)];
    if k < |cart| - 1 {
      CountUpdate(cart[..|cart| - 1], k, q);
      assert c'[..|c'| - 1] == cart[..|cart| - 1][k := cart[k].(quantity := q)];
    } else {
      assert c'[..|c'| - 1] == cart[..|cart| - 1];
    }
  }

  /** Appending a line adds its quantity to the count. */
  lemma CountAppend(cart: seq<CartItem>, item: CartItem)
    ensures CartCount(cart + [item]) == CartCount(cart) + item.quantity
  {
    assert (cart + [item])[..|cart|] == cart;
  }

  /** The count of two carts joined is the sum of their counts. */
  lemma {:induction false} CountConcat(a: seq<CartItem>, b: seq<CartItem>)
    ensures CartCount(a + b) == CartCount(a) + CartCount(b)
    decreases |b|
  {
    if b == [] {
      assert a + b == a;
    } else {
      CountConcat(a, b[..|b| - 1]);
      assert (a + b)[..|a + b| - 1] == a + b[..|b| - 1];
    }
  }

  /** Removing a product's lines takes exactly their quantities off the count. */
  lemma {:induction false} CountWithout(cart: seq<CartItem>, productId: int)
    ensures CartCount(WithoutProduct(cart, productId)) == CartCount(cart) - QuantityOf(cart, productId)
  {
    if cart != [] {
      CountWithout(cart[1..], productId);
      CountFront(cart);
      if cart[0].productId != productId {
        CountFront(WithoutProduct(cart, productId));
        assert WithoutProduct(cart, productId)[1..] == WithoutProduct(cart[1..], productId);
      }
    }
  }

  /** The quantity of one product over all its lines. */
  function QuantityOf(cart: seq<CartItem>, productId: int): int
  {
    if cart == [] then 0
    else (if cart[0].productId == productId then cart[0].quantity else 0) + QuantityOf(cart[1..], productId)
  }
}
