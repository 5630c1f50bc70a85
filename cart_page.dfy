/**
 * The cart page script: quantity changes and removal on the stored cart,
 * the order summary with its fixed shipping fee, the page's own promo
 * table, and the order it posts.
 */
module CartPage {
  import opened Wrappers
  import opened Text
  import opened ClientCart

  const Shipping: real := 50.0

  datatype Summary = Summary(subtotal: real, tax: real, discount: real, total: real)

  /**
   * `updateOrderSummary`: 13% tax and the promo discount are both taken on
   * the undiscounted subtotal, and the 50 shipping fee is always added.
   */
  function OrderSummary(subtotal: real, rate: real): (r: Summary)
    ensures r.subtotal == subtotal && r.tax == subtotal * (13.0 / 100.0) && r.discount == subtotal * rate
    ensures r.total == r.subtotal + Shipping + r.tax - r.discount
    ensures r.total == Shipping + subtotal * (113.0 / 100.0 - rate)
  {
    var tax := subtotal * (13.0 / 100.0);
    var discount := subtotal * rate;
    Summary(subtotal, tax, discount, subtotal + Shipping + tax - discount)
  }

  /** With nothing in the cart the total is the shipping fee alone. */
  lemma EmptyCartPaysShipping(rate: real)
    ensures OrderSummary(CartSubtotal([]), rate).total == Shipping
  {
  }

  /**
   * `applyPromoCode`'s table, looked up with the upper-cased code as typed
   * (no trimming); a code that is not in it gives rate 0.
   */
  function CartPromoRate(typed: string): (rate: real)
    ensures Upper(typed) == "WELCOME10" ==> rate == 10.0 / 100.0
    ensures Upper(typed) == "SAVE20" ==> rate == 20.0 / 100.0
    ensures Upper(typed) == "FREESHIP" ==> rate == 5.0 / 100.0
    ensures Upper(typed) !in {"WELCOME10", "SAVE20", "FREESHIP"} ==> rate == 0.0
  {
    var code := Upper(typed);
    if code == "WELCOME10" then 10.0 / 100.0
    else if code == "SAVE20" then 20.0 / 100.0
    else if code == "FREESHIP" then 5.0 / 100.0
    else 0.0
  }

  /** A code typed with a leading space is never found, since the page does not trim it. */
  lemma PaddedCodeRefused(code: string)
    ensures CartPromoRate(" " + code) == 0.0
  {
    assert Upper(" " + code)[0] == ' ';
  }

  /** `cart.splice(index, 1)`: a negative index counts from the end; one past the end removes nothing. */
  function SpliceOne(cart: seq<CartItem>, index: int): (r: seq<CartItem>)
    ensures 0 <= index < |cart| ==> r == cart[..index] + cart[index + 1..]
    ensures index >= |cart| ==> r == cart
    ensures -|cart| <= index < 0 ==> r == cart[..|cart| + index] + cart[|cart| + index + 1..]
    ensures index < -|cart| ==> r == if cart == [] then [] else cart[1..]
  {
    var pos := if index < 0 then (if index + |cart| < 0 then 0 else index + |cart|) else index;
    if pos < |cart| then cart[..pos] + cart[pos + 1..] else cart
  }

  /** Removing a line takes exactly its quantity off the count. */
  lemma CountSplice(cart: seq<CartItem>, index: int)
    requires 0 <= index < |cart|
    ensures CartCount(SpliceOne(cart, index)) == CartCount(cart) - cart[index].quantity
  {
    var front, back := cart[..index], cart[index + 1..];
    assert cart == (front + [cart[index]]) + back;
    assert SpliceOne(cart, index) == front + back;
    CountConcat(front + [cart[index]], back);
    CountAppend(front, cart[index]);
    CountConcat(front, back);
  }

  /** Removing position `index` exactly: the lines before it stay put, the ones after move up by one. */
  lemma SpliceKeepsOrder(cart: seq<CartItem>, index: int)
    requires 0 <= index < |cart|
    ensures |SpliceOne(cart, index)| == |cart| - 1
    ensures forall k :: 0 <= k < |cart| - 1 ==> SpliceOne(cart, index)[k] == if k < index then cart[k] else cart[k + 1]
  {
  }

  /** The body the cart page posts; the address goes as typed, untrimmed. */
  datatype CartPayload = CartPayload(userId: int, deliveryAddress: string, items: seq<(int, int)>,
                                     subtotal: real, tax: real, total: real,
                                     promoCode: Option<string>, paymentMethod: string)

  function ItemPairs(cart: seq<CartItem>): (r: seq<(int, int)>)
    ensures |r| == |cart| && forall k :: 0 <= k < |cart| ==> r[k] == (cart[k].productId, cart[k].quantity)
  {
    if cart == [] then [] else ItemPairs(cart[..|cart| - 1]) + [(cart[|cart| - 1].productId, cart[|cart| - 1].quantity)]
  }

  /** The page's globals: the stored cart and the promo rate. */
  class Cart {
    var cart: seq<CartItem>
    var promoDiscount: real

    constructor (saved: seq<CartItem>)
      ensures cart == saved && promoDiscount == 0.0
    {
      cart := saved;
      promoDiscount := 0.0;
    }

    function Summary(): (r: Summary)
      reads this`cart, this`promoDiscount
      ensures r == OrderSummary(CartSubtotal(cart), promoDiscount)
    {
      OrderSummary(CartSubtotal(cart), promoDiscount)
    }

    /** `removeItem`: only a confirmed removal changes the cart. */
    method RemoveItem(index: int, confirmed: bool)
      modifies this`cart
      ensures cart == if confirmed then SpliceOne(old(cart), index) else old(cart)
    {
      if confirmed {
        cart := SpliceOne(cart, index);
      }
    }

    /**
     * `updateQuantity`: a quantity that would drop below 1 takes the
     * removal path instead; otherwise that line's quantity changes and the
     * count by exactly `change`.
     */
    method UpdateQuantity(index: int, change: int, confirmed: bool)
      requires 0 <= index < |cart|
      modifies this`cart
      ensures old(cart)[index].quantity + change < 1 ==>
                cart == if confirmed then old(cart)[..index] + old(cart)[index + 1..] else old(cart)
      ensures old(cart)[index].quantity + change >= 1 ==>
                && cart == old(cart)[index := old(cart)[index].(quantity := old(cart)[index].quantity + change)]
                && CartCount(cart) == CartCount(old(cart)) + change
    {
      var q := cart[index].quantity + change;
      if q < 1 {
        RemoveItem(index, confirmed);
        return;
      }
      CountUpdate(cart, index, q);
      cart := cart[index := cart[index].(quantity := q)];
    }

    method ApplyPromoCode(typed: string) returns (summary: Summary)
      modifies this`promoDiscount
      ensures promoDiscount == CartPromoRate(typed)
      ensures summary == OrderSummary(CartSubtotal(cart), promoDiscount)
    {
      promoDiscount := CartPromoRate(typed);
      summary := OrderSummary(CartSubtotal(cart), promoDiscount);
    }

    /**
     * `placeOrder`: a logged-in user and a non-blank address, then the body
     * with the summary's own figures; `response` is the server's answer
     * (the new order's id, or the error text).  Only success empties the
     * cart; the promo rate stays.
     */
    method PlaceOrder(user: Option<int>, address: string, promoField: string, paymentMethod: string,
                      response: Result<int, string>) returns (sent: Option<CartPayload>, message: string)
      modifies this`cart
      ensures user.None? ==> sent == None && message == "Please login to place an order"
      ensures user.Some? && JsTrim(address) == "" ==> sent == None && message == "Please enter your delivery address"
      ensures sent.None? ==> cart == old(cart)
      ensures user.Some? && JsTrim(address) != "" ==>
                var s := OrderSummary(CartSubtotal(old(cart)), promoDiscount);
                && sent == Some(CartPayload(user.value, address, ItemPairs(old(cart)), s.subtotal, s.tax, s.total,
                                            if promoField == "" then None else Some(promoField), paymentMethod))
                && (response.Ok? ==> cart == [] && message == "Order placed successfully! Order ID: " + IntToString(response.value))
                && (response.Err? ==> cart == old(cart) && message == "Order failed: " + response.error)
    {
      if user.None? {
        return None, "Please login to place an order";
      }
      if JsTrim(address) == "" {
        return None, "Please enter your delivery address";
      }
      var s := OrderSummary(CartSubtotal(cart), promoDiscount);
      sent := Some(CartPayload(user.value, address, ItemPairs(cart), s.subtotal, s.tax, s.total,
                               if promoField == "" then None else Some(promoField), paymentMethod));
      if response.Ok? {
        cart := [];
        message := "Order placed successfully! Order ID: " + IntToString(response.value);
      } else {
        message := "Order failed: " + response.error;
      }
    }
  }
}
