/**
 * The shop page script: the one-store cart, the promo codes and totals,
 * the card checks (Luhn, expiry, brand, CVV) and the order pre-checks.
 */
module ShopPage {
  import opened Wrappers
  import opened Text
  import opened ClientCart
  import opened Seqs

  // ---------------------------------------------------------------------------
  // Cart operations.
  // ---------------------------------------------------------------------------

  /** `getCartStoreId`: the store of the first line that has one. */
  function CartStoreId(cart: seq<CartItem>): (r: Option<int>)
    ensures r.None? <==> forall k :: 0 <= k < |cart| ==> cart[k].storeId.None?
    ensures r.Some? ==> exists k :: 0 <= k < |cart| && cart[k].storeId == r
  {
    if cart == [] then None
    else if cart[0].storeId.Some? then cart[0].storeId
    else
      var r := CartStoreId(cart[1..]);
      assert forall k :: 1 <= k < |cart| ==> cart[k] == cart[1..][k - 1];
      r
  }

  /** Every line that names a store names the same one. */
  ghost predicate OneStore(cart: seq<CartItem>)
  {
    forall i, j :: 0 <= i < |cart| && 0 <= j < |cart| && cart[i].storeId.Some? && cart[j].storeId.Some? ==>
      cart[i].storeId == cart[j].storeId
  }

  /** No line names store 0, which JavaScript would read as no store. */
  ghost predicate NoZeroStore(cart: seq<CartItem>)
  {
    forall k :: 0 <= k < |cart| ==> cart[k].storeId != Some(0)
  }

  /** At most one line per product. */
  ghost predicate OneLinePerProduct(cart: seq<CartItem>)
  {
    forall i, j :: 0 <= i < j < |cart| ==> cart[i].productId != cart[j].productId
  }

  datatype AddOutcome = AddedToCart | OtherStore | NotEnoughStock

  datatype AddStep = AddStep(outcome: AddOutcome, cart: seq<CartItem>)

  /**
   * `addToCart`: refused when both the cart's store and the product's store
   * are set and differ; an existing line grows by one only within the
   * stock given; a new product is appended with quantity 1.
   */
  function AddToCartStep(cart: seq<CartItem>, productId: int, name: string, price: real, stock: int,
                         storeId: Option<int>): (r: AddStep)
    ensures r.outcome == OtherStore <==> Truthy(CartStoreId(cart)) && Truthy(storeId) && CartStoreId(cart) != storeId
    ensures r.outcome == NotEnoughStock <==>
              && !(Truthy(CartStoreId(cart)) && Truthy(storeId) && CartStoreId(cart) != storeId)
              && FirstWith(cart, productId) >= 0 && cart[FirstWith(cart, productId)].quantity + 1 > stock
    ensures r.outcome != AddedToCart ==> r.cart == cart
    ensures r.outcome == AddedToCart ==> CartCount(r.cart) == CartCount(cart) + 1
    ensures r.outcome == AddedToCart && FirstWith(cart, productId) >= 0 ==>
              var k := FirstWith(cart, productId);
              r.cart == cart[k := cart[k].(quantity := cart[k].quantity + 1)] && r.cart[k].quantity <= stock
    ensures r.outcome == AddedToCart && FirstWith(cart, productId) < 0 ==>
              r.cart == cart + [CartItem(productId, name, price, 1, storeId)]
  {
    var store := CartStoreId(cart);
    if Truthy(store) && Truthy(storeId) && store != storeId then AddStep(OtherStore, cart)
    else
      var k := FirstWith(cart, productId);
      if k >= 0 then
        if cart[k].quantity + 1 > stock then AddStep(NotEnoughStock, cart)
        else
          CountUpdate(cart, k, cart[k].quantity + 1);
          AddStep(AddedToCart, cart[k := cart[k].(quantity := cart[k].quantity + 1)])
      else
        CountAppend(cart, CartItem(productId, name, price, 1, storeId));
        AddStep(AddedToCart, cart + [CartItem(productId, name, price, 1, storeId)])
  }

  /**
   * With store ids that are real identity values (never 0), adding keeps
   * the cart to one store and to one line per product.
   */
  lemma AddKeepsOneStore(cart: seq<CartItem>, productId: int, name: string, price: real, stock: int,
                         storeId: Option<int>)
    requires OneStore(cart) && NoZeroStore(cart) && OneLinePerProduct(cart) && storeId != Some(0)
    ensures var r := AddToCartStep(cart, productId, name, price, stock, storeId).cart;
            OneStore(r) && NoZeroStore(r) && OneLinePerProduct(r)
  {
    var r := AddToCartStep(cart, productId, name, price, stock, storeId);
    if r.outcome == AddedToCart && FirstWith(cart, productId) < 0 && storeId.Some? {
      if CartStoreId(cart).Some? {
        var k :| 0 <= k < |cart| && cart[k].storeId == CartStoreId(cart);
        assert cart[k].storeId == storeId;
      }
    }
  }

  /** `decQty`: one fewer of the product's first line; at zero or below every line of it goes. */
  function DecStep(cart: seq<CartItem>, productId: int): (r: seq<CartItem>)
    ensures FirstWith(cart, productId) < 0 ==> r == cart
    ensures var k := FirstWith(cart, productId);
            k >= 0 ==> if cart[k].quantity - 1 <= 0 then r == WithoutProduct(cart, productId)
                       else r == cart[k := cart[k].(quantity := cart[k].quantity - 1)]
    ensures var k := FirstWith(cart, productId);
            k >= 0 && cart[k].quantity - 1 > 0 ==> CartCount(r) == CartCount(cart) - 1
    ensures FirstWith(cart, productId) >= 0 && cart[FirstWith(cart, productId)].quantity - 1 <= 0 ==>
              CartCount(r) == CartCount(cart) - QuantityOf(cart, productId) && (forall k :: 0 <= k < |r| ==> r[k].productId != productId)
              && IsSubseq(r, cart)
  {
    var k := FirstWith(cart, productId);
    if k < 0 then cart
    else if cart[k].quantity - 1 <= 0 then
      CountWithout(cart, productId);
      WithoutProduct(cart, productId)
    else
      CountUpdate(cart, k, cart[k].quantity - 1);
      cart[k := cart[k].(quantity := cart[k].quantity - 1)]
  }

  /** `incQty`: one more of the product's first line, with no stock check. */
  function IncStep(cart: seq<CartItem>, productId: int): (r: seq<CartItem>)
    ensures FirstWith(cart, productId) < 0 ==> r == cart
    ensures var k := FirstWith(cart, productId);
            k >= 0 ==> r == cart[k := cart[k].(quantity := cart[k].quantity + 1)] && CartCount(r) == CartCount(cart) + 1
  {
    var k := FirstWith(cart, productId);
    if k < 0 then cart
    else
      CountUpdate(cart, k, cart[k].quantity + 1);
      cart[k := cart[k].(quantity := cart[k].quantity + 1)]
  }

  // ---------------------------------------------------------------------------
  // Promo codes and totals.
  // ---------------------------------------------------------------------------

  datatype Promo = Promo(rate: real, message: string)

  /** `applyPromo`: the trimmed, upper-cased code picks the rate; an unknown code resets it. */
  function PromoFor(input: Option<string>): (p: Promo)
    ensures var code := Upper(JsTrim(input.GetOr("")));
            && (code == "NEPAL10" ==> p.rate == 10.0 / 100.0)
            && (code == "FREESHIP" ==> p.rate == 5.0 / 100.0)
            && (code != "NEPAL10" && code != "FREESHIP" ==> p.rate == 0.0)
            && (code == "" ==> p.message == "Promo cleared.")
            && (code !in {"", "NEPAL10", "FREESHIP"} ==> p.message == "Invalid promo code.")
    ensures 0.0 <= p.rate < 1.0
  {
    var code := Upper(JsTrim(input.GetOr("")));
    if code == "" then Promo(0.0, "Promo cleared.")
    else if code == "NEPAL10" then Promo(10.0 / 100.0, "Applied NEPAL10 (10% off subtotal).")
    else if code == "FREESHIP" then Promo(5.0 / 100.0, "Applied FREESHIP (5% off subtotal).")
    else Promo(0.0, "Invalid promo code.")
  }

  const TaxRate: real := 13.0 / 100.0

  datatype Totals = Totals(subtotal: real, tax: real, total: real)

  /** `recalcTotals`: the discount comes off the subtotal first, tax is 13% of what is left. */
  function ShopTotals(cart: seq<CartItem>, rate: real): (t: Totals)
    ensures t.subtotal == CartSubtotal(cart) * (1.0 - rate)
    ensures t.total == t.subtotal + t.tax && t.tax == t.subtotal * TaxRate
    ensures t.total == CartSubtotal(cart) * (1.0 - rate) * (113.0 / 100.0)
  {
    var discounted := CartSubtotal(cart) * (1.0 - rate);
    Totals(discounted, discounted * TaxRate, discounted + discounted * TaxRate)
  }

  /** A larger discount never gives a larger total, for a cart whose lines cost nothing negative. */
  lemma DiscountNeverRaisesTotal(cart: seq<CartItem>, r1: real, r2: real)
    requires CartSubtotal(cart) >= 0.0 && r1 <= r2
    ensures ShopTotals(cart, r2).total <= ShopTotals(cart, r1).total
  {
    var s := CartSubtotal(cart);
    assert s * (1.0 - r2) <= s * (1.0 - r1) by {
      assert s * (1.0 - r1) - s * (1.0 - r2) == s * (r2 - r1);
    }
  }

  // ---------------------------------------------------------------------------
  // Card checks.
  // ---------------------------------------------------------------------------

  /** One digit's share of the Luhn sum: doubled, less nine above nine, on every second digit from the right. */
  function LuhnWeight(c: char, doubled: bool): (w: int)
    requires IsDigit(c)
    ensures 0 <= w <= 9
  {
    var n := DigitValue(c);
    if doubled then (if n * 2 > 9 then n * 2 - 9 else n * 2) else n
  }

  /** The Luhn sum: the rightmost digit counts once, its neighbour doubled, and so on. */
  function LuhnSum(s: string): int
    requires AllDigits(s)
  {
    if s == [] then 0 else LuhnWeight(s[0], (|s| - 1) % 2 == 1) + LuhnSum(s[1..])
  }

  /** What `luhnCheck` accepts: after deleting whitespace, 12 to 19 digits whose Luhn sum is a multiple of ten. */
  predicate LuhnValid(num: string)
  {
    var s := RemoveAll(num, IsJsSpace);
    12 <= |s| <= 19 && AllDigits(s) && LuhnSum(s) % 10 == 0
  }

  /** `luhnCheck`: the loop from the last digit to the first, doubling every second one. */
  method LuhnCheck(num: string) returns (ok: bool)
    ensures ok == LuhnValid(num)
  {
    var s := RemoveAll(num, IsJsSpace);
    if !(12 <= |s| <= 19 && AllDigits(s)) {
      return false;
    }
    var sum := 0;
    var alt := false;
    var i := |s|;
    while i > 0
      invariant 0 <= i <= |s|
      invariant sum == LuhnSum(s[i..])
      invariant alt == ((|s| - i) % 2 == 1)
    {
      i := i - 1;
      var n := DigitValue(s[i]);
      if alt {
        n := n * 2;
        if n > 9 {
          n := n - 9;
        }
      }
      assert n == LuhnWeight(s[i], alt);
      LuhnStep(s, i);
      Parity(|s| - 1 - i);
      sum := sum + n;
      alt := !alt;
    }
    ok := sum % 10 == 0;
  }

  lemma Parity(n: int)
    ensures ((n + 1) % 2 == 1) == !(n % 2 == 1)
  {
  }

  /** Peeling the digit at `i` off the suffix from `i`. */
  lemma LuhnStep(s: string, i: int)
    requires AllDigits(s) && 0 <= i < |s|
    ensures AllDigits(s[i..]) && AllDigits(s[i + 1..])
    ensures LuhnSum(s[i..]) == LuhnWeight(s[i], (|s| - 1 - i) % 2 == 1) + LuhnSum(s[i + 1..])
  {
    assert s[i..][1..] == s[i + 1..];
  }

  /** Replacing one digit changes the Luhn sum by the difference of that position's weights. */
  lemma {:induction false} LuhnChange(s: string, i: int, c: char)
    requires AllDigits(s) && 0 <= i < |s| && IsDigit(c)
    ensures AllDigits(s[i := c])
    ensures LuhnSum(s[i := c]) == LuhnSum(s) - LuhnWeight(s[i], (|s| - 1 - i) % 2 == 1) + LuhnWeight(c, (|s| - 1 - i) % 2 == 1)
  {
    var t := s[i := c];
    if i == 0 {
      assert t[1..] == s[1..];
    } else {
      assert t[1..] == s[1..][i - 1 := c];
      LuhnChange(s[1..], i - 1, c);
    }
  }

  /** The point of the check: mistyping any single digit of a valid number makes it invalid. */
  lemma SingleDigitErrorDetected(s: string, i: int, c: char)
    requires AllDigits(s) && 0 <= i < |s| && IsDigit(c) && c != s[i] && LuhnSum(s) % 10 == 0
    ensures AllDigits(s[i := c]) && LuhnSum(s[i := c]) % 10 != 0
  {
    var p := (|s| - 1 - i) % 2 == 1;
    LuhnChange(s, i, c);
    WeightsDiffer(c, s[i], p);
    ShiftBreaksMultiple(LuhnSum(s), LuhnWeight(c, p) - LuhnWeight(s[i], p));
  }

  /** Two different digits have different weights, doubled or not. */
  lemma WeightsDiffer(a: char, b: char, doubled: bool)
    requires IsDigit(a) && IsDigit(b) && a != b
    ensures LuhnWeight(a, doubled) != LuhnWeight(b, doubled)
  {
    assert DigitValue(a) != DigitValue(b);
  }

  /** Moving a multiple of ten by less than ten, but not by nothing, leaves a non-multiple. */
  lemma ShiftBreaksMultiple(x: int, d: int)
    requires x % 10 == 0 && -10 < d < 10 && d != 0
    ensures (x + d) % 10 != 0
  {
    var q := x / 10;
    assert x == 10 * q;
    assert x + d == 10 * q + d;
  }

  /** A local calendar time: year, month 1-12, day and milliseconds into the day. */
  datatype Moment = Moment(year: int, month: int, day: int, ms: int)

  /** `a` is strictly later than `b`. */
  predicate After(a: Moment, b: Moment)
  {
    a.year > b.year
    || (a.year == b.year && (a.month > b.month
    || (a.month == b.month && (a.day > b.day || (a.day == b.day && a.ms > b.ms)))))
  }

  predicate IsLeap(y: int)
  {
    y % 4 == 0 && (y % 100 != 0 || y % 400 == 0)
  }

  /** The last day of a month. */
  function LastDay(y: int, m: int): (d: int)
    requires 1 <= m <= 12
    ensures 28 <= d <= 31
  {
    if m == 2 then (if IsLeap(y) then 29 else 28)
    else if m == 4 || m == 6 || m == 9 || m == 11 then 30
    else 31
  }

  /** `new Date(year, mm, 0, 23, 59, 59)`: 23:59:59 on the last day of month `mm`. */
  function EndOfMonth(y: int, m: int): Moment
    requires 1 <= m <= 12
  {
    Moment(y, m, LastDay(y, m), 86_399_000)
  }

  datatype Expiry = Expiry(mm: int, yy: int)

  /** The shape `^(\d{2})\/(\d{2})$`. */
  predicate ExpShape(m: string)
  {
    |m| == 5 && IsDigit(m[0]) && IsDigit(m[1]) && m[2] == '/' && IsDigit(m[3]) && IsDigit(m[4])
  }

  /**
   * `parseExp`: two digits, a slash, two digits, a month from 1 to 12, and
   * 23:59:59 of that month's last day not before now; the two numbers
   * otherwise.
   */
  function ParseExp(input: Option<string>, now: Moment): (r: Option<Expiry>)
    ensures var m := JsTrim(input.GetOr(""));
            r.Some? <==> ExpShape(m) && ExpInTime(TwoDigitValue(m[0], m[1]), TwoDigitValue(m[3], m[4]), now)
    ensures r.Some? ==> 1 <= r.value.mm <= 12 && 0 <= r.value.yy <= 99
                        && JsTrim(input.GetOr("")) == TwoDigits(r.value.mm) + "/" + TwoDigits(r.value.yy)
  {
    var m := JsTrim(input.GetOr(""));
    if !ExpShape(m) then None
    else
      var mm := TwoDigitValue(m[0], m[1]);
      var yy := TwoDigitValue(m[3], m[4]);
      if !ExpInTime(mm, yy, now) then None
      else
        ExpText(m);
        Some(Expiry(mm, yy))
  }

  /** An expiry-shaped text is its two numbers written back with the slash between. */
  lemma ExpText(m: string)
    requires ExpShape(m)
    ensures m == TwoDigits(TwoDigitValue(m[0], m[1])) + "/" + TwoDigits(TwoDigitValue(m[3], m[4]))
  {
    assert m == [m[0], m[1]] + "/" + [m[3], m[4]];
  }

  /** A month from 1 to 12 whose last second, in 20yy, is not yet past. */
  predicate ExpInTime(mm: int, yy: int, now: Moment)
  {
    1 <= mm <= 12 && !After(now, EndOfMonth(2000 + yy, mm))
  }

  /** `parseInt` of two digits, written back by `TwoDigits`. */
  function TwoDigitValue(hi: char, lo: char): (v: int)
    requires IsDigit(hi) && IsDigit(lo)
    ensures 0 <= v < 100 && TwoDigits(v) == [hi, lo]
  {
    DigitValue(hi) * 10 + DigitValue(lo)
  }

  /** `cardBrand`, on the number with whitespace deleted. */
  function CardBrand(num: string): (b: string)
    ensures var s := RemoveAll(num, IsJsSpace);
            && (b == "VISA" <==> |s| >= 1 && s[0] == '4')
            && (b == "MASTERCARD" <==> |s| >= 2 && s[0] == '5' && '1' <= s[1] <= '5')
            && (b == "AMEX" <==> |s| >= 2 && s[0] == '3' && (s[1] == '4' || s[1] == '7'))
            && (b == "CARD" <==> !(|s| >= 1 && s[0] == '4') && !(|s| >= 2 && s[0] == '5' && '1' <= s[1] <= '5')
                                 && !(|s| >= 2 && s[0] == '3' && (s[1] == '4' || s[1] == '7')))
  {
    var s := RemoveAll(num, IsJsSpace);
    if |s| >= 1 && s[0] == '4' then "VISA"
    else if |s| >= 2 && s[0] == '5' && '1' <= s[1] <= '5' then "MASTERCARD"
    else if |s| >= 2 && s[0] == '3' && (s[1] == '4' || s[1] == '7') then "AMEX"
    else "CARD"
  }

  /** `^\d{3,4}$` on the trimmed CVV. */
  predicate CvvOk(cvv: Option<string>)
  {
    var t := JsTrim(cvv.GetOr(""));
    3 <= |t| <= 4 && AllDigits(t)
  }

  /** The last four characters; the whole text when shorter: `slice(-4)`. */
  function Last4(s: string): (r: string)
    ensures |r| == if |s| < 4 then |s| else 4
    ensures r == s[|s| - |r|..]
  {
    if |s| < 4 then s else s[|s| - 4..]
  }

  /** `validateCard`: the first failing check's message, or the brand and last four digits. */
  function ValidateCard(number: string, exp: Option<string>, cvv: Option<string>, now: Moment): (msg: string)
    ensures !LuhnValid(number) ==> msg == "Invalid card number."
    ensures LuhnValid(number) && ParseExp(exp, now).None? ==> msg == "Invalid expiry (MM/YY) or card expired."
    ensures LuhnValid(number) && ParseExp(exp, now).Some? && !CvvOk(cvv) ==> msg == "Invalid CVV."
    ensures LuhnValid(number) && ParseExp(exp, now).Some? && CvvOk(cvv) ==>
              msg == "Card looks valid (" + CardBrand(number) + " \U{2022}\U{2022}\U{2022}\U{2022} "
                     + Last4(RemoveAll(number, IsJsSpace)) + ")."
  {
    if !LuhnValid(number) then "Invalid card number."
    else if ParseExp(exp, now).None? then "Invalid expiry (MM/YY) or card expired."
    else if !CvvOk(cvv) then "Invalid CVV."
    else "Card looks valid (" + CardBrand(number) + " \U{2022}\U{2022}\U{2022}\U{2022} "
         + Last4(RemoveAll(number, IsJsSpace)) + ")."
  }

  // ---------------------------------------------------------------------------
  // Placing the order.
  // ---------------------------------------------------------------------------

  datatype CardInfo = CardInfo(brand: string, last4: string, expiry: string)

  datatype LineRequest = LineRequest(productId: int, quantity: int)

  /** The body `placeOrder` posts; the CVV is never part of it. */
  datatype ShopPayload = ShopPayload(userId: int, deliveryAddress: string, items: seq<LineRequest>,
                                     promoCode: Option<string>, paymentMethod: string, card: Option<CardInfo>)

  function LineRequests(cart: seq<CartItem>): (r: seq<LineRequest>)
    ensures |r| == |cart| && forall k :: 0 <= k < |cart| ==> r[k] == LineRequest(cart[k].productId, cart[k].quantity)
  {
    if cart == [] then [] else LineRequests(cart[..|cart| - 1]) + [LineRequest(cart[|cart| - 1].productId, cart[|cart| - 1].quantity)]
  }

  /** The card details `placeOrder` demands before a card order is sent. */
  predicate CardOk(number: string, exp: string, now: Moment)
  {
    LuhnValid(number) && ParseExp(Some(exp), now).Some?
  }

  /** The promo code sent: the trimmed, upper-cased field, or null when that is empty. */
  function PromoCode(promo: Option<string>): (r: Option<string>)
    ensures r.None? <==> JsTrim(promo.GetOr("")) == ""
    ensures r.Some? ==> r.value == Upper(JsTrim(promo.GetOr("")))
  {
    var code := Upper(JsTrim(promo.GetOr("")));
    if code == "" then None else Some(code)
  }

  /** The card summary sent with a card order: brand, last four digits, trimmed expiry. */
  function CardFor(paymentMethod: string, number: string, exp: string): (r: Option<CardInfo>)
    ensures r.Some? <==> paymentMethod == "CARD"
    ensures r.Some? ==> r.value == CardInfo(CardBrand(number), Last4(RemoveAll(number, IsJsSpace)), JsTrim(exp))
  {
    var clean := RemoveAll(number, IsJsSpace);
    RemoveAllNoSpace(clean);
    if paymentMethod == "CARD" then Some(CardInfo(CardBrand(clean), Last4(clean), JsTrim(exp))) else None
  }

  /**
   * The pre-checks of `placeOrder` and the body it then sends: a trimmed
   * address, a non-empty cart and, for card payment, a valid number and
   * expiry.
   */
  function OrderPayload(userId: int, address: string, cart: seq<CartItem>, promo: Option<string>,
                        paymentMethod: string, number: string, exp: string, now: Moment): (r: Result<ShopPayload, string>)
    ensures JsTrim(address) == "" ==> r == Err("Delivery address required")
    ensures JsTrim(address) != "" && cart == [] ==> r == Err("Cart is empty")
    ensures (JsTrim(address) != "" && cart != [] && paymentMethod == "CARD" && !CardOk(number, exp, now)) ==>
              r == Err("Please enter valid card details.")
    ensures r.Ok? <==> JsTrim(address) != "" && cart != [] && (paymentMethod == "CARD" ==> CardOk(number, exp, now))
    ensures r.Ok? ==> r.value == ShopPayload(userId, JsTrim(address), LineRequests(cart), PromoCode(promo), paymentMethod,
                                             CardFor(paymentMethod, number, exp))
  {
    var addr := JsTrim(address);
    if addr == "" then Err("Delivery address required")
    else if cart == [] then Err("Cart is empty")
    else if paymentMethod == "CARD" && !CardOk(number, exp, now) then Err("Please enter valid card details.")
    else Ok(ShopPayload(userId, addr, LineRequests(cart), PromoCode(promo), paymentMethod, CardFor(paymentMethod, number, exp)))
  }

  /** Deleting whitespace from a text without any changes nothing. */
  lemma {:induction false} RemoveAllNoSpace(s: string)
    requires forall i :: 0 <= i < |s| ==> !IsJsSpace(s[i])
    ensures RemoveAll(s, IsJsSpace) == s
  {
    if s != [] {
      RemoveAllNoSpace(s[1..]);
    }
  }

  // ---------------------------------------------------------------------------
  // The page state.
  // ---------------------------------------------------------------------------

  /** The page's globals: the cart and the promo rate. */
  class Shop {
    var cart: seq<CartItem>
    var promoDiscountRate: real

    /** The page starts from the stored cart with no promo. */
    constructor (saved: seq<CartItem>)
      ensures cart == saved && promoDiscountRate == 0.0
    {
      cart := saved;
      promoDiscountRate := 0.0;
    }

    method AddToCart(productId: int, name: string, price: real, stock: int, storeId: Option<int>)
      returns (outcome: AddOutcome)
      modifies this`cart
      ensures AddStep(outcome, cart) == AddToCartStep(old(cart), productId, name, price, stock, storeId)
    {
      var store := CartStoreId(cart);
      if Truthy(store) && Truthy(storeId) && store != storeId {
        return OtherStore;
      }
      var k := FirstWith(cart, productId);
      if k >= 0 {
        if cart[k].quantity + 1 > stock {
          return NotEnoughStock;
        }
        cart := cart[k := cart[k].(quantity := cart[k].quantity + 1)];
      } else {
        cart := cart + [CartItem(productId, name, price, 1, storeId)];
      }
      outcome := AddedToCart;
    }

    method DecQty(productId: int)
      modifies this`cart
      ensures cart == DecStep(old(cart), productId)
    {
      var k := FirstWith(cart, productId);
      if k < 0 {
        return;
      }
      var q := cart[k].quantity - 1;
      if q <= 0 {
        cart := WithoutProduct(cart, productId);
      } else {
        cart := cart[k := cart[k].(quantity := q)];
      }
    }

    method IncQty(productId: int)
      modifies this`cart
      ensures cart == IncStep(old(cart), productId)
    {
      var k := FirstWith(cart, productId);
      if k >= 0 {
        cart := cart[k := cart[k].(quantity := cart[k].quantity + 1)];
      }
    }

    /** `removeFromCart`: every line of the product goes, and the count drops by exactly their quantities. */
    method RemoveFromCart(productId: int)
      modifies this`cart
      ensures cart == WithoutProduct(old(cart), productId)
      ensures IsSubseq(cart, old(cart)) && forall k :: 0 <= k < |cart| ==> cart[k].productId != productId
      ensures CartCount(cart) == CartCount(old(cart)) - QuantityOf(old(cart), productId)
    {
      CountWithout(cart, productId);
      cart := WithoutProduct(cart, productId);
    }

    method ClearCart()
      modifies this`cart
      ensures cart == []
    {
      cart := [];
    }

    method ApplyPromo(input: Option<string>) returns (message: string)
      modifies this`promoDiscountRate
      ensures promoDiscountRate == PromoFor(input).rate && message == PromoFor(input).message
    {
      var p := PromoFor(input);
      promoDiscountRate := p.rate;
      message := p.message;
    }

    function Totals(): (t: Totals)
      reads this`cart, this`promoDiscountRate
      ensures t == ShopTotals(cart, promoDiscountRate)
    {
      ShopTotals(cart, promoDiscountRate)
    }

    /**
     * `placeOrder`: the pre-checks, then the body is sent; `accepted` is the
     * server's answer.  Only an accepted order clears the cart and the promo.
     */
    method PlaceOrder(userId: int, address: string, promo: Option<string>, paymentMethod: string, number: string,
                      exp: string, now: Moment, accepted: bool) returns (sent: Option<ShopPayload>, message: string)
      modifies this`cart, this`promoDiscountRate
      ensures var r := OrderPayload(userId, address, old(cart), promo, paymentMethod, number, exp, now);
              r.Err? ==> sent == None && message == r.error && cart == old(cart) && promoDiscountRate == old(promoDiscountRate)
      ensures var r := OrderPayload(userId, address, old(cart), promo, paymentMethod, number, exp, now);
              r.Ok? ==> && sent == Some(r.value)
                        && (accepted ==> message == "Order placed successfully!" && cart == [] && promoDiscountRate == 0.0)
                        && (!accepted ==> message == "Order failed (check stock / server)." && cart == old(cart)
                                          && promoDiscountRate == old(promoDiscountRate))
    {
      var r := OrderPayload(userId, address, cart, promo, paymentMethod, number, exp, now);
      if r.Err? {
        return None, r.error;
      }
      sent := Some(r.value);
      message := Settle(accepted);
    }

    /** The page after the server's answer: a success clears the cart and the promo, a failure keeps both. */
    method Settle(accepted: bool) returns (message: string)
      modifies this`cart, this`promoDiscountRate
      ensures accepted ==> message == "Order placed successfully!" && cart == [] && promoDiscountRate == 0.0
      ensures !accepted ==> message == "Order failed (check stock / server)." && cart == old(cart)
                            && promoDiscountRate == old(promoDiscountRate)
    {
      if !accepted {
        return "Order failed (check stock / server).";
      }
      message := "Order placed successfully!";
      cart := [];
      promoDiscountRate := 0.0;
    }
  }
}
