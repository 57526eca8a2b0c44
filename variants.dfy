/** How the original page and the refactored helpers relate: they price a
    cart identically up to the original's final rounding, they agree on a
    positive quantity update, and they part ways on an update to 0 or less.
    The seed catalog's first product serves as a worked example. */
module Variants {
  import opened Domain
  import OriginCart
  import CartUtils

  /** getMaxDiscount and getMaxApplicableDiscount give the same rate. */
  lemma MaxDiscountAgrees(item: CartItem)
    ensures OriginCart.GetMaxDiscount(item.product.discounts, item.quantity) == CartUtils.GetMaxApplicableDiscount(item)
  {
    BestRateUnique(OriginCart.GetMaxDiscount(item.product.discounts, item.quantity),
                   CartUtils.GetMaxApplicableDiscount(item), item.product.discounts, item.quantity);
  }

  /** Folding `fn` over the cart equals summing the mapped figures. */
  lemma {:induction false} TotalMatchesSum(acc: real, cart: seq<CartItem>, fn: CartItem -> real, xs: seq<real>)
    requires |xs| == |cart|
    requires forall i :: 0 <= i < |cart| ==> xs[i] == fn(cart[i])
    ensures OriginCart.TotalFrom(acc, cart, fn) == CartUtils.SumFrom(acc, xs)
    decreases |cart|
  {
    if cart != [] {
      TotalMatchesSum(acc + fn(cart[0]), cart[1..], fn, xs[1..]);
    }
  }

  /** calculateTotalBeforeDiscount's fold and calculateCartTotal's map and
      reduce give the same undiscounted sum. */
  lemma BeforeDiscountAgrees(cart: seq<CartItem>)
    ensures OriginCart.CalculateTotalBeforeDiscount(cart) == CartUtils.Sum(CartUtils.PricesBeforeDiscount(cart))
  {
    TotalMatchesSum(0.0, cart, OriginCart.LinePrice, CartUtils.PricesBeforeDiscount(cart));
  }

  /** Both variants give the same sum of tier-discounted lines. */
  lemma DiscountedSubtotalAgrees(cart: seq<CartItem>)
    ensures OriginCart.Total(cart, OriginCart.DiscountedLinePrice) == CartUtils.Sum(CartUtils.ItemTotals(cart))
  {
    var itemTotals := CartUtils.ItemTotals(cart);
    forall i | 0 <= i < |cart|
      ensures itemTotals[i] == OriginCart.DiscountedLinePrice(cart[i])
    {
      LineTotalAgrees(cart[i]);
    }
    TotalMatchesSum(0.0, cart, OriginCart.DiscountedLinePrice, itemTotals);
  }

  /** Both variants price a single line alike after its tier discount. */
  lemma LineTotalAgrees(item: CartItem)
    ensures CartUtils.CalculateItemTotal(item) == OriginCart.DiscountedLinePrice(item)
  {
    MaxDiscountAgrees(item);
  }

  /** Both variants apply the coupon alike to the same subtotal. */
  lemma AfterDiscountAgrees(cart: seq<CartItem>, selectedCoupon: Option<Coupon>)
    ensures OriginCart.TotalAfterDiscount(cart, selectedCoupon) == CartUtils.CalculateCartTotal(cart, selectedCoupon).totalAfterDiscount
  {
    DiscountedSubtotalAgrees(cart);
    var subtotal := CartUtils.Sum(CartUtils.ItemTotals(cart));
    var after := CartUtils.CalculateCartTotal(cart, selectedCoupon).totalAfterDiscount;
    match selectedCoupon
    case None =>
    case Some(c) =>
      if c.discountType == Amount {
        assert after == MaxReal(0.0, subtotal - c.discountValue);
      } else {
        assert after == subtotal * (1.0 - c.discountValue / 100.0);
      }
  }

  /** Before rounding, calculateTotal and calculateCartTotal compute the same
      total before discount and the same total after discount (hence the same
      discount); calculateTotal then rounds each of the three figures. */
  lemma TotalsAgree(cart: seq<CartItem>, selectedCoupon: Option<Coupon>)
    ensures OriginCart.CalculateTotalBeforeDiscount(cart) == CartUtils.CalculateCartTotal(cart, selectedCoupon).totalBeforeDiscount
    ensures OriginCart.TotalAfterDiscount(cart, selectedCoupon) == CartUtils.CalculateCartTotal(cart, selectedCoupon).totalAfterDiscount
  {
    BeforeDiscountAgrees(cart);
    AfterDiscountAgrees(cart, selectedCoupon);
  }

  /** With sane lines and no coupon, calculateCartTotal's discounted total lies
      between 0 and the undiscounted total, and its discount is not negative. */
  lemma CartTotalWithinBounds(cart: seq<CartItem>)
    requires forall i :: 0 <= i < |cart| ==> SaneItem(cart[i])
    ensures var t := CartUtils.CalculateCartTotal(cart, None);
            0.0 <= t.totalAfterDiscount <= t.totalBeforeDiscount && 0.0 <= t.totalDiscount
  {
    TotalsAgree(cart, None);
    OriginCart.TotalsWithinBounds(cart);
  }

  /** For a positive count and stocks that are not negative, the two
      updateCartItemQuantity functions give the same cart. */
  lemma UpdateAgreesOnPositive(cart: seq<CartItem>, productId: string, newQuantity: int)
    requires newQuantity > 0
    requires forall i :: 0 <= i < |cart| ==> 0 <= cart[i].product.stock
    ensures OriginCart.UpdateCartItemQuantity(cart, productId, OriginCart.ConstantQuantity(newQuantity))
         == CartUtils.UpdateCartItemQuantity(cart, productId, newQuantity)
  {
    var o := OriginCart.UpdateCartItemQuantity(cart, productId, OriginCart.ConstantQuantity(newQuantity));
    var u := CartUtils.UpdateCartItemQuantity(cart, productId, newQuantity);
    forall i | 0 <= i < |cart| ensures o[i] == u[i] {
      if cart[i].product.id == productId {
        assert OriginCart.ConstantQuantity(newQuantity)(cart[i]) == newQuantity;
      }
    }
  }

  /** For a count of 0 or less the two differ: the original keeps the line
      with a count of 0, the refactored one removes it. */
  lemma UpdateDivergesAtZero(cart: seq<CartItem>, productId: string, k: int, newQuantity: int)
    requires 0 <= k < |cart| && cart[k].product.id == productId
    requires newQuantity <= 0
    ensures var o := OriginCart.UpdateCartItemQuantity(cart, productId, OriginCart.ConstantQuantity(newQuantity));
            |o| == |cart| && o[k] == cart[k].(quantity := 0)
    ensures cart[k] !in CartUtils.UpdateCartItemQuantity(cart, productId, newQuantity)
    ensures |CartUtils.UpdateCartItemQuantity(cart, productId, newQuantity)| < |cart|
  {
    var o := OriginCart.UpdateCartItemQuantity(cart, productId, OriginCart.ConstantQuantity(newQuantity));
    assert OriginCart.ConstantQuantity(newQuantity)(cart[k]) == newQuantity;
    assert o[k].product == cart[k].product;
    WithoutProductShorter(cart, productId, k);
  }

  /** Filtering out an id the cart holds shortens it. */
  lemma {:induction false} WithoutProductShorter(cart: seq<CartItem>, productId: string, k: int)
    requires 0 <= k < |cart| && cart[k].product.id == productId
    ensures |WithoutProduct(cart, productId)| < |cart|
  {
    if k > 0 {
      WithoutProductShorter(cart[1..], productId, k - 1);
    }
  }

  // ---------------------------------------------------------------- seed data

  /** The first product of the seed catalog. */
  function P1(): Product {
    Product("p1", "상품1", 10000.0, 20, [Discount(10, 0.1), Discount(20, 0.2)])
  }

  function AmountCoupon(): Coupon {
    Coupon("5000원 할인 쿠폰", "AMOUNT5000", Amount, 5000.0)
  }

  function PercentCoupon(): Coupon {
    Coupon("10% 할인 쿠폰", "PERCENT10", Percentage, 10.0)
  }

  /** Ten units of p1: 100000 before discount; the 10-unit tier brings it to
      90000; the amount coupon then to 85000, the percentage coupon to 81000. */
  lemma SeedCartTotals()
    ensures CartUtils.CalculateCartTotal([CartItem(P1(), 10)], None) == Totals(100000.0, 90000.0, 10000.0)
    ensures CartUtils.CalculateCartTotal([CartItem(P1(), 10)], Some(AmountCoupon())).totalAfterDiscount == 85000.0
    ensures CartUtils.CalculateCartTotal([CartItem(P1(), 10)], Some(PercentCoupon())).totalAfterDiscount == 81000.0
  {
    var item := CartItem(P1(), 10);
    var cart := [item];
    assert CartUtils.GetMaxApplicableDiscount(item) == 0.1 by {
      assert Discount(10, 0.1) in P1().discounts;
    }
    assert CartUtils.PricesBeforeDiscount(cart) == [100000.0];
    assert CartUtils.ItemTotals(cart) == [90000.0];
    assert CartUtils.Sum([100000.0]) == 100000.0;
    assert CartUtils.Sum([90000.0]) == 90000.0;
  }

  /** The original page shows the same figures for that cart, rounded. */
  lemma SeedCartTotalsRounded()
    ensures OriginCart.Round(OriginCart.CalculateTotalBeforeDiscount([CartItem(P1(), 10)])) == 100000
    ensures OriginCart.Round(OriginCart.TotalAfterDiscount([CartItem(P1(), 10)], None)) == 90000
    ensures OriginCart.Round(OriginCart.TotalAfterDiscount([CartItem(P1(), 10)], Some(AmountCoupon()))) == 85000
    ensures OriginCart.Round(OriginCart.TotalAfterDiscount([CartItem(P1(), 10)], Some(PercentCoupon()))) == 81000
  {
    SeedCartTotals();
    TotalsAgree([CartItem(P1(), 10)], None);
    TotalsAgree([CartItem(P1(), 10)], Some(AmountCoupon()));
    TotalsAgree([CartItem(P1(), 10)], Some(PercentCoupon()));
  }

  /** A product whose stock is 0 or less is never added to a well-formed cart. */
  lemma SoldOutProductNotAdded(cart: seq<CartItem>, product: Product)
    requires OriginCart.WellFormedCart(cart)
    requires product.stock <= 0
    ensures OriginCart.AddedToCart(cart, product) == cart
  {
    var found := OriginCart.FindItem(cart, product.id);
    if found.Some? {
      var i :| 0 <= i < |cart| && cart[i] == found.value && OriginCart.IsFirstMatch(cart, product.id, i);
      assert 0 <= cart[i].quantity;
    }
  }
}
