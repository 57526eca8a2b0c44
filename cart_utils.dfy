/** The refactored cart helpers: the same pricing written with filter, map
    and reduce and left unrounded, and a quantity update that removes a line
    whose new count is not positive. */
module CartUtils {
  import opened Domain

  // ---------------------------------------------------------------- discounts

  /** `discounts.filter((discount) => quantity >= discount.quantity)`. */
  function Qualifying(discounts: seq<Discount>, quantity: int): seq<Discount> {
    if discounts == [] then []
    else if quantity >= discounts[0].quantity then [discounts[0]] + Qualifying(discounts[1..], quantity)
    else Qualifying(discounts[1..], quantity)
  }

  /** The filter keeps exactly the tiers whose threshold the quantity meets. */
  lemma {:induction false} QualifyingMembers(discounts: seq<Discount>, quantity: int)
    ensures forall d :: d in Qualifying(discounts, quantity) <==> d in discounts && d.quantity <= quantity
  {
    if discounts != [] {
      QualifyingMembers(discounts[1..], quantity);
      assert forall d :: d in discounts <==> d == discounts[0] || d in discounts[1..];
    }
  }

  /** getMaxApplicableDiscount: the best rate among the tiers the line's
      quantity meets, 0 when it meets none. */
  function GetMaxApplicableDiscount(item: CartItem): (r: real)
    ensures IsBestRate(r, item.product.discounts, item.quantity)
    ensures (forall d :: d in item.product.discounts ==> item.quantity < d.quantity) ==> r == 0.0
    ensures r != 0.0 ==> exists d :: d in item.product.discounts && d.quantity <= item.quantity && d.rate == r
  {
    var qualifying := Qualifying(item.product.discounts, item.quantity);
    QualifyingMembers(item.product.discounts, item.quantity);
    FoldMaxRateIsMax(0.0, qualifying);
    FoldMaxRate(0.0, qualifying)
  }

  // ---------------------------------------------------------------- totals

  /** getPriceBeforeDiscount: price × quantity. */
  function GetPriceBeforeDiscount(item: CartItem): real {
    item.product.price * item.quantity as real
  }

  /** calculateItemTotal: the line's price after its tier discount. */
  function CalculateItemTotal(item: CartItem): real {
    var discountRate := GetMaxApplicableDiscount(item);
    GetPriceBeforeDiscount(item) * (1.0 - discountRate)
  }

  /** `xs.reduce((prev, cur) => prev += cur, acc)`. */
  function SumFrom(acc: real, xs: seq<real>): real
    decreases |xs|
  {
    if xs == [] then acc else SumFrom(acc + xs[0], xs[1..])
  }

  function Sum(xs: seq<real>): real {
    SumFrom(0.0, xs)
  }

  lemma {:induction false} SumFromAppend(acc: real, xs: seq<real>, x: real)
    ensures SumFrom(acc, xs + [x]) == SumFrom(acc, xs) + x
    decreases |xs|
  {
    if xs == [] {
      assert [] + [x] == [x];
    } else {
      assert (xs + [x])[1..] == xs[1..] + [x];
      SumFromAppend(acc + xs[0], xs[1..], x);
    }
  }

  /** The reduce is the sum Σ xs: 0 for no figures, and each appended figure
      adds itself. */
  lemma SumIsSum(xs: seq<real>, x: real)
    ensures Sum([]) == 0.0
    ensures Sum(xs + [x]) == Sum(xs) + x
  {
    SumFromAppend(0.0, xs, x);
  }

  /** `cart.map(getPriceBeforeDiscount)`. */
  function PricesBeforeDiscount(cart: seq<CartItem>): (r: seq<real>)
    ensures |r| == |cart| && forall i :: 0 <= i < |cart| ==> r[i] == GetPriceBeforeDiscount(cart[i])
  {
    seq(|cart|, i requires 0 <= i < |cart| => GetPriceBeforeDiscount(cart[i]))
  }

  /** `cart.map(calculateItemTotal)`. */
  function ItemTotals(cart: seq<CartItem>): (r: seq<real>)
    ensures |r| == |cart| && forall i :: 0 <= i < |cart| ==> r[i] == CalculateItemTotal(cart[i])
  {
    seq(|cart|, i requires 0 <= i < |cart| => CalculateItemTotal(cart[i]))
  }

  /** calculateCartTotal: the undiscounted sum, the sum after tier discounts
      and the one coupon, and their exact difference, none of them rounded.
      An amount coupon takes the total to 0 at the lowest, a percentage
      coupon scales it, and an empty cart gives three zeros. */
  function CalculateCartTotal(cart: seq<CartItem>, selectedCoupon: Option<Coupon>): (r: Totals<real>)
    ensures r.totalBeforeDiscount == Sum(PricesBeforeDiscount(cart))
    ensures r.totalDiscount == r.totalBeforeDiscount - r.totalAfterDiscount
    ensures selectedCoupon.None? ==> r.totalAfterDiscount == Sum(ItemTotals(cart))
    ensures selectedCoupon.Some? && selectedCoupon.value.discountType == Amount ==>
              && 0.0 <= r.totalAfterDiscount
              && Sum(ItemTotals(cart)) - selectedCoupon.value.discountValue <= r.totalAfterDiscount
              && (r.totalAfterDiscount == 0.0 || r.totalAfterDiscount == Sum(ItemTotals(cart)) - selectedCoupon.value.discountValue)
    ensures selectedCoupon.Some? && selectedCoupon.value.discountType == Percentage ==>
              r.totalAfterDiscount == Sum(ItemTotals(cart)) * (1.0 - selectedCoupon.value.discountValue / 100.0)
    ensures cart == [] && (selectedCoupon.Some? && selectedCoupon.value.discountType == Amount ==> 0.0 <= selectedCoupon.value.discountValue) ==>
              r == Totals(0.0, 0.0, 0.0)
  {
    var totalBeforeDiscount := Sum(PricesBeforeDiscount(cart));
    var itemsTotal := Sum(ItemTotals(cart));
    var totalAfterDiscount :=
      if selectedCoupon.None? then itemsTotal
      else if selectedCoupon.value.discountType == Amount then MaxReal(0.0, itemsTotal - selectedCoupon.value.discountValue)
      else itemsTotal * (1.0 - selectedCoupon.value.discountValue / 100.0);
    Totals(totalBeforeDiscount, totalAfterDiscount, totalBeforeDiscount - totalAfterDiscount)
  }

  // ---------------------------------------------------------------- cart lines

  /** updateProductQuantity: the line with its count capped at the product's
      stock; there is no lower bound. */
  function UpdateProductQuantity(item: CartItem, newQuantity: int): (r: CartItem)
    ensures r.product == item.product
    ensures r.quantity <= item.product.stock && r.quantity <= newQuantity
    ensures r.quantity == newQuantity || r.quantity == item.product.stock
  {
    var quantityLimit := item.product.stock;
    var quantity := if quantityLimit < newQuantity then quantityLimit else newQuantity;
    item.(quantity := quantity)
  }

  /** The map branch of updateCartItemQuantity. */
  function UpdateMatching(cart: seq<CartItem>, productId: string, newQuantity: int): (r: seq<CartItem>)
    ensures |r| == |cart|
    ensures forall i :: 0 <= i < |cart| ==>
              r[i] == if cart[i].product.id == productId then UpdateProductQuantity(cart[i], newQuantity) else cart[i]
  {
    if cart == [] then []
    else
      var item := cart[0];
      [if item.product.id == productId then UpdateProductQuantity(item, newQuantity) else item]
        + UpdateMatching(cart[1..], productId, newQuantity)
  }

  /** updateCartItemQuantity: with a positive count, the product's lines get
      it capped at their stock and every other line stays where it was; with
      a count of 0 or less, the product's lines are removed and the others
      keep their order. */
  function UpdateCartItemQuantity(cart: seq<CartItem>, productId: string, newQuantity: int): (r: seq<CartItem>)
    ensures newQuantity > 0 ==>
              && |r| == |cart|
              && (forall i :: 0 <= i < |cart| && cart[i].product.id != productId ==> r[i] == cart[i])
              && (forall i :: 0 <= i < |cart| && cart[i].product.id == productId ==>
                    r[i].product == cart[i].product && r[i].quantity == MinInt(newQuantity, cart[i].product.stock))
    ensures newQuantity <= 0 ==>
              && (forall i :: 0 <= i < |r| ==> r[i].product.id != productId)
              && (forall item :: item in r <==> item in cart && item.product.id != productId)
  {
    if newQuantity > 0 then
      UpdateMatching(cart, productId, newQuantity)
    else
      var r := WithoutProduct(cart, productId);
      assert forall i :: 0 <= i < |r| ==> r[i] in r;
      r
  }

  /** With a sane line, its discounted total lies between 0 and its
      undiscounted price. */
  lemma ItemTotalWithinPrice(item: CartItem)
    requires SaneItem(item)
    ensures 0.0 <= CalculateItemTotal(item) <= GetPriceBeforeDiscount(item)
  {
    var rate := GetMaxApplicableDiscount(item);
    var before := GetPriceBeforeDiscount(item);
    assert 0.0 <= rate <= 1.0;
    ScaleWithin(before, 1.0 - rate);
  }
}
