/** The original one-file cart page: its discount helpers, its array-level
    cart operations, its rounded total calculation, and the cart state that
    the page's actions replace on every click. */
module OriginCart {
  import opened Domain

  // ---------------------------------------------------------------- discounts

  /** getMaxDiscountRate: the best rate of any tier, whatever the quantity.
      The fold's seed is -Infinity, and Math.max(-Infinity, r) is r, so the
      fold starts from the first tier; its only caller shows it on a
      non-empty tier list. */
  function GetMaxDiscountRate(discounts: seq<Discount>): (r: real)
    requires |discounts| > 0
    ensures exists d :: d in discounts && d.rate == r
    ensures forall d :: d in discounts ==> d.rate <= r
  {
    FoldMaxRateIsMax(discounts[0].rate, discounts[1..]);
    assert forall d :: d in discounts <==> d == discounts[0] || d in discounts[1..];
    FoldMaxRate(discounts[0].rate, discounts[1..])
  }

  /** getMaxDiscount's reduce, from the running value `acc`. */
  function MaxDiscountFrom(acc: real, discounts: seq<Discount>, quantity: int): real
    decreases |discounts|
  {
    if discounts == [] then acc
    else
      var d := discounts[0];
      MaxDiscountFrom(if quantity >= d.quantity && d.rate > acc then d.rate else acc, discounts[1..], quantity)
  }

  /** The reduce yields the largest of `acc` and the qualifying rates. */
  lemma {:induction false} MaxDiscountFromIsMax(acc: real, discounts: seq<Discount>, quantity: int)
    ensures acc <= MaxDiscountFrom(acc, discounts, quantity)
    ensures forall d :: d in discounts && d.quantity <= quantity ==> d.rate <= MaxDiscountFrom(acc, discounts, quantity)
    ensures MaxDiscountFrom(acc, discounts, quantity) == acc ||
            exists d :: d in discounts && d.quantity <= quantity && d.rate == MaxDiscountFrom(acc, discounts, quantity)
    decreases |discounts|
  {
    if discounts != [] {
      var d := discounts[0];
      MaxDiscountFromIsMax(if quantity >= d.quantity && d.rate > acc then d.rate else acc, discounts[1..], quantity);
      assert forall e :: e in discounts ==> e == d || e in discounts[1..];
      assert d in discounts;
    }
  }

  /** getMaxDiscount: the rate a line of `quantity` units earns, 0 when no
      tier qualifies; the maximum of the qualifying rates, never their sum. */
  function GetMaxDiscount(discounts: seq<Discount>, quantity: int): (r: real)
    ensures IsBestRate(r, discounts, quantity)
    ensures (forall d :: d in discounts ==> quantity < d.quantity) ==> r == 0.0
    ensures (forall d :: d in discounts ==> 0.0 <= d.rate) && (exists d :: d in discounts && d.quantity <= quantity) ==>
              exists d :: d in discounts && d.quantity <= quantity && d.rate == r
  {
    MaxDiscountFromIsMax(0.0, discounts, quantity);
    MaxDiscountFrom(0.0, discounts, quantity)
  }

  /** getAppliedDiscount: the same rate, computed by a loop over the tiers. */
  method GetAppliedDiscount(item: CartItem) returns (appliedDiscount: real)
    ensures appliedDiscount == GetMaxDiscount(item.product.discounts, item.quantity)
  {
    var discounts := item.product.discounts;
    var quantity := item.quantity;
    appliedDiscount := 0.0;
    for i := 0 to |discounts|
      invariant IsBestRate(appliedDiscount, discounts[..i], quantity)
    {
      var discount := discounts[i];
      assert forall d :: d in discounts[..i + 1] <==> d in discounts[..i] || d == discount by {
        assert discounts[..i + 1] == discounts[..i] + [discount];
      }
      if quantity >= discount.quantity {
        appliedDiscount := MaxReal(appliedDiscount, discount.rate);
      }
    }
    assert discounts[..|discounts|] == discounts;
    BestRateUnique(appliedDiscount, GetMaxDiscount(discounts, quantity), discounts, quantity);
  }

  // ---------------------------------------------------------------- cart lines

  /** cart.find by product id: the first line for `productId`, if any. */
  function FindItem(cart: seq<CartItem>, productId: string): (r: Option<CartItem>)
    ensures r.None? <==> forall i :: 0 <= i < |cart| ==> cart[i].product.id != productId
    ensures r.Some? ==> exists i :: 0 <= i < |cart| && cart[i] == r.value && IsFirstMatch(cart, productId, i)
  {
    if cart == [] then None
    else if cart[0].product.id == productId then
      assert IsFirstMatch(cart, productId, 0);
      Some(cart[0])
    else
      var r := FindItem(cart[1..], productId);
      assert r.Some? ==> exists i :: 0 <= i < |cart| && cart[i] == r.value && IsFirstMatch(cart, productId, i) by {
        if r.Some? {
          var i :| 0 <= i < |cart[1..]| && cart[1..][i] == r.value && IsFirstMatch(cart[1..], productId, i);
          assert IsFirstMatch(cart, productId, i + 1);
        }
      }
      r
  }

  /** `i` is the first line of `cart` for `productId`. */
  ghost predicate IsFirstMatch(cart: seq<CartItem>, productId: string, i: int) {
    && 0 <= i < |cart|
    && cart[i].product.id == productId
    && forall j :: 0 <= j < i ==> cart[j].product.id != productId
  }

  /** getRemainingStock: the product's stock less what the cart already holds of it. */
  function GetRemainingStock(product: Product, cart: seq<CartItem>): (r: int)
    ensures (forall i :: 0 <= i < |cart| ==> cart[i].product.id != product.id) ==> r == product.stock
    ensures forall i :: IsFirstMatch(cart, product.id, i) ==> r == product.stock - cart[i].quantity
  {
    var cartItem := FindItem(cart, product.id);
    product.stock - (if cartItem.Some? then cartItem.value.quantity else 0)
  }

  /** addCartItem: a new line of one unit goes at the end. */
  function AddCartItem(cart: seq<CartItem>, product: Product): (r: seq<CartItem>)
    ensures |r| == |cart| + 1 && r[..|cart|] == cart
    ensures r[|cart|] == CartItem(product, 1)
  {
    cart + [CartItem(product, 1)]
  }

  /** hasCartItem: whether some line is for the product's id. */
  function HasCartItem(cart: seq<CartItem>, product: Product): (r: bool)
    ensures r <==> exists i :: 0 <= i < |cart| && cart[i].product.id == product.id
  {
    FindItem(cart, product.id).Some?
  }

  /** The quantity updateCartItemQuantity stores: Math.max(0, Math.min(n, stock)). */
  function ClampToStock(n: int, stock: int): (r: int)
    ensures 0 <= r && (0 <= stock ==> r <= stock)
    ensures 0 <= n <= stock ==> r == n
    ensures n <= 0 || stock <= 0 ==> r == 0
    ensures 0 <= stock <= n ==> r == stock
  {
    MaxInt(0, MinInt(n, stock))
  }

  /** updateCartItemQuantity: every line for `productId` gets the clamped
      `quantityFn(line)`; the trailing `.filter(Boolean)` keeps every line
      (a line object is always truthy), so a line clamped to 0 stays. */
  function UpdateCartItemQuantity(cart: seq<CartItem>, productId: string, quantityFn: CartItem -> int): (r: seq<CartItem>)
    ensures |r| == |cart|
    ensures forall i :: 0 <= i < |cart| && cart[i].product.id != productId ==> r[i] == cart[i]
    ensures forall i :: 0 <= i < |cart| && cart[i].product.id == productId ==>
              r[i].product == cart[i].product && r[i].quantity == ClampToStock(quantityFn(cart[i]), cart[i].product.stock)
  {
    if cart == [] then []
    else
      var item := cart[0];
      var updated := if item.product.id == productId
                     then item.(quantity := ClampToStock(quantityFn(item), item.product.stock))
                     else item;
      [updated] + UpdateCartItemQuantity(cart[1..], productId, quantityFn)
  }

  /** removeCartItem: drops the product's lines and keeps the others in order. */
  function RemoveCartItem(cart: seq<CartItem>, productId: string): (r: seq<CartItem>)
    ensures forall i :: 0 <= i < |r| ==> r[i].product.id != productId
    ensures forall item :: item in cart && item.product.id != productId ==> item in r
    ensures forall item :: item in r ==> item in cart
  {
    var r := WithoutProduct(cart, productId);
    assert forall i :: 0 <= i < |r| ==> r[i] in r;
    r
  }

  /** The quantity function of the "+1" in addToCart. */
  function Increment(item: CartItem): int {
    item.quantity + 1
  }

  /** The quantity function of updateQuantity: `() => newQuantity`. */
  function ConstantQuantity(newQuantity: int): CartItem -> int {
    (item: CartItem) => newQuantity
  }

  /** A cart as the page keeps it: one line per product id, and every count
      between 0 and the stock of the line's product. */
  ghost predicate WellFormedCart(cart: seq<CartItem>) {
    && UniqueIds(cart)
    && forall i :: 0 <= i < |cart| ==> 0 <= cart[i].quantity <= cart[i].product.stock
  }

  /** The cart that addToCart leaves behind. */
  function AddedToCart(cart: seq<CartItem>, product: Product): seq<CartItem> {
    if GetRemainingStock(product, cart) <= 0 then cart
    else if HasCartItem(cart, product) then UpdateCartItemQuantity(cart, product.id, Increment)
    else AddCartItem(cart, product)
  }

  /** addToCart leaves the cart alone when nothing is left in stock, raises
      the product's line by exactly one when it has one, and otherwise appends
      a one-unit line at the end. */
  lemma AddToCartOutcome(cart: seq<CartItem>, product: Product)
    requires WellFormedCart(cart)
    requires forall i :: 0 <= i < |cart| && cart[i].product.id == product.id ==> cart[i].product.stock == product.stock
    ensures var r := AddedToCart(cart, product);
            && (GetRemainingStock(product, cart) <= 0 ==> r == cart)
            && (GetRemainingStock(product, cart) > 0 && HasCartItem(cart, product) ==>
                  |r| == |cart| &&
                  forall i :: 0 <= i < |cart| ==>
                    r[i] == if cart[i].product.id == product.id then cart[i].(quantity := cart[i].quantity + 1) else cart[i])
            && (GetRemainingStock(product, cart) > 0 && !HasCartItem(cart, product) ==>
                  r == cart + [CartItem(product, 1)])
  {
    if GetRemainingStock(product, cart) > 0 && HasCartItem(cart, product) {
      var k :| 0 <= k < |cart| && cart[k].product.id == product.id;
      forall i | 0 <= i < |cart| && cart[i].product.id == product.id
        ensures i == k && IsFirstMatch(cart, product.id, k)
      {
        if i != k {
          assert false;
        }
      }
      assert GetRemainingStock(product, cart) == product.stock - cart[k].quantity;
    }
  }

  /** addToCart keeps a well-formed cart well-formed: in particular it never
      creates a second line for a product, because it appends only when
      hasCartItem is false. */
  lemma AddToCartKeepsWellFormed(cart: seq<CartItem>, product: Product)
    requires WellFormedCart(cart)
    ensures WellFormedCart(AddedToCart(cart, product))
  {
    var r := AddedToCart(cart, product);
    if GetRemainingStock(product, cart) > 0 {
      if HasCartItem(cart, product) {
        assert UniqueIds(r) by {
          forall i, j | 0 <= i < j < |r| ensures r[i].product.id != r[j].product.id {
            assert r[i].product == cart[i].product && r[j].product == cart[j].product;
          }
        }
      } else {
        assert product.stock >= 1;
        assert UniqueIds(r) by {
          forall i, j | 0 <= i < j < |r| ensures r[i].product.id != r[j].product.id {
            if j == |cart| {
              assert r[i] == cart[i];
            } else {
              assert r[i] == cart[i] && r[j] == cart[j];
            }
          }
        }
      }
    }
  }

  /** removeFromCart keeps a well-formed cart well-formed. */
  lemma RemoveKeepsWellFormed(cart: seq<CartItem>, productId: string)
    requires WellFormedCart(cart)
    ensures WellFormedCart(RemoveCartItem(cart, productId))
  {
    WithoutProductKeepsUniqueIds(cart, productId);
    var r := RemoveCartItem(cart, productId);
    forall i | 0 <= i < |r| ensures 0 <= r[i].quantity <= r[i].product.stock {
      assert r[i] in r;
      var k :| 0 <= k < |cart| && cart[k] == r[i];
    }
  }

  /** updateQuantity keeps a well-formed cart well-formed, whatever the
      requested count: a count below 0 is stored as 0, one above the stock as
      the stock. */
  lemma UpdateKeepsWellFormed(cart: seq<CartItem>, productId: string, quantityFn: CartItem -> int)
    requires WellFormedCart(cart)
    ensures WellFormedCart(UpdateCartItemQuantity(cart, productId, quantityFn))
  {
    var r := UpdateCartItemQuantity(cart, productId, quantityFn);
    assert forall i :: 0 <= i < |r| ==> r[i].product == cart[i].product;
  }

  // ---------------------------------------------------------------- totals

  /** `cart.reduce((sum, item) => sum + fn(item), acc)`. */
  function TotalFrom(acc: real, cart: seq<CartItem>, fn: CartItem -> real): real
    decreases |cart|
  {
    if cart == [] then acc else TotalFrom(acc + fn(cart[0]), cart[1..], fn)
  }

  /** total: the sum of `fn` over the cart, from 0. */
  function Total(cart: seq<CartItem>, fn: CartItem -> real): real {
    TotalFrom(0.0, cart, fn)
  }

  lemma {:induction false} TotalFromAppend(acc: real, cart: seq<CartItem>, item: CartItem, fn: CartItem -> real)
    ensures TotalFrom(acc, cart + [item], fn) == TotalFrom(acc, cart, fn) + fn(item)
    decreases |cart|
  {
    if cart == [] {
      assert [] + [item] == [item];
    } else {
      assert (cart + [item])[1..] == cart[1..] + [item];
      TotalFromAppend(acc + fn(cart[0]), cart[1..], item, fn);
    }
  }

  /** total is the sum Σ fn(item): 0 on the empty cart, and each added line
      adds its own figure. */
  lemma TotalIsSum(cart: seq<CartItem>, item: CartItem, fn: CartItem -> real)
    ensures Total([], fn) == 0.0
    ensures Total(cart + [item], fn) == Total(cart, fn) + fn(item)
  {
    TotalFromAppend(0.0, cart, item, fn);
  }

  /** A pointwise smaller figure gives a smaller total. */
  lemma {:induction false} TotalFromMonotone(acc1: real, acc2: real, cart: seq<CartItem>, f: CartItem -> real, g: CartItem -> real)
    requires acc1 <= acc2
    requires forall i :: 0 <= i < |cart| ==> f(cart[i]) <= g(cart[i])
    ensures TotalFrom(acc1, cart, f) <= TotalFrom(acc2, cart, g)
    decreases |cart|
  {
    if cart != [] {
      TotalFromMonotone(acc1 + f(cart[0]), acc2 + g(cart[0]), cart[1..], f, g);
    }
  }

  /** The undiscounted price of a line: price × quantity. */
  function LinePrice(item: CartItem): real {
    item.product.price * item.quantity as real
  }

  /** The price of a line after its tier discount. */
  function DiscountedLinePrice(item: CartItem): real {
    LinePrice(item) * (1.0 - GetMaxDiscount(item.product.discounts, item.quantity))
  }

  /** calculateTotalBeforeDiscount: Σ price × quantity. */
  function CalculateTotalBeforeDiscount(cart: seq<CartItem>): real {
    Total(cart, LinePrice)
  }

  /** The unrounded total after tier discounts and then the one coupon, as
      calculateTotal's inner block computes it. */
  function TotalAfterDiscount(cart: seq<CartItem>, selectedCoupon: Option<Coupon>): real {
    var subtotal := Total(cart, DiscountedLinePrice);
    match selectedCoupon
    case None => subtotal
    case Some(c) =>
      if c.discountType == Amount then MaxReal(0.0, subtotal - c.discountValue)
      else subtotal * (1.0 - c.discountValue / 100.0)
  }

  /** Math.round: the nearest integer, halves rounded up. */
  function Round(x: real): (r: int)
    ensures r as real - 0.5 <= x < r as real + 0.5
  {
    (x + 0.5).Floor
  }

  /** With sane lines, the tier discounts never raise a line's price and
      never make it negative. */
  lemma DiscountedLineWithinPrice(item: CartItem)
    requires SaneItem(item)
    ensures 0.0 <= DiscountedLinePrice(item) <= LinePrice(item)
  {
    var rate := GetMaxDiscount(item.product.discounts, item.quantity);
    var before := LinePrice(item);
    assert 0.0 <= rate <= 1.0;
    ScaleWithin(before, 1.0 - rate);
  }

  /** With sane lines and no coupon, the discounted total lies between 0 and
      the undiscounted total, so the reported discount is never negative. */
  lemma TotalsWithinBounds(cart: seq<CartItem>)
    requires forall i :: 0 <= i < |cart| ==> SaneItem(cart[i])
    ensures 0.0 <= TotalAfterDiscount(cart, None) <= CalculateTotalBeforeDiscount(cart)
  {
    forall i | 0 <= i < |cart|
      ensures 0.0 <= DiscountedLinePrice(cart[i]) <= LinePrice(cart[i])
    {
      DiscountedLineWithinPrice(cart[i]);
    }
    TotalFromMonotone(0.0, 0.0, cart, DiscountedLinePrice, LinePrice);
    TotalFromMonotone(0.0, 0.0, cart, (item: CartItem) => 0.0, DiscountedLinePrice);
    ZeroTotal(0.0, cart);
  }

  lemma {:induction false} ZeroTotal(acc: real, cart: seq<CartItem>)
    ensures TotalFrom(acc, cart, (item: CartItem) => 0.0) == acc
    decreases |cart|
  {
    if cart != [] {
      ZeroTotal(acc + 0.0, cart[1..]);
    }
  }

  /** calculateTotal: the three figures, each rounded only when returned, so
      the discount is the rounded difference of the unrounded totals. An
      amount coupon never takes the total below 0, and an empty cart gives
      all zeros. */
  method CalculateTotal(cart: seq<CartItem>, selectedCoupon: Option<Coupon>) returns (totals: Totals<int>)
    ensures totals.totalBeforeDiscount == Round(CalculateTotalBeforeDiscount(cart))
    ensures totals.totalAfterDiscount == Round(TotalAfterDiscount(cart, selectedCoupon))
    ensures totals.totalDiscount == Round(CalculateTotalBeforeDiscount(cart) - TotalAfterDiscount(cart, selectedCoupon))
    ensures selectedCoupon.Some? && selectedCoupon.value.discountType == Amount ==>
              0.0 <= TotalAfterDiscount(cart, selectedCoupon) && 0 <= totals.totalAfterDiscount
    ensures cart == [] && (selectedCoupon.Some? && selectedCoupon.value.discountType == Amount ==> 0.0 <= selectedCoupon.value.discountValue) ==>
              totals == Totals(0, 0, 0)
  {
    var totalBeforeDiscount := CalculateTotalBeforeDiscount(cart);
    var totalAfterDiscount := Total(cart, DiscountedLinePrice);
    if selectedCoupon.Some? {
      if selectedCoupon.value.discountType == Amount {
        totalAfterDiscount := MaxReal(0.0, totalAfterDiscount - selectedCoupon.value.discountValue);
      } else {
        totalAfterDiscount := totalAfterDiscount * (1.0 - selectedCoupon.value.discountValue / 100.0);
      }
    }
    var totalDiscount := totalBeforeDiscount - totalAfterDiscount;
    totals := Totals(Round(totalBeforeDiscount), Round(totalAfterDiscount), Round(totalDiscount));
  }

  // ---------------------------------------------------------------- cart state

  /** The cart held by the page; each action replaces the whole list. */
  class CartStore {
    var cart: seq<CartItem>

    ghost predicate Valid()
      reads this
    {
      WellFormedCart(cart)
    }

    constructor ()
      ensures Valid() && cart == []
    {
      cart := [];
    }

    /** addToCart: no change when the product has no stock left beyond what
        the cart holds; otherwise one more unit of it. */
    method AddToCart(product: Product)
      requires Valid()
      modifies this
      ensures Valid()
      ensures cart == AddedToCart(old(cart), product)
    {
      AddToCartKeepsWellFormed(cart, product);
      var remainingStock := GetRemainingStock(product, cart);
      if remainingStock <= 0 {
        return;
      }
      if HasCartItem(cart, product) {
        cart := UpdateCartItemQuantity(cart, product.id, Increment);
      } else {
        cart := AddCartItem(cart, product);
      }
    }

    /** removeFromCart: the product's line goes, the others stay in order. */
    method RemoveFromCart(productId: string)
      requires Valid()
      modifies this
      ensures Valid()
      ensures cart == RemoveCartItem(old(cart), productId)
    {
      RemoveKeepsWellFormed(cart, productId);
      cart := RemoveCartItem(cart, productId);
    }

    /** updateQuantity: the product's line gets `newQuantity` clamped to
        [0, stock]; a line set to 0 stays in the cart. */
    method UpdateQuantity(productId: string, newQuantity: int)
      requires Valid()
      modifies this
      ensures Valid()
      ensures cart == UpdateCartItemQuantity(old(cart), productId, ConstantQuantity(newQuantity))
      ensures |cart| == |old(cart)|
      ensures forall i :: 0 <= i < |cart| && old(cart)[i].product.id == productId ==>
                cart[i].quantity == ClampToStock(newQuantity, old(cart)[i].product.stock)
    {
      UpdateKeepsWellFormed(cart, productId, ConstantQuantity(newQuantity));
      cart := UpdateCartItemQuantity(cart, productId, ConstantQuantity(newQuantity));
    }
  }
}
