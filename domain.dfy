/** Entities of the shopping-cart domain shared by both variants of the page
    (the original one-file page and the refactored hooks), and the
    definitions the two variants are specified against. Money, rates and
    totals are exact reals; quantities and stock are integers. */
module Domain {

  datatype Option<T> = None | Some(value: T)

  /** A step discount: buying at least `quantity` units earns `rate`. */
  datatype Discount = Discount(quantity: int, rate: real)

  datatype Product = Product(id: string, name: string, price: real, stock: int, discounts: seq<Discount>)

  /** A cart line: a snapshot of the product taken when it was added, and a count. */
  datatype CartItem = CartItem(product: Product, quantity: int)

  datatype DiscountType = Amount | Percentage

  /** `discountValue` is a currency amount for `Amount` and a percentage for `Percentage`. */
  datatype Coupon = Coupon(name: string, code: string, discountType: DiscountType, discountValue: real)

  /** The three figures a cart summary shows. */
  datatype Totals<N> = Totals(totalBeforeDiscount: N, totalAfterDiscount: N, totalDiscount: N)

  /** Math.max and Math.min on the two number kinds the model uses. */
  function MaxReal(a: real, b: real): (r: real)
    ensures r >= a && r >= b && (r == a || r == b)
  {
    if a < b then b else a
  }

  function MaxInt(a: int, b: int): (r: int)
    ensures r >= a && r >= b && (r == a || r == b)
  {
    if a < b then b else a
  }

  function MinInt(a: int, b: int): (r: int)
    ensures r <= a && r <= b && (r == a || r == b)
  {
    if a < b then a else b
  }

  /** The rate a purchase of `quantity` units earns from `discounts`: the
      largest rate among the tiers whose threshold is met, or 0 when no tier
      qualifies. Tiers are not cumulative. */
  ghost predicate IsBestRate(r: real, discounts: seq<Discount>, quantity: int) {
    && 0.0 <= r
    && (forall d :: d in discounts && d.quantity <= quantity ==> d.rate <= r)
    && (r == 0.0 || exists d :: d in discounts && d.quantity <= quantity && d.rate == r)
  }

  /** The best rate is determined by the tiers and the quantity alone. */
  lemma BestRateUnique(r1: real, r2: real, discounts: seq<Discount>, quantity: int)
    requires IsBestRate(r1, discounts, quantity) && IsBestRate(r2, discounts, quantity)
    ensures r1 == r2
  {
  }

  /** `discounts.reduce((m, d) => Math.max(m, d.rate), acc)`. */
  function FoldMaxRate(acc: real, discounts: seq<Discount>): real
    decreases |discounts|
  {
    if discounts == [] then acc else FoldMaxRate(MaxReal(acc, discounts[0].rate), discounts[1..])
  }

  /** The fold yields the largest of `acc` and every rate: it is at least
      each of them and equal to one of them. */
  lemma {:induction false} FoldMaxRateIsMax(acc: real, discounts: seq<Discount>)
    ensures acc <= FoldMaxRate(acc, discounts)
    ensures forall d :: d in discounts ==> d.rate <= FoldMaxRate(acc, discounts)
    ensures FoldMaxRate(acc, discounts) == acc || exists d :: d in discounts && d.rate == FoldMaxRate(acc, discounts)
    decreases |discounts|
  {
    if discounts != [] {
      FoldMaxRateIsMax(MaxReal(acc, discounts[0].rate), discounts[1..]);
      assert forall d :: d in discounts ==> d == discounts[0] || d in discounts[1..];
      assert discounts[0] in discounts;
    }
  }

  /** Scaling a non-negative amount by a fraction keeps it between 0 and itself. */
  lemma ScaleWithin(x: real, f: real)
    requires 0.0 <= x && 0.0 <= f <= 1.0
    ensures 0.0 <= x * f <= x
  {
    assert x * f <= x * 1.0;
  }

  /** A line whose data the catalog guarantees: a non-negative price and
      count, and every tier rate a fraction. */
  ghost predicate SaneItem(item: CartItem) {
    && 0.0 <= item.product.price
    && 0 <= item.quantity
    && forall d :: d in item.product.discounts ==> 0.0 <= d.rate <= 1.0
  }

  /** No two lines of the cart are for the same product id. */
  ghost predicate UniqueIds(cart: seq<CartItem>) {
    forall i, j :: 0 <= i < j < |cart| ==> cart[i].product.id != cart[j].product.id
  }

  /** `cart.filter((item) => item.product.id !== productId)`. */
  function WithoutProduct(cart: seq<CartItem>, productId: string): (r: seq<CartItem>)
    ensures forall item :: item in r <==> item in cart && item.product.id != productId
    ensures |r| <= |cart|
  {
    if cart == [] then []
    else if cart[0].product.id != productId then [cart[0]] + WithoutProduct(cart[1..], productId)
    else WithoutProduct(cart[1..], productId)
  }

  /** Filtering out an absent id gives back the same cart. */
  lemma {:induction false} WithoutProductAbsent(cart: seq<CartItem>, productId: string)
    requires forall i :: 0 <= i < |cart| ==> cart[i].product.id != productId
    ensures WithoutProduct(cart, productId) == cart
  {
    if cart != [] {
      WithoutProductAbsent(cart[1..], productId);
    }
  }

  /** Filtering works piece by piece, so the kept lines stay in their order. */
  lemma {:induction false} WithoutProductAppend(a: seq<CartItem>, b: seq<CartItem>, productId: string)
    ensures WithoutProduct(a + b, productId) == WithoutProduct(a, productId) + WithoutProduct(b, productId)
  {
    if a == [] {
      assert a + b == b;
    } else {
      assert (a + b)[1..] == a[1..] + b;
      WithoutProductAppend(a[1..], b, productId);
    }
  }

  /** Filtering a cart with one more line at the end: the line is kept at
      the end exactly when it is for another product. */
  lemma WithoutProductSnoc(cart: seq<CartItem>, item: CartItem, productId: string)
    ensures WithoutProduct(cart + [item], productId)
         == WithoutProduct(cart, productId) + (if item.product.id != productId then [item] else [])
  {
    WithoutProductAppend(cart, [item], productId);
    assert [item][1..] == [];
  }

  /** Filtering keeps the ids of a cart distinct. */
  lemma {:induction false} WithoutProductKeepsUniqueIds(cart: seq<CartItem>, productId: string)
    requires UniqueIds(cart)
    ensures UniqueIds(WithoutProduct(cart, productId))
  {
    if cart != [] {
      var rest := WithoutProduct(cart[1..], productId);
      assert UniqueIds(cart[1..]) by {
        forall i, j | 0 <= i < j < |cart| - 1
          ensures cart[1..][i].product.id != cart[1..][j].product.id
        {
          assert cart[1..][i] == cart[i + 1] && cart[1..][j] == cart[j + 1];
        }
      }
      WithoutProductKeepsUniqueIds(cart[1..], productId);
      if cart[0].product.id != productId {
        var r := [cart[0]] + rest;
        forall i, j | 0 <= i < j < |r|
          ensures r[i].product.id != r[j].product.id
        {
          if i == 0 {
            assert r[j] in rest;
            assert r[j] in cart[1..];
            var k :| 0 <= k < |cart[1..]| && cart[1..][k] == r[j];
            assert cart[k + 1] == r[j];
          } else {
            assert r[i] == rest[i - 1] && r[j] == rest[j - 1];
          }
        }
      }
    }
  }
}
