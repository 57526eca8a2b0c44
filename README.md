# Shopping-cart pricing and cart mutation, modelled in Dafny

This project models the core of a small shopping-cart page in two variants:

- the **original page** (`src/origin/components/CartPage.tsx`). It has discount-tier helpers, array-level cart operations (find, append, update by a quantity function, remove), the rounded `calculateTotal`, and the cart state whose `addToCart`, `removeFromCart` and `updateQuantity` actions replace the cart list;
- the **refactored helpers** (`src/refactoring/hooks/utils/cartUtils.ts`). They compute the same pricing with `filter`/`map`/`reduce`, leave it unrounded, and use a quantity update that removes a line whose new count is not positive;
- the **product hook** (`src/refactoring/hooks/useProduct.ts`). It holds the product list, which is replaced by an edited product or extended by a new one.

Modules:

- `Domain` holds the shared entities (`Product`, `Discount`, `CartItem`, `Coupon`, `Totals`) and the definitions both variants are specified against. `IsBestRate` is the reference meaning of "the applicable tier rate". `WithoutProduct` is the filter by product id.
- `OriginCart` models the original page. Its cart state is the class `CartStore`.
- `CartUtils` models the refactored helpers.
- `Products` models the product hook. Its state is the class `ProductStore`.
- `Variants` proves how the two variants relate and works the seed catalog's first product through both.

Numbers: money, rates and totals are exact `real`s; quantities and stock are `int`s. `Math.round` is `⌊x + 1/2⌋`. JavaScript's `reduce` becomes a left fold with an explicit accumulator (`TotalFrom`, `SumFrom`, `MaxDiscountFrom`, `FoldMaxRate`), and a callback becomes a Dafny function value.

The two variants differ on quantity updates, and the model keeps each as its code is written:

- The original page (CartPage.tsx:44-52) clamps every update to [0, stock]. Its trailing `.filter(Boolean)` keeps every line, because a line object is always truthy. So a line set to 0 stays in the cart.
- The refactored helper (cartUtils.ts:65-80) removes the product's lines for a count of 0 or less. For a positive count it only caps the count at the stock.
- `Variants.UpdateAgreesOnPositive` and `Variants.UpdateDivergesAtZero` state where the two agree and where they part.

## Model

| member | source | states |
|---|---|---|
| Domain.MaxReal | src/origin/components/CartPage.tsx:75 | Math.max on amounts: at least both arguments and equal to one of them |
| Domain.MaxInt | src/origin/components/CartPage.tsx:48 | Math.max on counts: at least both arguments and equal to one of them |
| Domain.MinInt | src/origin/components/CartPage.tsx:48 | Math.min on counts: at most both arguments and equal to one of them |
| Domain.FoldMaxRateIsMax | src/refactoring/hooks/utils/cartUtils.ts:16-18 | the `Math.max` reduce over rates yields the largest of the seed and every rate: at least each, equal to the seed or to one of the rates |
| Domain.FoldMaxRate | src/refactoring/hooks/utils/cartUtils.ts:18 | no contract of its own: the `Math.max` reduce over rates from a seed; its meaning is stated by `Domain.FoldMaxRateIsMax` |
| Domain.WithoutProduct | src/origin/components/CartPage.tsx:54 | filtering by id keeps exactly the lines of other products and never lengthens the cart; their order and multiplicity are stated by `Domain.WithoutProductAppend` and `Domain.WithoutProductSnoc` |
| Domain.WithoutProductAbsent | src/origin/components/CartPage.tsx:54 | removing an id the cart does not hold leaves the cart unchanged |
| Domain.WithoutProductAppend | src/refactoring/hooks/utils/cartUtils.ts:78 | the filter distributes over concatenation, so the kept lines keep their order |
| Domain.WithoutProductSnoc | src/origin/components/CartPage.tsx:54 | one step of the filter: a line added at the end stays at the end exactly when it is for another product |
| Domain.WithoutProductKeepsUniqueIds | src/origin/components/CartPage.tsx:54 | removing lines never creates two lines for one product |
| OriginCart.GetMaxDiscountRate | src/origin/components/CartPage.tsx:5-7 | for a non-empty tier list, the result is one of the rates and at least every rate, whatever the quantity |
| OriginCart.MaxDiscountFromIsMax | src/origin/components/CartPage.tsx:11-13 | the reduce yields the largest of its seed and the rates of the tiers the quantity meets |
| OriginCart.MaxDiscountFrom | src/origin/components/CartPage.tsx:11-13 | no contract of its own: getMaxDiscount's reduce from a running value; its meaning is stated by `OriginCart.MaxDiscountFromIsMax` |
| OriginCart.GetMaxDiscount | src/origin/components/CartPage.tsx:10-14 | the result is the best rate (`IsBestRate`): not negative, at least every qualifying rate, and either 0 or a qualifying rate; 0 when no tier qualifies; a qualifying rate when some tier qualifies and no rate is negative |
| OriginCart.GetAppliedDiscount | src/origin/components/CartPage.tsx:17-29 | the loop over the tiers returns the same rate as getMaxDiscount, because the loop keeps "best rate of the tiers seen so far" |
| OriginCart.FindItem | src/origin/components/CartPage.tsx:35 | `find` returns nothing exactly when no line has the id, and otherwise the first line with it |
| OriginCart.GetRemainingStock | src/origin/components/CartPage.tsx:34-37 | the stock when the cart has no line for the product, else the stock less the first such line's count |
| OriginCart.AddCartItem | src/origin/components/CartPage.tsx:40 | the cart is kept as a prefix and a one-unit line of the product is appended |
| OriginCart.HasCartItem | src/origin/components/CartPage.tsx:42 | true exactly when some line has the product's id |
| OriginCart.ClampToStock | src/origin/components/CartPage.tsx:48 | the stored count lies in [0, stock]: the request itself when it fits, 0 for a request or stock of 0 or less, the stock when the request exceeds it |
| OriginCart.UpdateCartItemQuantity | src/origin/components/CartPage.tsx:44-52 | same length and order; other products' lines unchanged; each matching line keeps its product and gets the clamped `quantityFn(line)`; no line is dropped |
| OriginCart.RemoveCartItem | src/origin/components/CartPage.tsx:54 | no line of the product remains; every other line remains; nothing new appears; it is `Domain.WithoutProduct`, so the kept lines keep their order (`Domain.WithoutProductAppend`, `Domain.WithoutProductSnoc`) |
| OriginCart.Increment | src/origin/components/CartPage.tsx:122 | no contract of its own: the `item.quantity + 1` quantity function of addToCart; its effect is stated by `OriginCart.AddToCartOutcome` |
| OriginCart.ConstantQuantity | src/origin/components/CartPage.tsx:132 | no contract of its own: the `() => newQuantity` quantity function of updateQuantity; its effect is stated by `OriginCart.CartStore.UpdateQuantity` and `Variants.UpdateAgreesOnPositive` |
| OriginCart.AddedToCart | src/origin/components/CartPage.tsx:116-125 | no contract of its own: the cart addToCart leaves behind; its outcomes are stated by `OriginCart.AddToCartOutcome` and `OriginCart.AddToCartKeepsWellFormed` |
| OriginCart.AddToCartOutcome | src/origin/components/CartPage.tsx:116-125 | with no remaining stock the cart is unchanged; with a line for the product, that line's count rises by exactly one and every other line is unchanged; otherwise a one-unit line is appended |
| OriginCart.AddToCartKeepsWellFormed | src/origin/components/CartPage.tsx:116-125 | adding keeps one line per product and every count within [0, stock] |
| OriginCart.RemoveKeepsWellFormed | src/origin/components/CartPage.tsx:127-129 | removing keeps the cart well-formed |
| OriginCart.UpdateKeepsWellFormed | src/origin/components/CartPage.tsx:131-133 | any quantity update, whatever the requested count, keeps the cart well-formed |
| OriginCart.TotalFromAppend | src/origin/components/CartPage.tsx:57 | folding over a cart with one more line adds that line's figure |
| OriginCart.TotalIsSum | src/origin/components/CartPage.tsx:57 | `total` is the sum of `fn` over the lines: 0 on an empty cart, and each appended line adds its figure |
| OriginCart.TotalFromMonotone | src/origin/components/CartPage.tsx:57 | a pointwise smaller figure gives a smaller total |
| OriginCart.TotalFrom | src/origin/components/CartPage.tsx:57 | no contract of its own: the reduce of `total` from a running sum; its meaning is stated by `OriginCart.TotalFromAppend` and `OriginCart.TotalFromMonotone` |
| OriginCart.Total | src/origin/components/CartPage.tsx:57 | no contract of its own: `total` from 0; it is the sum Σ fn by `OriginCart.TotalIsSum` |
| OriginCart.LinePrice | src/origin/components/CartPage.tsx:60 | no contract of its own: price × quantity; it agrees with the refactored price by `Variants.BeforeDiscountAgrees` |
| OriginCart.DiscountedLinePrice | src/origin/components/CartPage.tsx:67-70 | no contract of its own: price × quantity × (1 − getMaxDiscount); bounds in `OriginCart.DiscountedLineWithinPrice`, agreement with calculateItemTotal in `Variants.LineTotalAgrees` |
| OriginCart.CalculateTotalBeforeDiscount | src/origin/components/CartPage.tsx:60 | no contract of its own: `total` of price × quantity; it is rounded into calculateTotal's first figure (`OriginCart.CalculateTotal`) and agrees with the refactored total by `Variants.BeforeDiscountAgrees` |
| OriginCart.TotalAfterDiscount | src/origin/components/CartPage.tsx:66-82 | no contract of its own: the tier-discounted total with the coupon applied; bounds in `OriginCart.TotalsWithinBounds` and `OriginCart.CalculateTotal`, agreement in `Variants.AfterDiscountAgrees` |
| OriginCart.Round | src/origin/components/CartPage.tsx:87-89 | Math.round gives the integer within one half of its argument, halves going up |
| OriginCart.DiscountedLineWithinPrice | src/origin/components/CartPage.tsx:67-70 | for a line with a non-negative price and count and rates in [0, 1], the discounted line price lies between 0 and the undiscounted price |
| OriginCart.TotalsWithinBounds | src/origin/components/CartPage.tsx:63-84 | for such lines and no coupon, the total after discount lies between 0 and the total before discount, so the discount is not negative |
| OriginCart.ZeroTotal | src/origin/components/CartPage.tsx:57 | folding the zero figure leaves the seed unchanged |
| OriginCart.CalculateTotal | src/origin/components/CartPage.tsx:63-91 | each figure is rounded only when returned, and the discount is the rounded difference of the unrounded totals; an amount coupon never takes the total below 0; an empty cart with a non-negative amount coupon gives three zeros |
| OriginCart.CartStore.constructor | src/origin/components/CartPage.tsx:114 | the cart starts empty and well-formed |
| OriginCart.CartStore.AddToCart | src/origin/components/CartPage.tsx:116-125 | the new cart is the add-to-cart outcome of the old one, and the cart stays well-formed |
| OriginCart.CartStore.RemoveFromCart | src/origin/components/CartPage.tsx:127-129 | the new cart is the old one without the product's lines, and the cart stays well-formed |
| OriginCart.CartStore.UpdateQuantity | src/origin/components/CartPage.tsx:131-133 | the cart keeps its length, the product's lines get the requested count clamped to [0, stock], and the cart stays well-formed |
| CartUtils.QualifyingMembers | src/refactoring/hooks/utils/cartUtils.ts:16-17 | the filter keeps exactly the tiers whose threshold the quantity meets |
| CartUtils.Qualifying | src/refactoring/hooks/utils/cartUtils.ts:17 | no contract of its own: the filter of tiers the quantity meets; its meaning is stated by `CartUtils.QualifyingMembers` |
| CartUtils.GetMaxApplicableDiscount | src/refactoring/hooks/utils/cartUtils.ts:13-21 | the result is the best rate (`IsBestRate`); 0 when no tier qualifies; any non-zero result is a qualifying rate |
| CartUtils.GetPriceBeforeDiscount | src/refactoring/hooks/utils/cartUtils.ts:8-11 | no contract of its own: price × quantity; used index by index in `CartUtils.PricesBeforeDiscount` |
| CartUtils.CalculateItemTotal | src/refactoring/hooks/utils/cartUtils.ts:3-6 | no contract of its own: price × quantity × (1 − getMaxApplicableDiscount); bounds in `CartUtils.ItemTotalWithinPrice`, agreement in `Variants.LineTotalAgrees` |
| CartUtils.SumFromAppend | src/refactoring/hooks/utils/cartUtils.ts:29-31 | the reduce over figures with one more figure adds that figure |
| CartUtils.SumIsSum | src/refactoring/hooks/utils/cartUtils.ts:27-37 | the reduce is the sum: 0 for no figures, and each appended figure adds itself |
| CartUtils.SumFrom | src/refactoring/hooks/utils/cartUtils.ts:29-31 | no contract of its own: the `+=` reduce from a running sum; its meaning is stated by `CartUtils.SumFromAppend` |
| CartUtils.Sum | src/refactoring/hooks/utils/cartUtils.ts:35-37 | no contract of its own: the reduce from 0; it is the sum Σ xs by `CartUtils.SumIsSum` |
| CartUtils.PricesBeforeDiscount | src/refactoring/hooks/utils/cartUtils.ts:27-28 | the map gives one price × quantity per line, index by index |
| CartUtils.ItemTotals | src/refactoring/hooks/utils/cartUtils.ts:33-34 | the map gives one discounted line total per line, index by index |
| CartUtils.CalculateCartTotal | src/refactoring/hooks/utils/cartUtils.ts:23-57 | the total before discount is the sum of line prices; the discount is exactly before minus after; with no coupon, after is the sum of discounted lines; an amount coupon gives the larger of 0 and that sum less the amount; a percentage coupon scales that sum; an empty cart gives three zeros |
| CartUtils.UpdateProductQuantity | src/refactoring/hooks/utils/cartUtils.ts:59-63 | the line keeps its product, and its count is the smaller of the request and the stock; there is no lower bound |
| CartUtils.UpdateMatching | src/refactoring/hooks/utils/cartUtils.ts:71-75 | same length; each matching line is capped, and every other line is unchanged |
| CartUtils.UpdateCartItemQuantity | src/refactoring/hooks/utils/cartUtils.ts:65-80 | a positive count gives each matching line min(count, stock) and leaves the others in place; a count of 0 or less removes exactly the product's lines, and, being `Domain.WithoutProduct`, keeps the others in order (`Domain.WithoutProductAppend`, `Domain.WithoutProductSnoc`) |
| CartUtils.ItemTotalWithinPrice | src/refactoring/hooks/utils/cartUtils.ts:3-6 | for a sane line, the line total after its tier discount lies between 0 and its undiscounted price |
| Products.ReplaceProduct | src/refactoring/hooks/useProduct.ts:11-18 | same length; every product with the edited id becomes the edited product, and every other one is unchanged |
| Products.ReplaceProductAbsent | src/refactoring/hooks/useProduct.ts:11-18 | replacing an id the list does not hold changes nothing |
| Products.ReplaceProductIdempotent | src/refactoring/hooks/useProduct.ts:11-18 | replacing twice with the same product is replacing once |
| Products.ProductStore.constructor | src/refactoring/hooks/useProduct.ts:4-5 | the list starts as the initial products |
| Products.ProductStore.UpdateProduct | src/refactoring/hooks/useProduct.ts:7-9 | the list becomes replaceProduct of the previous list |
| Products.ProductStore.AddProduct | src/refactoring/hooks/useProduct.ts:20-22 | the new product is appended, even with an id already in the list; earlier products keep their indices |
| Variants.MaxDiscountAgrees | src/refactoring/hooks/utils/cartUtils.ts:13-21 | getMaxDiscount and getMaxApplicableDiscount give the same rate for every line |
| Variants.TotalMatchesSum | src/origin/components/CartPage.tsx:57 | `total` with `fn` equals the reduce over the mapped figures |
| Variants.BeforeDiscountAgrees | src/refactoring/hooks/utils/cartUtils.ts:27-31 | the original and refactored totals before discount are equal |
| Variants.DiscountedSubtotalAgrees | src/refactoring/hooks/utils/cartUtils.ts:33-37 | the two sums of tier-discounted lines are equal |
| Variants.LineTotalAgrees | src/refactoring/hooks/utils/cartUtils.ts:3-6 | calculateItemTotal equals the original's discounted line price |
| Variants.AfterDiscountAgrees | src/refactoring/hooks/utils/cartUtils.ts:39-48 | for every coupon choice, the two totals after discount are equal |
| Variants.TotalsAgree | src/origin/components/CartPage.tsx:63-91 | before rounding, calculateTotal and calculateCartTotal give the same totals before and after discount |
| Variants.CartTotalWithinBounds | src/refactoring/hooks/utils/cartUtils.ts:23-57 | for sane lines and no coupon, the refactored total after discount lies between 0 and the total before discount, and the discount is not negative |
| Variants.UpdateAgreesOnPositive | src/refactoring/hooks/utils/cartUtils.ts:65-76 | for a positive count and non-negative stocks, the two quantity updates give the same cart |
| Variants.UpdateDivergesAtZero | src/origin/components/CartPage.tsx:44-52 | for a count of 0 or less, the original keeps the line with count 0, while the refactored update drops it and shortens the cart |
| Variants.WithoutProductShorter | src/refactoring/hooks/utils/cartUtils.ts:78 | filtering out an id that the cart holds makes the cart shorter |
| Variants.SeedCartTotals | src/origin/components/CartPage.tsx:185-195 | ten units of p1 (10000 each, tiers 10 → 0.1 and 20 → 0.2) give 100000 before discount and 90000 after; the 5000 amount coupon gives 85000 and the 10% coupon gives 81000 |
| Variants.SeedCartTotalsRounded | src/origin/components/CartPage.tsx:146-159 | the original page shows the same figures for that cart, rounded, under no coupon and under each seed coupon |
| Variants.SoldOutProductNotAdded | src/origin/components/CartPage.tsx:117-118 | a product whose stock is 0 or less is never added to a well-formed cart |

## Left out

- The React side is not modelled: components, `createContextHook`, the providers, `useCart` outside its provider, and `main.tsx`. What is modelled is the state these hooks hold and the functions they call.
- The original page exposes `setCart` (CartPage.tsx:137) for arbitrary replacement of the cart, and that is not modelled: only the named actions change `CartStore`, which is what lets it keep its well-formedness invariant. The original page's product provider, which also exposes `setProducts`, is not part of this model; the refactored product hook returns only `products`, `updateProduct` and `addProduct`, and `ProductStore`'s two methods are its only mutators.
- React batching and stale closures are not modelled; each action reads and writes one current state. `addToCart` checks the remaining stock against the cart captured at render time but updates the latest cart, and `addProduct` appends to the list captured at render time.
- Floating point is not modelled: amounts are exact reals, so IEEE rounding of products such as `price * quantity * (1 - rate)` is not captured. `toFixed`, `toLocaleString` and `parseInt` belong to the display and input code, which is not part of this model.
- OriginCart.GetMaxDiscountRate: the fold's `-Infinity` seed has no real counterpart, so the function requires a non-empty tier list. On an empty list the source returns `-Infinity`.
- `Domain.DiscountType` has only `Amount` and `Percentage`. The source treats any type other than `"amount"` as a percentage, and the percentage branch models exactly that.
- The coupon hook's list of coupons, its new-coupon form and coupon selection are not modelled. The selected coupon is a parameter (`Option<Coupon>`) of the total calculations. The seed coupons appear as `Variants.AmountCoupon` and `Variants.PercentCoupon`.
- Only the first seed product (p1) is modelled. p2 and p3 differ from it only in their data.
- `OriginCart.AddToCartOutcome` states the "+1" outcome only for carts whose lines carry the same stock as the product passed in. A line holds a snapshot of the product taken when it was added, so after an edit to the catalog the source clamps the count against the older stock.
