# Storefront core in Dafny

This project models the logic at the heart of a millet-food storefront built in React and TypeScript:

- **The cart engine** (`src/context/CartContext.tsx`). It is a class holding the cart's line items and its promo fields. Its methods add, remove, re-quantify and clear lines, and apply or remove a promo code. Pure folds compute the subtotal, the promo discount, the shipping fee, the total and the item count. Each line is keyed by `(product id, weight value)`.
- **The checkout page** (`src/pages/Payment.tsx`):
  - The three zod schemas (delivery details, UPI, card) are modelled as ordered lists of failed checks. `validateForm` builds its error map from them in a loop.
  - `validatePaymentDetails` decides, for each payment method, whether the order may go ahead.
  - The formatters `formatCardNumber` and `formatExpiry`, and the CVV input's digit filter.
  - The `details → payment → success` step machine. It includes the back button, the edit buttons, the empty-cart screen and the payment simulation that empties the cart.
- **Catalogue filtering** (`src/pages/Products.tsx`, `src/components/ProductFilters.tsx`):
  - The `filteredProducts` pipeline over the catalogue or the search results.
  - The page state that `handleSearch` and `clearFilters` update, and the state the filter sidebar sets.
  - `toggleCategory`, `toggleTag` and `hasActiveFilters`.

Layout, one module per file:

| file | module |
|---|---|
| `seqs.dfy` | `Options` and `Seqs`: `Option`, `filter`, subsequences, real-valued sums |
| `text.dfy` | `Text`: `trim()`, the classes `\s`, `\d` and `\w`, digit and whitespace removal, `toUpperCase()` |
| `types.dfy` | `Types`: the records of `src/types/index.ts` |
| `cart.dfy` | `Cart` |
| `validation.dfy` | `Validation` |
| `checkout.dfy` | `Checkout` |
| `product_filters.dfy` | `ProductFilters` |
| `products.dfy` | `Products` |

Arithmetic:

- Money, prices, discounts and ratings are exact `real`s.
- Quantities are `int`s.
- String lengths count characters.

Behaviours of the code that the model keeps as they are:

- `applyPromoCode` accepts a code only when the table's entry for the upper-cased code is truthy, so a table entry of `0` is rejected (`Cart.PromoTruthy`).
- The total is `subtotal - discount + shipping` with no floor (`Cart.CartTotal`); it is bounded below by the shipping fee only under the price conditions of `Cart.TotalBounds`.
- Net banking passes as soon as some bank is selected; the selected bank is not checked against the bank list (`Validation.CheckPayment`).

## Model

| member | source | states |
|---|---|---|
| Cart.FindIndex | src/context/CartContext.tsx:45-47 | the result is the first line holding the key, or -1 when no line holds it |
| Cart.Added | src/context/CartContext.tsx:43-61 | for an existing key, only that line's quantity grows, by `quantity`, and the length and every other line are unchanged; for a new key, `{product, weight, quantity}` is appended after the unchanged old lines |
| Cart.Removed | src/context/CartContext.tsx:65-72 | a line survives exactly when it does not hold the key |
| Cart.WithQuantity | src/context/CartContext.tsx:80-86 | the length is unchanged; each line holding the key gets exactly the new quantity, and every other line is unchanged |
| Cart.AddedKeepsUniqueKeys | src/context/CartContext.tsx:43-61 | adding preserves the uniqueness of `(id, weight value)` keys |
| Cart.AddedItemCount | src/context/CartContext.tsx:43-61 | adding `quantity` raises the item count by exactly `quantity` |
| Cart.AddedSubtotal | src/context/CartContext.tsx:43-61 | adding raises the subtotal by the total of `quantity` units; an existing line is priced as already stored, not by the records passed in |
| Cart.RaisedSubtotal | src/context/CartContext.tsx:49-56 | raising one line by `k` units raises the subtotal by the total of `k` units of that line |
| Cart.LineTotalAdds | src/context/CartContext.tsx:116-120 | a line's total is additive in its quantity |
| Cart.AddedRepeatedlyToExisting | src/context/CartContext.tsx:49-56 | several adds to an existing key add up on that one line and touch nothing else |
| Cart.SameKeyAddsMerge | src/context/CartContext.tsx:43-61 | several adds of a new key make exactly one new line at the end, holding the sum of the quantities |
| Cart.FilterKeepsUniqueKeys | src/context/CartContext.tsx:68-70 | filtering lines keeps keys unique |
| Cart.RemovedProperties | src/context/CartContext.tsx:65-72 | removal keeps the other lines in order, leaves no line with the key and keeps keys unique; it is a no-op when the key is absent |
| Cart.WithQuantityProperties | src/context/CartContext.tsx:74-88 | with unique keys, re-quantifying sets the one matching line to exactly `q` (it does not add), changes the item count by `q` minus the old quantity, and is a no-op for an absent key |
| Cart.ItemCountIsSum | src/context/CartContext.tsx:137-139 | the item count is the sum of the quantities |
| Cart.FoldsArePermutationInvariant | src/context/CartContext.tsx:115-139 | the subtotal and the item count do not depend on the order of the lines |
| Cart.EmptyCartTotals | src/context/CartContext.tsx:115-139 | an empty cart has subtotal 0, item count 0 and discount 0; it pays the flat 49 shipping, which is its whole total |
| Cart.ShippingCost | src/context/CartContext.tsx:128-131 | for every cart, shipping is free exactly when the subtotal reaches 499, and otherwise it is the flat 49 |
| Cart.TotalBounds | src/context/CartContext.tsx:123-135 | shipping is free exactly when the subtotal reaches 499; with non-negative prices and quantities, discounts of at most 100 and a promo percentage in [0, 100], the total lies between the shipping fee and subtotal plus shipping, so it is never negative |
| Cart.PromoRoundTripTotal | src/context/CartContext.tsx:123-135 | the total without a promo is the total with it plus its discount amount |
| Cart.WorkedExample | src/context/CartContext.tsx:115-135 | one line at 100 with 10% off and `FLAT20` at 20% gives subtotal 90, discount 18, shipping 49 and total 121 |
| Cart.CartEngine.constructor | src/context/CartContext.tsx:25-41 | a cart read and parsed from storage is adopted as it is; missing or unparseable data gives the empty cart; the state is then saved |
| Cart.CartEngine.AddToCart | src/context/CartContext.tsx:43-63 | the lines become `Added` of the old lines; the promo fields are untouched; key uniqueness is kept; the item count grows by `quantity`; the new state is saved |
| Cart.CartEngine.AddOneToCart | src/context/CartContext.tsx:43 | adding with the default quantity adds one unit |
| Cart.CartEngine.RemoveFromCart | src/context/CartContext.tsx:65-72 | the lines become `Removed` of the old lines; the promo fields are untouched; an absent key changes nothing; the new state is saved |
| Cart.CartEngine.UpdateQuantity | src/context/CartContext.tsx:74-88 | a quantity of 0 or less is a removal; otherwise the lines become `WithQuantity` of the old lines; the promo fields are untouched |
| Cart.CartEngine.ClearCart | src/context/CartContext.tsx:90-92 | the state becomes `{[], null, 0}` and is saved |
| Cart.CartEngine.ApplyPromoCode | src/context/CartContext.tsx:94-105 | it succeeds exactly when the table has a truthy entry for the upper-cased code, and then stores that code and its percentage; on failure the state and the saved copy are unchanged; the lines never change |
| Cart.CartEngine.RemovePromoCode | src/context/CartContext.tsx:107-113 | the promo fields reset to `null` and 0, and the lines are kept |
| Text.TrimIsSlice | src/pages/Payment.tsx:27-32 | `trim()` cuts one run of whitespace from each end and nothing else; the result neither starts nor ends with whitespace |
| Text.TrimUnchanged | src/pages/Payment.tsx:27-32 | a string without whitespace at either end is its own trim |
| Text.TrimIdempotent | src/pages/Payment.tsx:27-32 | trimming twice is trimming once |
| Text.TrimDigits | src/pages/Payment.tsx:45 | a string of digits is its own trim |
| Text.Digits | src/pages/Payment.tsx:68 | `replace(/\D/g, '')` leaves only digits and never lengthens its input |
| Text.RemoveWhitespace | src/pages/Payment.tsx:42 | `replace(/\s/g, '')` leaves no whitespace |
| Text.RemoveWhitespaceDigits | src/pages/Payment.tsx:42 | removing whitespace from digits changes nothing |
| Text.DigitsOfDigits | src/pages/Payment.tsx:68 | taking the digits of digits changes nothing |
| Text.ToUpper | src/context/CartContext.tsx:95 | upper-casing keeps the length and maps each character on its own |
| Text.ToUpperIdempotent | src/context/CartContext.tsx:95 | upper-casing twice is upper-casing once, so an applied code is accepted again as typed |
| Text.ToUpperHasNoLowerCase | src/context/CartContext.tsx:95 | no lower-case letter survives upper-casing |
| Validation.IssueMapAppend | src/pages/Payment.tsx:128-131 | the error map of two issue lists is the first map overridden by the second, so a later message for a field wins |
| Validation.IssueMapEmpty | src/pages/Payment.tsx:120-136 | the error map is empty exactly when there are no issues |
| Validation.CheckMap | src/pages/Payment.tsx:28 | a single check leaves an entry exactly when it fails |
| Validation.TwoChecksMap | src/pages/Payment.tsx:27 | with two checks on one field, the entry carries the later failed check's message |
| Validation.CollectIssues | src/pages/Payment.tsx:128-131 | the `forEach` loop builds exactly the error map of the issue list |
| Validation.TrimFields | src/pages/Payment.tsx:26-33 | every checked field is replaced by its trim; the cooking note is not part of the schema and is kept as typed |
| Validation.TrimFieldsIdempotent | src/pages/Payment.tsx:26-33 | parsing an already parsed form changes nothing, so the rules see the same values however often the form is trimmed |
| Validation.EmailMap | src/pages/Payment.tsx:29 | the e-mail fails exactly when it fails the e-mail check or exceeds 255 characters; when it is too long, "Email is too long" is the message shown |
| Validation.CustomerFieldRules | src/pages/Payment.tsx:26-33 | on trimmed values: the phone is ten digits starting with 6-9; the pincode is six digits; name and city have 2-100 characters; the address has 10-500; the e-mail has at most 255 and passes the e-mail check; the cooking note never fails |
| Validation.TrimmedErrorsAreFailingFields | src/pages/Payment.tsx:26-33 | on a trimmed form, the keys of the schema's error map are exactly the failing fields |
| Validation.CustomerErrorsAreFailingFields | src/pages/Payment.tsx:120-136 | `validateForm`'s error map has keys exactly for the failing fields; it passes exactly when none fail; the cooking note never has an error |
| Validation.IndexOf | src/pages/Payment.tsx:36 | the result is the first index of the character, or -1 when it is absent |
| Validation.UpiPatternIsShape | src/pages/Payment.tsx:36 | matching by splitting at the first `@` accepts exactly the strings that are a non-empty `[\w.-]` handle, `@`, and a non-empty `[\w.-]` provider |
| Validation.ParseCard | src/pages/Payment.tsx:39-47 | the expiry is checked as typed, without trimming |
| Validation.CardFieldRules | src/pages/Payment.tsx:39-47 | the number has 13-19 digits once all whitespace is removed; the expiry is `MM/YY` with month 01-12, untrimmed; the CVV has 3 or 4 digits once trimmed; the name has 2-100 characters once trimmed |
| Validation.CardErrorsAreFailingFields | src/pages/Payment.tsx:169-190 | the card branch's error map has keys exactly for the failing card fields, and it passes exactly when none fail |
| Validation.CodNetbankingAndUnknownMethods | src/pages/Payment.tsx:152-200 | `cod` always passes with no errors; `netbanking` passes exactly when a bank is chosen, without checking it against the bank list; an unknown method passes and leaves the error map alone |
| Validation.UpiRule | src/pages/Payment.tsx:157-168 | UPI passes exactly when the trimmed id has the UPI shape; otherwise only the first issue is reported, "Enter your UPI ID" for an empty id |
| Validation.CardRule | src/pages/Payment.tsx:169-190 | the card method passes exactly when no card field fails, and reports exactly the failing fields |
| Validation.GroupDigitsRemoveWhitespace | src/pages/Payment.tsx:69 | grouping digits in fours only inserts spaces |
| Validation.GroupDigitsLayout | src/pages/Payment.tsx:69 | spaces stand at exactly every fifth position, and the grouped text ends in a digit |
| Validation.FormatCardNumberProperties | src/pages/Payment.tsx:67-70 | deleting the spaces gives the input's first 19 digits; every fifth character is a space and every other character is a digit, so nothing else appears; there is no trailing space; the formatted number passes the card-number rule exactly when the input has at least 13 digits |
| Validation.FormatExpiryLayout | src/pages/Payment.tsx:72-76 | the output is exactly the input's first four digits, with a `/` after the first two exactly when the input has at least two digits, and nothing else: its length is the number of kept digits plus one for the `/`, and every other character is a digit |
| Validation.FormatExpiryAccepted | src/pages/Payment.tsx:72-76 | the formatted expiry passes the `MM/YY` rule exactly when the input has at least four digits and the first two form a month 01-12 |
| Validation.FormatCvvProperties | src/pages/Payment.tsx:621-624 | the stored CVV has at most four characters and passes the CVV rule exactly when the input has at least three digits |
| Checkout.WithCustomerValue | src/pages/Payment.tsx:138-143 | the form update sets the one field and leaves every other field as it was |
| Checkout.WithPaymentValue | src/pages/Payment.tsx:538-650 | the payment form update sets the one field and leaves every other field as it was |
| Checkout.PaymentInputShape | src/pages/Payment.tsx:603-623 | a stored CVV is at most four digits and a stored expiry at most five characters; the UPI, name and bank inputs are stored as typed |
| Checkout.CheckoutPage.CurrentScreen | src/pages/Payment.tsx:220-256 | the empty-cart screen shows exactly when the cart is empty and the step is not success; the success screen shows exactly on the success step; otherwise the details or payment form shows as the step says |
| Checkout.CheckoutPage.SuccessShowsNoForm | src/pages/Payment.tsx:220-256 | once the step is success neither form shows, so no form handler can move the page away from the success screen |
| Checkout.CheckoutPage.constructor | src/pages/Payment.tsx:89-113 | the page starts on the details step with UPI selected, nothing processing, empty forms and no errors |
| Checkout.CheckoutPage.ValidateForm | src/pages/Payment.tsx:120-136 | it returns true exactly when no customer field fails; the error map then has keys exactly for the failing fields |
| Checkout.CheckoutPage.HandleInputChange | src/pages/Payment.tsx:138-143 | on the details form, it changes only that field of the form and clears only that field's error |
| Checkout.CheckoutPage.ContinueToPayment | src/pages/Payment.tsx:145-150 | from the details form, it moves to the payment form, with cleared payment errors, exactly when every customer field passes; otherwise the details form stays and the errors name exactly the failing fields |
| Checkout.CheckoutPage.SelectPaymentMethod | src/pages/Payment.tsx:501 | the payment form's radio group stores the chosen method |
| Checkout.CheckoutPage.ChangePaymentField | src/pages/Payment.tsx:527-650 | on the payment form, an input shown for the selected method (UPI id; card fields; bank) stores what was typed, reformatted for the card number, expiry and CVV, and clears only its own error |
| Checkout.CheckoutPage.ValidatePaymentDetails | src/pages/Payment.tsx:152-200 | the result and the new payment error map are those the per-method decision gives; an unknown method leaves the map alone |
| Checkout.CheckoutPage.PlaceOrder | src/pages/Payment.tsx:202-211 | from the payment form, while not processing (the button is disabled then): with failing details only the payment error map changes; with passing details processing starts and a payment simulation is pending |
| Checkout.CheckoutPage.CompleteProcessing | src/pages/Payment.tsx:206-210 | when the simulation of the processing order ends, processing stops, the step is success, the cart is emptied and saved, and the success screen shows |
| Checkout.CheckoutPage.BackButton | src/pages/Payment.tsx:322 | on either form, from payment it returns to details with the form kept; from details it leaves for the cart page |
| Checkout.CheckoutPage.EditDetails | src/pages/Payment.tsx:481-493 | the edit buttons of the payment form return to the details form |
| Checkout.PlaceAndComplete | src/pages/Payment.tsx:202-211 | placing an order from the payment form, while not processing, with passing details ends on the success screen with an empty cart; with failing details neither the step nor the cart changes |
| ProductFilters.Toggle | src/components/ProductFilters.tsx:40-46 | after a toggle, an element is selected exactly when it was selected before or is the toggled one, but not both |
| ProductFilters.ToggleAbsent | src/components/ProductFilters.tsx:40-46 | toggling an absent element appends it at the end, and toggling it again restores the original list |
| ProductFilters.TogglePresent | src/components/ProductFilters.tsx:41-42 | toggling a present element removes every occurrence of it and keeps the others in order, shortening the list |
| ProductFilters.ToggleKeepsDistinct | src/components/ProductFilters.tsx:40-54 | toggling keeps a list without duplicates free of duplicates |
| Products.FilteredIsOneFilter | src/pages/Products.tsx:58-91 | the staged pipeline is one filter of the base list by the conjunction of the active filters, however many are on |
| Products.FilteredProperties | src/pages/Products.tsx:58-91 | the result is an order-preserving subsequence of the base list, which is the catalogue or the search results; a product is shown exactly when it is in the base list and passes every active filter (selected category, rating at least the minimum, any selected tag, diet); with no query and no active filter the whole catalogue shows in order |
| Products.HasActiveFiltersIffSomeRejected | src/components/ProductFilters.tsx:34-38 | `hasActiveFilters` holds exactly when the filters reject some product |
| Products.ProductsPage.constructor | src/pages/Products.tsx:20-38 | the query comes from the `search` parameter; a non-empty `category` parameter preselects that category; the URL is rewritten to carry only a non-empty query |
| Products.ProductsPage.HandleSearch | src/pages/Products.tsx:40-47 | the query is stored and mirrored in the URL, or the URL is cleared for an empty query |
| Products.ProductsPage.ClearFilters | src/pages/Products.tsx:49-56 | categories and tags become empty, the rating 0, the diet `all`, the query `''` and the URL empty, and the whole catalogue shows |
| Products.ProductsPage.ToggleCategory | src/components/ProductFilters.tsx:40-46 | the selected categories become the toggled selection |
| Products.ProductsPage.ToggleTag | src/components/ProductFilters.tsx:48-54 | the selected tags become the toggled selection |
| Products.ProductsPage.SetMinRating | src/components/ProductFilters.tsx:122 | a rating button sets the minimum rating |
| Products.ProductsPage.SetDietFilter | src/components/ProductFilters.tsx:80 | a diet button sets the diet filter |

## Left out

- Browser storage and JSON:
  - `localStorage` and `JSON.parse`/`JSON.stringify` (`src/context/CartContext.tsx:27-30,40`) are not modelled.
  - The initial load is a function of the stored cart as an `Option`; `None` stands for missing or unparseable data.
  - Saving is a ghost `saved` copy that each mutation updates.
- The `typeof window` test (`src/context/CartContext.tsx:26`): the model always reads storage.
- The two-second `setTimeout` (`src/pages/Payment.tsx:206-210`):
  - It is modelled as a count of pending simulations and an explicit `CompleteProcessing` transition, which fires while processing.
  - Timing and asynchrony are out.
  - The button's `disabled={isProcessing}` (`src/pages/Payment.tsx:694`) is the precondition `!isProcessing` of `PlaceOrder`; a click that lands before the re-render disables the button is out.
- The `Date.now()` order id (`src/pages/Payment.tsx:271`): it depends on the clock.
- The e-mail syntax check of zod's `.email()` is a parameter, `isEmail`.
- `src/data/products` is not part of this model. `searchProducts`, the promo table, the category list and the tag list become parameters. The rating buttons' values (0, 3, 3.5, 4, 4.5) are not enforced.
- `NETBANKING_BANKS` (`src/pages/Payment.tsx:49-65`) is rendering only, because `validatePaymentDetails` never consults it.
- Floating point and display rounding: all arithmetic is exact.
- Rendering, routing, toasts and the static pages.
- Text.ToUpper: does not model Unicode case mapping. Only ASCII letters are upper-cased, which covers promo codes typed in ASCII.
- String lengths count Unicode characters, not the UTF-16 code units JavaScript counts. The two differ only for characters outside the Basic Multilingual Plane.
- Checkout.CheckoutPage.SelectPaymentMethod: the radio group only offers `upi`, `card`, `netbanking` and `cod`. The model accepts any string, which is how an unknown method reaches `validatePaymentDetails`.
- Cart.CartEngine.AddToCart: does not require a positive quantity, because the source does not check one. The product card passes no quantity, so the default 1 is used; the detail modal clamps its quantity with `Math.max(1, …)`. The model does not carry either caller's guarantee into `addToCart`.
