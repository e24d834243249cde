# Cart page of the plantation storefront, modelled in Dafny

This project models the state-and-arithmetic core of the storefront's cart
page (`cart.js`). The page keeps the shopping cart in the browser's local
storage under the key `sdb_cart_v3`. The cart is a mapping from SKU to a line
with `sku`, `name`, `img`, `price` (per kilogram) and `qtyKg`. The page does
four things with it:

- It renders one row per line. The row carries a "carat" label only for two
  allow-listed products ("robusta" and "robusta green banana"), after
  trimming and lower-casing the SKU. The label shows the quantity divided by
  20 to two decimals.
- It shows the item count, the total kilograms and the amount. When the
  total is strictly above 60 kg, the amount is reduced by 5% and a
  congratulation message is shown.
- Its quantity field keeps only the digits the user types. An empty entry or
  one below 1 becomes "1". The line then gets that quantity and the cart is
  saved.
- Its Remove button deletes one line, and its Clear button deletes the stored
  cart. A cart that is not stored loads as the empty cart.

Files and modules:

- `text.dfy` (`Text`): JavaScript's `trim` (the exact ECMAScript whitespace
  set), `toLowerCase` on ASCII letters, the `\d` class, and decimal numerals
  of whole numbers.
- `carat.dfy` (`Carat`): `allowCarat`, `caratsFromKg` and a reader for
  two-decimal numerals used to state what the label shows.
- `quantity.dfy` (`Quantity`): the quantity-input sanitiser.
- `cart_model.dfy` (`CartModel`): the cart line and the cart.
- `totals.dfy` (`Totals`): `updateTotals` as a loop, the discount rule, and
  the cart's sums defined on the map itself (independent of any order).
- `cart_page.dfy` (`CartPage`): the class `CartStore` holding the storage
  slot; `loadCart`, `saveCart`, the three handlers, and `render` as the
  projection to rows and figures.
- `wrappers.dfy` (`Wrappers`): `Option`.

Modelling choices:

- `qtyKg` is a `nat` and `price` a `real`. Totals are exact reals, and the
  discount is `amount - amount * 0.05` (that is, 95% of the amount).
- A Dafny map has no order. `Object.values` lists the lines of SKUs that
  look like array indices (such as "12") first, in ascending numeric order,
  and the other lines in insertion order. `Render` therefore takes `order`, a
  listing of every SKU exactly once, and the model does not fix which
  listing it is. `EnumerationTotals` proves that the figures equal the
  cart's own sums whatever that order is.
- Three behaviours of `cart.js` worth knowing:
  - The quantity handler strips every non-digit, so `-5` becomes 5 and
    `2.5` becomes 25 (`Quantity.SanitizeExamples`).
  - `caratsFromKg` always prints two decimals and the word "carats", so
    20 kg reads "(1.00 carats)" (`Carat.CaratExamples`).
  - `loadCart` does not catch a parse error, so a corrupt stored cart makes
    it throw.

## Model

| member | source | states |
|---|---|---|
| Text.Trim | cart.js:20 | the trimmed SKU neither starts nor ends with a whitespace character |
| Text.TrimIsInfix | cart.js:20 | the trimmed SKU is an infix of the SKU, and only whitespace is cut away on either side of it |
| Text.TrimIgnoresPadding | cart.js:20 | whitespace added on either side of a string does not change what `trim` returns |
| Text.LowerTrim | cart.js:20 | lower-casing and trimming commute, so the order of the two calls does not matter |
| Text.Lower | cart.js:20 | lower-casing keeps the length and lower-cases each character in place |
| Text.DigitsValueZero | cart.js:135 | a digit string denotes 0 exactly when every digit is a zero (the empty string included), which is when the handler falls back to "1" |
| Text.NatToString | cart.js:27 | the integer part printed by `toFixed` is a digit string, has no leading zero, and reads back as the number |
| Carat.AllowCaratIgnoresPadding | cart.js:19-22 | surrounding whitespace never changes whether a SKU is allow-listed |
| Carat.AllowCaratIgnoresCase | cart.js:19-22 | two SKUs that agree once lower-cased are both allow-listed or both not |
| Carat.AllowCaratExactly | cart.js:19-22 | a SKU is allow-listed if and only if, lower-cased and trimmed, it is "robusta" or "robusta green banana" |
| Carat.TwentiethsFixed2 | cart.js:27 | `(kg / 20).toFixed(2)` is a digit string, a point and exactly two digits, and its integer part has no leading zero |
| Carat.CaratsFromKg | cart.js:24-28 | the label is empty exactly when the quantity is not positive |
| Carat.CaratLabelShowsTwentieth | cart.js:24-28 | a positive quantity's label is "(", a numeral with exactly two decimals and no leading zero, then " carats)", and that numeral equals kg / 20 exactly |
| Carat.CaratExamples | cart.js:24-28 | 30 kg reads "(1.50 carats)", 20 kg "(1.00 carats)", 0 kg gives no label |
| Quantity.DigitsOnly | cart.js:134 | removing non-digits leaves a digit string, no longer than the input, that is the input itself when that was all digits, and empty exactly when the input has no digit; a single character is kept exactly when it is a digit |
| Quantity.DigitsOnlyAppend | cart.js:134 | the digits of two joined strings are the digits of the first followed by those of the second, so every digit is kept in its original order |
| Quantity.Sanitize | cart.js:134-136 | the sanitised entry is a non-empty digit string of value at least 1: the typed digits when they denote at least 1, otherwise "1" |
| Quantity.SanitizeKeepsValidEntry | cart.js:134-136 | an entry that is already digits with value at least 1 is returned unchanged |
| Quantity.SanitizeIdempotent | cart.js:134-136 | sanitising a sanitised entry changes nothing |
| Quantity.SanitizeExamples | cart.js:134-136 | "-5" becomes "5", "2.5" becomes "25", "0" and "abc" become "1", "007" is kept |
| CartModel.WellFormedEdits | cart.js:138-154 | the empty cart is well formed (every line filed under its own SKU, at least 1 kg), and setting an existing line's quantity to at least 1 or deleting a SKU keeps a cart well formed |
| Totals.ApplyDiscount | cart.js:44-50 | above 60 kg (strictly) the amount becomes 95% of itself and the message is shown; at 60 kg or less the amount is unchanged and the message is empty; a non-negative amount never grows or goes negative |
| Totals.UpdateTotals | cart.js:33-55 | the loop's figures are the item count, the sum of `qtyKg` and the discounted sum of `qtyKg * price` over the list |
| Totals.CartSumPick | cart.js:37-40 | the order-free sum over the cart's lines may take any line out first |
| Totals.Lines | cart.js:65 | `Object.values` yields one line per listed SKU, the line filed under it |
| Totals.EnumerationSum | cart.js:37-40 | summing the lines in any listing gives the cart's own sum, and the listing has one entry per line |
| Totals.EnumerationTotals | cart.js:33-53 | the figures shown for any listing are the cart's: count of lines, total kilograms, discounted amount |
| Totals.TotalsIndependentOfOrder | cart.js:65 | two listings of the same cart show the same figures |
| Totals.EmptyEnumeration | cart.js:67-70 | an empty listing is the empty cart, whose figures are those of `updateTotals([])` |
| Totals.EmptyCartTotals | cart.js:67-70 | an empty cart shows 0 items, 0 kg, amount 0 and no discount message |
| Totals.RemoveLineSums | cart.js:151-154 | deleting a line lowers the item count by one and takes exactly its kilograms and amount off the totals |
| Totals.ReplaceLineSum | cart.js:140 | replacing one line changes the cart's sum by the new line's share minus the old one's |
| Totals.SetQuantitySums | cart.js:138-141 | changing one line's quantity from a to b changes total kilograms by b - a and the amount by (b - a) * price |
| CartPage.RowOf | cart.js:74-76 | a row shows a carat label exactly when its SKU is allow-listed and its quantity positive; its line total is quantity times price |
| CartPage.RowCaratLabel | cart.js:75-76 | a SKU outside the allow-list never gets a label; an allow-listed one with a positive quantity shows its kilograms divided by 20, with two decimals and no leading zero |
| CartPage.Rows | cart.js:73-118 | the rows of a list of lines are one row per line, in the lines' order, each the line's row |
| CartPage.RenderRows | cart.js:73-118 | the `forEach` loop appends exactly those rows |
| CartPage.CartStore.Load | cart.js:8-10 | with nothing stored the cart is empty; otherwise it is the stored cart |
| CartPage.CartStore.SaveCart | cart.js:12-14 | the given cart replaces what was stored |
| CartPage.CartStore.SetQuantity | cart.js:133-141 | the field shows the sanitised entry; only the `qtyKg` of that SKU's line changes, to its value; a missing SKU saves nothing; well-formedness is kept and total kg moves by the difference |
| CartPage.CartStore.Remove | cart.js:150-154 | exactly that SKU is deleted and the rest saved unchanged; the item count and total kg drop by that line's |
| CartPage.CartStore.Clear | cart.js:162-164 | the stored cart is removed, so it loads as empty and shows zero figures |
| CartPage.CartStore.Render | cart.js:60-121 | one row per listed line, or the empty notice exactly when the cart is empty, and the figures are the cart's own |

## Left out

- Browser storage, `JSON.parse` and `JSON.stringify`: the stored cart is a field holding a cart or nothing. Malformed JSON, which makes `loadCart` throw, is not modelled.
- `confirm` dialogs and event wiring (`addEventListener`, `DOMContentLoaded`): each handler is a method called once the user has confirmed.
- DOM rendering (`innerHTML`, `createElement`, `textContent`): `render` is modelled as the rows' SKU, name, carat label and line total plus the figures. The row markup, image and price text are not modelled.
- `toFixed(2)` on money amounts: amounts are exact reals, not rounded two-decimal text.
- `toLowerCase` is modelled on ASCII letters only. No other character lowers to an ASCII letter of "robusta green banana", so the allow-list answer is the same for every SKU.
- `Number()` on a digit string is an exact whole number here, and `kg / 20` an exact rational. JavaScript loses precision above 2^53, and `toFixed` switches to exponent notation at 10^21; neither is modelled.
- Carat.CaratLabelShowsTwentieth: the label is the exact two-decimal value of `kg / 20`. In JavaScript, `kg / 20` is a double, so this holds only while `kg / 20` stays below 2^46 (kg below about 1.4·10^15), where the spacing of doubles becomes wide enough for `toFixed(2)` to round to a neighbouring value. For example, kg = 2814749767106561 prints "(140737488355328.06 carats)" in JavaScript, while the model gives ".05".
- CartPage.CartStore.SetQuantity: a missing SKU is modelled as "nothing saved, `found` false", where the script throws a TypeError.
- The rest of the repository (the order and inquiry server, the checkout form script) is not part of this model.
