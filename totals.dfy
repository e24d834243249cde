/** The figures below the cart list (`updateTotals`): item count, total
    kilograms, and the amount with a 5% discount above 60 kg. */
module Totals {
  import opened CartModel

  const DiscountThresholdKg: real := 60.0
  const DiscountMessage: string := "\U{1F389} WOW! You received 5% discount!"

  /** The four figures shown below the list: item count, total kilograms,
      the amount after any discount, and the discount message. */
  datatype Figures = Figures(totalItems: nat, totalKg: real, grandTotal: real, discountMessage: string)

  function Kg(line: CartLine): real {
    line.qtyKg as real
  }

  /** The line total: quantity times price per kilogram. */
  function LineAmount(line: CartLine): real {
    line.qtyKg as real * line.price
  }

  /** Sum of `f` over a list of lines, in list order. */
  function SumBy(items: seq<CartLine>, f: CartLine -> real): real {
    if items == [] then 0.0 else SumBy(items[..|items| - 1], f) + f(items[|items| - 1])
  }

  /** The discount rule: strictly more than 60 kg takes 5% off the amount
      and shows the message; otherwise the amount stands and no message is
      shown. */
  function ApplyDiscount(totalItems: nat, totalKg: real, amount: real): (t: Figures)
    ensures t.totalItems == totalItems && t.totalKg == totalKg
    ensures t.discountMessage != [] <==> totalKg > DiscountThresholdKg
    ensures t.grandTotal == if totalKg > DiscountThresholdKg then amount * 95.0 / 100.0 else amount
    ensures 0.0 <= amount ==> 0.0 <= t.grandTotal <= amount
  {
    if totalKg > DiscountThresholdKg then
      var discount := amount * 0.05;
      Figures(totalItems, totalKg, amount - discount, DiscountMessage)
    else
      Figures(totalItems, totalKg, amount, "")
  }

  /** The figures for a list of lines, as `updateTotals(items)` shows them. */
  function TotalsOf(items: seq<CartLine>): Figures {
    ApplyDiscount(|items|, SumBy(items, Kg), SumBy(items, LineAmount))
  }

  /** `updateTotals`: one pass accumulating kilograms and amount, then the
      discount. */
  method UpdateTotals(items: seq<CartLine>) returns (t: Figures)
    ensures t == TotalsOf(items)
  {
    var totalKg := 0.0;
    var totalAmount := 0.0;
    for i := 0 to |items|
      invariant totalKg == SumBy(items[..i], Kg)
      invariant totalAmount == SumBy(items[..i], LineAmount)
    {
      assert items[..i + 1][..i] == items[..i];
      totalKg := totalKg + items[i].qtyKg as real;
      totalAmount := totalAmount + items[i].qtyKg as real * items[i].price;
    }
    assert items[..|items|] == items;
    var message;
    if totalKg > DiscountThresholdKg {
      var discount := totalAmount * 0.05;
      totalAmount := totalAmount - discount;
      message := DiscountMessage;
    } else {
      message := "";
    }
    t := Figures(|items|, totalKg, totalAmount, message);
  }

  /** The sum of `f` over the lines of a cart, independent of any order:
      take out one line, whichever, and add it to the sum of the rest. */
  ghost function CartSum(cart: Cart, f: CartLine -> real): real
    decreases |cart|
  {
    if cart == map[] then 0.0
    else
      var sku :| sku in cart;
      assert |cart - {sku}| < |cart| by {
        assert (cart - {sku}).Keys == cart.Keys - {sku};
      }
      f(cart[sku]) + CartSum(cart - {sku}, f)
  }

  /** Any line may be the one taken out first. */
  lemma {:induction false} CartSumPick(cart: Cart, f: CartLine -> real, sku: string)
    requires sku in cart
    ensures CartSum(cart, f) == f(cart[sku]) + CartSum(cart - {sku}, f)
    decreases |cart|
  {
    var chosen :| chosen in cart && CartSum(cart, f) == f(cart[chosen]) + CartSum(cart - {chosen}, f);
    if chosen != sku {
      assert (cart - {chosen}).Keys == cart.Keys - {chosen};
      assert (cart - {sku}).Keys == cart.Keys - {sku};
      CartSumPick(cart - {chosen}, f, sku);
      CartSumPick(cart - {sku}, f, chosen);
      assert cart - {chosen} - {sku} == cart - {sku} - {chosen};
    }
  }

  /** The figures for a whole cart, whatever order its lines are listed in. */
  ghost function CartTotals(cart: Cart): Figures {
    ApplyDiscount(|cart|, CartSum(cart, Kg), CartSum(cart, LineAmount))
  }

  /** `order` lists every SKU of the cart exactly once: the order in which
      `Object.values` yields the lines. */
  ghost predicate IsEnumeration(order: seq<string>, cart: Cart) {
    && (forall i, j :: 0 <= i < j < |order| ==> order[i] != order[j])
    && (forall sku :: sku in cart <==> sku in order)
  }

  /** The lines of the cart in the given order (`Object.values(cart)`). */
  function Lines(cart: Cart, order: seq<string>): (items: seq<CartLine>)
    requires forall sku :: sku in order ==> sku in cart
    ensures |items| == |order|
    ensures forall i :: 0 <= i < |order| ==> items[i] == cart[order[i]]
  {
    if order == [] then [] else Lines(cart, order[..|order| - 1]) + [cart[order[|order| - 1]]]
  }

  /** Dropping the last SKU of a listing lists the cart without that line. */
  lemma EnumerationDropLast(cart: Cart, order: seq<string>)
    requires IsEnumeration(order, cart) && order != []
    ensures order[|order| - 1] in cart
    ensures IsEnumeration(order[..|order| - 1], cart - {order[|order| - 1]})
  {
    var n := |order|;
    var last := order[n - 1];
    var rest := order[..n - 1];
    assert last !in rest by {
      forall i | 0 <= i < n - 1 ensures rest[i] != last {
        assert rest[i] == order[i];
      }
    }
    forall sku ensures sku in cart - {last} <==> sku in rest {
      if sku in rest {
        var i :| 0 <= i < n - 1 && rest[i] == sku;
        assert order[i] == sku;
      }
      if sku in order && sku != last {
        var i :| 0 <= i < n && order[i] == sku;
        assert rest[i] == sku;
      }
    }
  }

  /** Summing the listed lines gives the cart's sum, whatever the order. */
  lemma {:induction false} EnumerationSum(cart: Cart, order: seq<string>, f: CartLine -> real)
    requires IsEnumeration(order, cart)
    ensures |order| == |cart|
    ensures SumBy(Lines(cart, order), f) == CartSum(cart, f)
    decreases |order|
  {
    if order == [] {
      assert forall sku :: sku !in cart;
      assert cart == map[];
    } else {
      var n := |order|;
      var last := order[n - 1];
      var rest := order[..n - 1];
      var smaller := cart - {last};
      EnumerationDropLast(cart, order);
      EnumerationSum(smaller, rest, f);
      assert smaller.Keys == cart.Keys - {last};
      var items := Lines(cart, order);
      assert items[..n - 1] == Lines(smaller, rest);
      CartSumPick(cart, f, last);
    }
  }

  /** The figures shown for the listed lines are the cart's own figures:
      the listing order makes no difference. */
  lemma EnumerationTotals(cart: Cart, order: seq<string>)
    requires IsEnumeration(order, cart)
    ensures |order| == |cart|
    ensures TotalsOf(Lines(cart, order)) == CartTotals(cart)
  {
    EnumerationSum(cart, order, Kg);
    EnumerationSum(cart, order, LineAmount);
  }

  /** An empty listing lists the empty cart, whose figures are those of
      `updateTotals([])`. */
  lemma EmptyEnumeration(cart: Cart, order: seq<string>)
    requires IsEnumeration(order, cart) && order == []
    ensures cart == map[]
    ensures CartTotals(cart) == TotalsOf([])
  {
    assert forall sku :: sku !in cart;
  }

  /** Two listings of the same cart show the same figures. */
  lemma TotalsIndependentOfOrder(cart: Cart, order1: seq<string>, order2: seq<string>)
    requires IsEnumeration(order1, cart) && IsEnumeration(order2, cart)
    ensures TotalsOf(Lines(cart, order1)) == TotalsOf(Lines(cart, order2))
  {
    EnumerationTotals(cart, order1);
    EnumerationTotals(cart, order2);
  }

  /** Removing a line takes exactly that line's kilograms and amount off the
      cart's sums, and one off the item count. */
  lemma RemoveLineSums(cart: Cart, sku: string)
    requires sku in cart
    ensures |cart - {sku}| == |cart| - 1
    ensures CartSum(cart - {sku}, Kg) == CartSum(cart, Kg) - cart[sku].qtyKg as real
    ensures CartSum(cart - {sku}, LineAmount) == CartSum(cart, LineAmount) - LineAmount(cart[sku])
  {
    assert (cart - {sku}).Keys == cart.Keys - {sku};
    CartSumPick(cart, Kg, sku);
    CartSumPick(cart, LineAmount, sku);
  }

  /** Replacing one line changes the cart's sum by the difference. */
  lemma ReplaceLineSum(cart: Cart, sku: string, line: CartLine, f: CartLine -> real)
    requires sku in cart
    ensures CartSum(cart[sku := line], f) == CartSum(cart, f) - f(cart[sku]) + f(line)
  {
    var updated := cart[sku := line];
    assert updated - {sku} == cart - {sku};
    CartSumPick(cart, f, sku);
    CartSumPick(updated, f, sku);
  }

  /** Changing one line's quantity from `a` to `b` kilograms changes the
      cart's total kilograms by `b - a` and its amount by `(b - a) * price`;
      the item count stays. */
  lemma SetQuantitySums(cart: Cart, sku: string, qty: nat)
    requires sku in cart
    ensures var updated := cart[sku := cart[sku].(qtyKg := qty)];
      && |updated| == |cart|
      && CartSum(updated, Kg) == CartSum(cart, Kg) - cart[sku].qtyKg as real + qty as real
      && CartSum(updated, LineAmount)
         == CartSum(cart, LineAmount) + (qty as real - cart[sku].qtyKg as real) * cart[sku].price
  {
    var line := cart[sku].(qtyKg := qty);
    assert cart[sku := line].Keys == cart.Keys;
    ReplaceLineSum(cart, sku, line, Kg);
    ReplaceLineSum(cart, sku, line, LineAmount);
  }

  /** An empty cart shows no items, 0 kg, an amount of 0 and no discount. */
  lemma EmptyCartTotals()
    ensures CartTotals(map[]) == Figures(0, 0.0, 0.0, "")
    ensures TotalsOf([]) == Figures(0, 0.0, 0.0, "")
  {
  }
}
