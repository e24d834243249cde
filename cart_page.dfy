/** The cart page: the stored cart, the three edits its handlers make
    (set a quantity, remove a line, clear), and what `render` shows. */
module CartPage {
  import opened Wrappers
  import opened Text
  import opened CartModel
  import opened Carat
  import opened Quantity
  import opened Totals

  /** What one list row shows besides markup: the SKU, the name, the carat
      label (possibly empty) and the line total. */
  datatype Row = Row(sku: string, name: string, caratText: string, lineTotal: real)

  /** The rendered page: the rows, whether the "Your cart is empty." notice
      replaces them, and the figures below the list. */
  datatype View = View(rows: seq<Row>, emptyNotice: bool, totals: Figures)

  /** The row for one line: a carat label only for allow-listed SKUs. */
  function RowOf(line: CartLine): (row: Row)
    ensures row.sku == line.sku && row.name == line.name
    ensures row.caratText != [] <==> AllowCarat(line.sku) && line.qtyKg > 0
    ensures row.lineTotal == line.qtyKg as real * line.price
  {
    var allow := AllowCarat(line.sku);
    var caratText := if allow then CaratsFromKg(line.qtyKg) else "";
    var amount := LineAmount(line);
    assert amount == line.qtyKg as real * line.price;
    Row(line.sku, line.name, caratText, amount)
  }

  /** A SKU outside the allow-list never gets a carat label, whatever the
      quantity; an allow-listed one shows its kilograms divided by 20. */
  lemma RowCaratLabel(line: CartLine)
    ensures !AllowCarat(line.sku) ==> RowOf(line).caratText == []
    ensures AllowCarat(line.sku) && line.qtyKg > 0 ==> ShowsTwentieth(RowOf(line).caratText, line.qtyKg)
  {
    if AllowCarat(line.sku) && line.qtyKg > 0 {
      assert RowOf(line).caratText == CaratsFromKg(line.qtyKg);
      CaratLabelShowsTwentieth(line.qtyKg);
    }
  }

  /** `f` applied to every line of a list, in order. */
  function MapLines(f: CartLine -> Row, items: seq<CartLine>): (rows: seq<Row>)
    ensures |rows| == |items|
    ensures forall i :: 0 <= i < |items| ==> rows[i] == f(items[i])
  {
    if items == [] then [] else MapLines(f, items[..|items| - 1]) + [f(items[|items| - 1])]
  }

  /** The rows of a list of lines: one row per line, in order. */
  function Rows(items: seq<CartLine>): (rows: seq<Row>)
    ensures |rows| == |items|
    ensures forall i :: 0 <= i < |items| ==> rows[i] == RowOf(items[i])
  {
    MapLines(RowOf, items)
  }

  /** The `forEach` of `render` over the lines, appending one row per line. */
  method RenderRows(items: seq<CartLine>) returns (rows: seq<Row>)
    ensures rows == Rows(items)
  {
    rows := [];
    for i := 0 to |items|
      invariant rows == Rows(items[..i])
    {
      assert items[..i + 1][..i] == items[..i];
      rows := rows + [RowOf(items[i])];
    }
    assert items[..|items|] == items;
  }

  /** The browser storage slot of the cart and the page's handlers. */
  class CartStore {
    /** The cart stored under "sdb_cart_v3"; `None` when the key is absent. */
    var stored: Option<Cart>

    constructor (initial: Option<Cart>)
      ensures stored == initial
    {
      stored := initial;
    }

    /** `loadCart`: the stored cart, or the empty cart when nothing is stored. */
    function Load(): (cart: Cart)
      reads this
      ensures stored.None? ==> cart == map[]
      ensures stored.Some? ==> cart == stored.value
    {
      match stored
      case None => map[]
      case Some(cart) => cart
    }

    /** The stored cart is well formed. It is not required by any handler,
        because the stored value comes from outside this page (other pages
        and tabs write it); the handlers only keep it when it holds. */
    ghost predicate WellFormedStore()
      reads this
    {
      WellFormed(Load())
    }

    /** `saveCart`: the given cart replaces whatever was stored. */
    method SaveCart(cart: Cart)
      modifies this
      ensures stored == Some(cart)
    {
      stored := Some(cart);
    }

    /** The quantity field's `input` handler. The typed value is sanitised
        and written back into the field (`shown`); the line of `sku` then
        gets that quantity and the cart is saved. When no line has that SKU
        the assignment throws before anything is saved (`found` is false).
        The clause on the keys and the new quantity follows from the new
        stored cart and `Sanitize`; it is spelled out for callers. */
    method SetQuantity(sku: string, raw: string) returns (shown: string, found: bool)
      modifies this
      ensures shown == Sanitize(raw)
      ensures found <==> sku in old(Load())
      ensures found ==> stored == Some(old(Load())[sku := old(Load())[sku].(qtyKg := DigitsValue(shown))])
      ensures !found ==> stored == old(stored)
      ensures found ==> Load().Keys == old(Load()).Keys && Load()[sku].qtyKg >= 1
      ensures found ==> (CartTotals(Load()).totalKg
        == CartTotals(old(Load())).totalKg - old(Load())[sku].qtyKg as real + DigitsValue(shown) as real)
      ensures old(WellFormedStore()) ==> WellFormedStore()
    {
      shown := Sanitize(raw);
      var cart := Load();
      found := sku in cart;
      if !found {
        return;
      }
      SetQuantitySums(cart, sku, DigitsValue(shown));
      if WellFormed(cart) {
        WellFormedEdits(cart, sku, DigitsValue(shown));
      }
      cart := cart[sku := cart[sku].(qtyKg := DigitsValue(shown))];
      SaveCart(cart);
    }

    /** The Remove button's handler, once confirmed: the line of `sku` is
        deleted (nothing happens to the others, and a missing SKU deletes
        nothing) and the cart is saved. */
    method Remove(sku: string)
      modifies this
      ensures stored == Some(old(Load()) - {sku})
      ensures sku in old(Load()) ==> (|Load()| == |old(Load())| - 1 &&
        CartTotals(Load()).totalKg == CartTotals(old(Load())).totalKg - old(Load())[sku].qtyKg as real)
      ensures old(WellFormedStore()) ==> WellFormedStore()
    {
      var cart := Load();
      if sku in cart {
        RemoveLineSums(cart, sku);
      }
      if WellFormed(cart) {
        WellFormedEdits(cart, sku, 1);
      }
      cart := cart - {sku};
      SaveCart(cart);
    }

    /** The Clear button's handler, once confirmed: the storage key is
        removed, so the cart loads as empty and shows zero figures. */
    method Clear()
      modifies this
      ensures stored == None
      ensures Load() == map[] && CartTotals(Load()) == Figures(0, 0.0, 0.0, "")
      ensures WellFormedStore()
    {
      stored := None;
      EmptyCartTotals();
      WellFormedEdits(map[], "", 1);
    }

    /** `render`: one row per line in `order` (the order in which
        `Object.values` yields the lines) or the empty notice, then the
        figures of `updateTotals`, which are the cart's own whatever the
        order. */
    method Render(order: seq<string>) returns (view: View)
      requires IsEnumeration(order, Load())
      ensures view.emptyNotice <==> Load() == map[]
      ensures |view.rows| == |order|
      ensures forall i :: 0 <= i < |order| ==> view.rows[i] == RowOf(Load()[order[i]])
      ensures view.totals == CartTotals(Load())
    {
      var cart := Load();
      var items := Lines(cart, order);
      if |items| == 0 {
        EmptyEnumeration(cart, order);
        var totals := UpdateTotals([]);
        return View([], true, totals);
      }
      assert order[0] in cart;
      EnumerationTotals(cart, order);
      var rows := RenderRows(items);
      var totals := UpdateTotals(items);
      assert totals == CartTotals(cart);
      view := View(rows, false, totals);
    }
  }
}
