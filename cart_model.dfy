/** The cart kept under the storage key "sdb_cart_v3": a mapping from SKU
    to the line for that product. */
module CartModel {

  /** One product line as it is stored: price per kilogram and quantity in
      kilograms. */
  datatype CartLine = CartLine(sku: string, name: string, img: string, price: real, qtyKg: nat)

  type Cart = map<string, CartLine>

  /** Every line is filed under its own SKU and holds at least 1 kg: what
      the page writes, and what its handlers rely on when they look a line
      up by the SKU rendered from it. */
  predicate WellFormed(cart: Cart) {
    forall sku :: sku in cart ==> cart[sku].sku == sku && cart[sku].qtyKg >= 1
  }

  /** The edits the cart page makes keep a cart well formed: the empty cart
      is, giving an existing line a quantity of at least 1 keeps it, and
      deleting a SKU keeps it. This is the map-level statement of what the
      handlers `SetQuantity`, `Remove` and `Clear` preserve; they call it. */
  lemma WellFormedEdits(cart: Cart, sku: string, q: nat)
    requires WellFormed(cart)
    ensures WellFormed(map[])
    ensures sku in cart && q >= 1 ==> WellFormed(cart[sku := cart[sku].(qtyKg := q)])
    ensures WellFormed(cart - {sku})
  {
  }
}
