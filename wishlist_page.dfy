/** The wishlist page: moving a saved product into the cart, removing it, and the texts the
    page derives from the list. */
module WishlistPage {
  import opened Wrappers
  import opened Text
  import opened Catalog
  import opened CartStore
  import opened WishlistStore

  /** The object `handleAddToCart` builds for the cart: only the id, name, price and image of
      the saved product are copied; description and category are left behind. */
  function CartCopy(p: Product): (c: Product)
    ensures c.id == p.id && c.name == p.name && c.price == p.price && c.image == p.image
    ensures c.description == "" && c.categoryId.None? && c.categoryName == ""
  {
    Product(p.id, p.name, p.price, p.image, "", None, "")
  }

  /** `handleAddToCart(product)`: one of the product goes into the cart (one more if it is
      already there), then the product leaves the wishlist. Both stores use the same session. */
  method MoveToCart(cart: Cart, wishlist: Wishlist, session: Option<string>, product: Product)
    requires cart.Valid() && wishlist.Valid()
    modifies cart, wishlist
    ensures cart.Valid() && wishlist.Valid()
    ensures cart.items == AddLine(old(cart.items), CartCopy(product), 1)
    ensures wishlist.entries == RemoveEntries(old(wishlist.entries), product.id)
    ensures HasId(cart.items, product.id) && !IsIn(wishlist.entries, product.id)
    ensures CartStore.UniqueIds(old(cart.items)) ==>
      CartStore.UniqueIds(cart.items) && QuantityOf(cart.items, product.id) == QuantityOf(old(cart.items), product.id) + 1
    ensures cart.requests == old(cart.requests) + Session.SendIf(session, AddItem(product.id, 1, product.price))
    ensures wishlist.requests == old(wishlist.requests) + Session.SendIf(session, RemoveProduct(product.id))
  {
    cart.Add(session, CartCopy(product), 1);
    wishlist.Remove(session, product.id);
    if CartStore.UniqueIds(old(cart.items)) {
      AddLineQuantity(old(cart.items), CartCopy(product), 1, product.id);
    }
  }

  /** `handleRemove(productId)`: the store's own remove, with the same id. */
  method Remove(wishlist: Wishlist, session: Option<string>, productId: int)
    requires wishlist.Valid()
    modifies wishlist
    ensures wishlist.Valid() && wishlist.entries == RemoveEntries(old(wishlist.entries), productId)
    ensures !IsIn(wishlist.entries, productId)
    ensures wishlist.requests == old(wishlist.requests) + Session.SendIf(session, RemoveProduct(productId))
  {
    wishlist.Remove(session, productId);
  }

  /** The card's description: its first 60 characters followed by "...", or "No
      description" when there is none. */
  function DescriptionPreview(d: string): (shown: string)
    ensures d == "" ==> shown == "No description"
    ensures d != "" ==> |shown| == (if |d| < 60 then |d| else 60) + 3
    ensures d != "" ==> StartsWith(d, shown[..|shown| - 3]) && shown[|shown| - 3..] == "..."
    ensures d != "" && |d| <= 60 ==> shown == d + "..."
  {
    if d != "" then Prefix(d, 60) + "..." else "No description"
  }

  /** "N item(s) saved". */
  function SavedLabel(n: nat): (caption: string)
    ensures n == 1 ==> caption == "1 item saved"
    ensures n != 1 ==> caption == NatToString(n) + " items saved"
  {
    NatToString(n) + " " + Plural(n, "item") + " saved"
  }
}
