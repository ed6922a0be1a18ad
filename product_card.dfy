/** A product card: its heart toggles the product in the wishlist, its button puts one of it
    in the cart, and its picture goes through the image-path resolution. */
module ProductCard {
  import opened Wrappers
  import opened Catalog
  import opened CartStore
  import opened WishlistStore
  import ImageHelper

  /** The heart is filled exactly when the product is in the wishlist. */
  function IsFavorite(wishlist: seq<WishEntry>, product: Product): (filled: bool)
    ensures filled <==> exists i :: 0 <= i < |wishlist| && wishlist[i].item.id == product.id
  {
    IsIn(wishlist, product.id)
  }

  /** `handleWishlistToggle` at time `now`: a listed product is removed, any other one added,
      so the product's membership flips and no other product's changes. */
  method ToggleWishlist(wishlist: Wishlist, session: Option<string>, product: Product, now: string)
    requires wishlist.Valid()
    modifies wishlist
    ensures wishlist.Valid()
    ensures IsFavorite(old(wishlist.entries), product) ==>
      wishlist.entries == RemoveEntries(old(wishlist.entries), product.id) &&
      wishlist.requests == old(wishlist.requests) + Session.SendIf(session, RemoveProduct(product.id))
    ensures !IsFavorite(old(wishlist.entries), product) ==>
      wishlist.entries == AddEntry(old(wishlist.entries), product, now) &&
      wishlist.requests == old(wishlist.requests) + Session.SendIf(session, AddProduct(product.id))
    ensures IsFavorite(wishlist.entries, product) <==> !IsFavorite(old(wishlist.entries), product)
    ensures forall other :: other != product.id ==> (IsIn(wishlist.entries, other) <==> IsIn(old(wishlist.entries), other))
  {
    if IsFavorite(wishlist.entries, product) {
      wishlist.Remove(session, product.id);
    } else {
      wishlist.Add(session, product, now);
    }
  }

  /** Toggling twice gives back the product's membership, and every other product's. */
  lemma ToggleTwiceMembership(list: seq<WishEntry>, product: Product, now: string, id: int)
    ensures var once := if IsIn(list, product.id) then RemoveEntries(list, product.id) else AddEntry(list, product, now);
      var twice := if IsIn(once, product.id) then RemoveEntries(once, product.id) else AddEntry(once, product, now);
      IsIn(twice, id) <==> IsIn(list, id)
  {
  }

  /** "Add to Cart": one of the product. */
  method AddToCart(cart: Cart, session: Option<string>, product: Product)
    requires cart.Valid()
    modifies cart
    ensures cart.Valid() && cart.items == AddLine(old(cart.items), product, 1)
    ensures HasId(cart.items, product.id)
    ensures cart.requests == old(cart.requests) + Session.SendIf(session, AddItem(product.id, 1, product.price))
  {
    cart.Add(session, product, 1);
  }

  /** The picture's source: the product's image path resolved against the API base, so a
      card without an image shows the placeholder. */
  function ImageSource(base: string, product: Product): (src: string)
    ensures product.image == "" ==> src == "assets/img/placeholder.jpg"
    ensures src == ImageHelper.GetImageUrl(base, product.image)
  {
    ImageHelper.GetImageUrl(base, product.image)
  }
}
