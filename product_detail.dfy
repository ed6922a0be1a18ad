/** The product page: the fetched product, the quantity stepper, the add-to-cart button and a
    heart that only changes its own look. */
module ProductDetail {
  import opened Wrappers
  import opened Text
  import opened Catalog
  import opened CartStore
  import CartPage

  /** What `productService.getById` answers: the response data (`None` for null), or a failure. */
  datatype ProductReply = Fetched(data: Option<Product>) | FetchFailed

  /** What the page renders. */
  datatype DetailView = Spinner | Problem(message: string) | Page(product: Product)

  /** While loading, the spinner; then the error, or "Product not found" when there is no
      product; otherwise the product. */
  function View(loading: bool, error: Option<string>, product: Option<Product>): (v: DetailView)
    ensures loading ==> v == Spinner
    ensures !loading && error.Some? ==> v == Problem(error.value)
    ensures !loading && error.None? && product.None? ==> v == Problem("Product not found")
    ensures v.Page? <==> !loading && error.None? && product.Some?
    ensures v.Page? ==> v.product == product.value
  {
    if loading then Spinner
    else if error.Some? then Problem(error.value)
    else if product.None? then Problem("Product not found")
    else Page(product.value)
  }

  class ProductPage {
    const cart: Cart
    var product: Option<Product>
    var loading: bool
    var error: Option<string>
    var quantity: int
    var isFavorite: bool
    var alert: Option<string>

    /** The stepper never shows less than 1. */
    predicate Valid()
      reads this
    {
      quantity >= 1
    }

    constructor (cart: Cart)
      ensures Valid() && this.cart == cart && product.None? && loading && error.None?
      ensures quantity == 1 && !isFavorite && alert.None?
    {
      this.cart := cart;
      product := None;
      loading := true;
      error := None;
      quantity := 1;
      isFavorite := false;
      alert := None;
    }

    /** `fetchProduct`: the data replaces the product and clears the error; a failure keeps
        the product and sets "Failed to load product details". */
    method Load(reply: ProductReply)
      modifies this
      ensures reply.Fetched? ==> product == reply.data && error.None?
      ensures reply.FetchFailed? ==> product == old(product) && error == Some("Failed to load product details")
      ensures !loading && quantity == old(quantity) && isFavorite == old(isFavorite)
      ensures alert == old(alert)
    {
      loading := true;
      if reply.Fetched? {
        product := reply.data;
        error := None;
      } else {
        error := Some("Failed to load product details");
      }
      loading := false;
    }

    /** "−": `Math.max(1, quantity - 1)`. */
    method Decrement()
      requires Valid()
      modifies this
      ensures Valid() && quantity == CartPage.Decremented(old(quantity))
      ensures old(quantity) > 1 ==> quantity == old(quantity) - 1
      ensures old(quantity) == 1 ==> quantity == 1
      ensures product == old(product) && isFavorite == old(isFavorite)
      ensures loading == old(loading) && error == old(error) && alert == old(alert)
    {
      quantity := CartPage.Decremented(quantity);
    }

    /** The number input: `Math.max(1, parseInt(value) || 1)`. */
    method TypeQuantity(value: string)
      requires Valid()
      modifies this
      ensures Valid() && quantity == CartPage.Typed(value)
      ensures product == old(product) && isFavorite == old(isFavorite)
      ensures loading == old(loading) && error == old(error) && alert == old(alert)
    {
      quantity := CartPage.Typed(value);
    }

    /** "+": exactly one more. */
    method Increment()
      requires Valid()
      modifies this
      ensures Valid() && quantity == old(quantity) + 1
      ensures product == old(product) && isFavorite == old(isFavorite)
      ensures loading == old(loading) && error == old(error) && alert == old(alert)
    {
      quantity := quantity + 1;
    }

    /** `handleAddToCart`: nothing without a product; otherwise the product goes into the
        cart with the stepper's quantity (`Number(quantity || 1)`, which is the quantity since
        it is never 0). */
    method AddToCart(session: Option<string>)
      requires Valid() && cart.Valid()
      modifies this, cart
      ensures Valid() && cart.Valid() && quantity == old(quantity) && product == old(product)
      ensures old(product).None? ==>
        cart.items == old(cart.items) && cart.requests == old(cart.requests) && alert == old(alert)
      ensures old(product).Some? ==>
        cart.items == AddLine(old(cart.items), old(product).value, old(quantity)) &&
        cart.requests == old(cart.requests) + Session.SendIf(session, AddItem(old(product).value.id, old(quantity), old(product).value.price)) &&
        alert == Some("Added " + IntToString(old(quantity)) + " item(s) to cart")
      ensures loading == old(loading) && error == old(error) && isFavorite == old(isFavorite)
    {
      if product.None? {
        return;
      }
      cart.Add(session, product.value, if quantity != 0 then quantity else 1);
      alert := Some("Added " + IntToString(quantity) + " item(s) to cart");
    }

    /** The heart: flips its own state and nothing else — the wishlist store is not touched. */
    method ToggleFavorite()
      modifies this
      ensures isFavorite == !old(isFavorite)
      ensures quantity == old(quantity) && product == old(product) && alert == old(alert)
      ensures loading == old(loading) && error == old(error)
    {
      isFavorite := !isFavorite;
    }
  }
}
