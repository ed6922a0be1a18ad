/** The catalogue entities the storefront passes between its pages and stores. */
module Catalog {
  import opened Wrappers

  /** A product as the `/products` endpoint returns it. A missing `description` or
      `category_name` is the empty string; a missing `category_id` is `None`. A missing price
      is 0, which is what every `price || 0` in the client turns it into. */
  datatype Product = Product(
    id: int,
    name: string,
    price: int,
    image: string,
    description: string,
    categoryId: Option<int>,
    categoryName: string)

  /** The upper end of a price range: a number or JavaScript's `Infinity`. */
  datatype Bound = Finite(n: int) | Infinity {
    /** `p <= max`. */
    predicate Admits(p: int) {
      Infinity? || p <= n
    }
  }

  /** `{ min, max }` as the shop page and the price radios hold it. */
  datatype PriceRange = PriceRange(min: int, max: Bound) {
    /** `price >= min && price <= max`. */
    predicate Contains(p: int) {
      min <= p && max.Admits(p)
    }
  }

  /** `{ min: 0, max: Infinity }`, the default range and the one "Clear All Filters" restores. */
  const AllPrices := PriceRange(0, Infinity)

  /** `true` when `id` occurs in `ids` (`ids.includes(id)`). */
  predicate Selected(ids: seq<int>, id: Option<int>) {
    id.Some? && id.value in ids
  }
}
