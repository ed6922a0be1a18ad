/** The "Recently Added" section of the home page: the six newest products, newest first. */
module RecentProducts {
  import opened Catalog
  import Wrappers

  /** `s.reverse()`. */
  function Reverse<T>(s: seq<T>): (r: seq<T>)
    ensures |r| == |s| && forall i :: 0 <= i < |s| ==> r[i] == s[|s| - 1 - i]
  {
    if s == [] then [] else Reverse(s[1..]) + [s[0]]
  }

  /** `s.slice(-n)` for `n >= 0`: the last `n` elements, or all of them when there are fewer. */
  function LastN<T>(s: seq<T>, n: nat): (r: seq<T>)
    ensures |r| == if n < |s| then n else |s|
    ensures forall i :: 0 <= i < |r| ==> r[i] == s[|s| - |r| + i]
  {
    if n < |s| then s[|s| - n..] else s
  }

  /** `products.slice(-6).reverse()`. */
  function Recent(products: seq<Product>): (r: seq<Product>)
  {
    Reverse(LastN(products, 6))
  }

  /** The section holds the last six products (all of them when there are fewer), newest
      first: its `i`-th card is the `i`-th product from the end. */
  lemma RecentIsNewestFirst(products: seq<Product>)
    ensures |Recent(products)| == if |products| < 6 then |products| else 6
    ensures |Recent(products)| <= 6
    ensures forall i :: 0 <= i < |Recent(products)| ==> Recent(products)[i] == products[|products| - 1 - i]
    ensures products != [] ==> Recent(products)[0] == products[|products| - 1]
  {
    var last := LastN(products, 6);
    var r := Reverse(last);
    assert forall i :: 0 <= i < |r| ==> r[i] == last[|last| - 1 - i];
  }

  /** What the section renders. */
  datatype Section = ErrorBox(message: string) | Loading | NoProducts | Grid(cards: seq<Product>)

  /** An error replaces the whole section; otherwise the spinner while loading, "No products
      available" for an empty list, and the cards for the rest. */
  function View(error: string, loading: bool, products: seq<Product>): (v: Section)
    ensures error != "" ==> v == ErrorBox(error)
    ensures error == "" && loading ==> v == Loading
    ensures v == NoProducts <==> error == "" && !loading && products == []
    ensures v.Grid? <==> error == "" && !loading && products != []
    ensures v.Grid? ==> v.cards == products
  {
    if error != "" then ErrorBox(error)
    else if loading then Loading
    else if products == [] then NoProducts
    else Grid(products)
  }

  /** The section once `fetchProducts` has settled, with the list the request returned or
      `None` when it failed: a failure shows only the error box; an empty catalogue shows "No
      products available"; otherwise at most six cards, the newest product first. */
  function AfterFetch(reply: Wrappers.Option<seq<Product>>): (v: Section)
    ensures reply.None? ==> v == ErrorBox("Failed to load recent products")
    ensures reply.Some? && reply.value == [] ==> v == NoProducts
    ensures reply.Some? && reply.value != [] ==>
      v.Grid? && v.cards == Recent(reply.value) && 1 <= |v.cards| <= 6 && v.cards[0] == reply.value[|reply.value| - 1]
  {
    if reply.None? then View("Failed to load recent products", false, [])
    else
      RecentIsNewestFirst(reply.value);
      View("", false, Recent(reply.value))
  }
}
