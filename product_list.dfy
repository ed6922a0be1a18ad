/** The filter effect of the product grid: a search stage, a category stage and a price stage,
    each an `Array.prototype.filter` over the previous stage's result. */
module ProductList {
  import opened Wrappers
  import opened Text
  import opened Seqs
  import opened Catalog

  /** The search test for a non-blank `searchTerm`. The term is lowercased but not trimmed; the
      number is `parseFloat(searchTerm)`, read here as its integer prefix. A missing description
      or category name behaves as "", which never contains a non-blank term. */
  predicate MatchesSearch(p: Product, searchTerm: string) {
    var term := ToLower(searchTerm);
    var number := ParseInt(searchTerm);
    Contains(ToLower(p.name), term) ||
    Contains(ToLower(p.description), term) ||
    Contains(ToLower(p.categoryName), term) ||
    Contains(IntToString(p.price), term) ||
    (number.Some? && p.price <= number.value)
  }

  /** The three stages as one condition: the search test when the term is not blank, the
      category test when some category is selected, and the price range always. */
  predicate Kept(p: Product, searchTerm: string, selected: seq<int>, range: PriceRange) {
    (Trim(searchTerm) == "" || MatchesSearch(p, searchTerm)) &&
    (|selected| == 0 || Selected(selected, p.categoryId)) &&
    range.Contains(p.price)
  }

  function SearchStage(products: seq<Product>, searchTerm: string): seq<Product> {
    if Trim(searchTerm) != "" then Filter(products, (p: Product) => MatchesSearch(p, searchTerm))
    else products
  }

  function CategoryStage(products: seq<Product>, selected: seq<int>): (r: seq<Product>)
    ensures |r| <= |products|
    ensures |selected| > 0 ==> forall k :: 0 <= k < |r| ==> Selected(selected, r[k].categoryId)
  {
    if |selected| > 0 then Filter(products, (p: Product) => Selected(selected, p.categoryId))
    else products
  }

  /** The filter effect. Every product it keeps lies in the price range and, when categories
      are selected, in one of them. */
  function FilterProducts(products: seq<Product>, searchTerm: string, selected: seq<int>, range: PriceRange)
    : (r: seq<Product>)
    ensures |r| <= |products|
    ensures forall k :: 0 <= k < |r| ==> range.Contains(r[k].price)
    ensures |selected| > 0 ==> forall k :: 0 <= k < |r| ==> Selected(selected, r[k].categoryId)
  {
    var c := CategoryStage(SearchStage(products, searchTerm), selected);
    var keep := (p: Product) => range.Contains(p.price);
    var r := Filter(c, keep);
    FilterMembers(c, keep);
    assert forall k :: 0 <= k < |r| ==> r[k] in c;
    r
  }

  /** The pipeline is a single filter by `Kept`. */
  lemma FilterProductsIsOneFilter(products: seq<Product>, searchTerm: string, selected: seq<int>, range: PriceRange)
    ensures FilterProducts(products, searchTerm, selected, range) ==
            Filter(products, (p: Product) => Kept(p, searchTerm, selected, range))
  {
    var search := (p: Product) => Trim(searchTerm) == "" || MatchesSearch(p, searchTerm);
    var category := (p: Product) => |selected| == 0 || Selected(selected, p.categoryId);
    var price := (p: Product) => range.Contains(p.price);
    var s1 := SearchStage(products, searchTerm);
    if Trim(searchTerm) != "" {
      FilterExt(products, (p: Product) => MatchesSearch(p, searchTerm), search);
    } else {
      FilterAll(products, search);
    }
    assert s1 == Filter(products, search);
    var s2 := CategoryStage(s1, selected);
    if |selected| > 0 {
      FilterExt(s1, (p: Product) => Selected(selected, p.categoryId), category);
    } else {
      FilterAll(s1, category);
    }
    assert s2 == Filter(s1, category);
    var both := (p: Product) => search(p) && category(p);
    FilterFilter(products, search, category, both);
    FilterFilter(products, both, price, (p: Product) => Kept(p, searchTerm, selected, range));
  }

  /** The result keeps the catalogue's order and holds exactly the products that pass all three
      stages. */
  lemma FilterProductsSpec(products: seq<Product>, searchTerm: string, selected: seq<int>, range: PriceRange)
    ensures var r := FilterProducts(products, searchTerm, selected, range);
      IsSubsequence(r, products) &&
      forall p :: p in r <==> p in products && Kept(p, searchTerm, selected, range)
  {
    FilterProductsIsOneFilter(products, searchTerm, selected, range);
    FilterIsSubsequence(products, (p: Product) => Kept(p, searchTerm, selected, range));
    FilterMembers(products, (p: Product) => Kept(p, searchTerm, selected, range));
  }

  /** A term of white space only filters nothing: the result is the one for the empty term. */
  lemma BlankTermFiltersNothing(products: seq<Product>, searchTerm: string, selected: seq<int>, range: PriceRange)
    requires Blank(searchTerm)
    ensures FilterProducts(products, searchTerm, selected, range) == FilterProducts(products, "", selected, range)
  {
    TrimEmptyIffBlank(searchTerm);
    TrimEmptyIffBlank("");
  }

  /** With no term, no category and the default range, every product with a non-negative price
      is shown, in catalogue order. */
  lemma DefaultsKeepEverything(products: seq<Product>)
    requires forall k :: 0 <= k < |products| ==> products[k].price >= 0
    ensures FilterProducts(products, "", [], AllPrices) == products
  {
    FilterProductsIsOneFilter(products, "", [], AllPrices);
    TrimEmptyIffBlank("");
    forall p | p in products ensures Kept(p, "", [], AllPrices) {
      var k :| 0 <= k < |products| && products[k] == p;
    }
    FilterAll(products, (p: Product) => Kept(p, "", [], AllPrices));
  }

  lemma ContainsSelf(s: string)
    ensures Contains(s, s)
  {
    assert s[..|s|] == s;
  }

  /** Searching for a product's own name finds it. */
  lemma FoundByName(p: Product)
    requires Trim(p.name) != ""
    ensures MatchesSearch(p, p.name)
  {
    ContainsSelf(ToLower(p.name));
  }

  /** A search term that reads as a number keeps every product priced at or below it, even one
      whose text does not mention the number. */
  lemma NumericTermKeepsCheaper(p: Product, n: nat)
    requires p.price <= n
    ensures MatchesSearch(p, NatToString(n))
  {
    ParseIntOfIntToString(n);
  }

  /** `Showing N product(s)`. */
  function ShowingLabel(count: nat): (caption: string)
    ensures count == 1 ==> caption == "1 product"
    ensures count != 1 ==> caption == NatToString(count) + " products"
  {
    NatToString(count) + " " + Plural(count, "product")
  }
}
