/**
 * The catalog view: which of the products pushed by the realtime
 * subscription are shown, given the selected category and the search term.
 */
module Catalog {
  import opened Wrappers
  import opened Text
  import opened Seqs

  /** The category filter value that matches every product. */
  const AllCategories: string := "all"

  /**
   * An active product as read from the item store.  The store query already
   * keeps only active products, so the active flag is not repeated here.
   */
  datatype Product = Product(
    id: string,
    name: string,
    price: int,
    stock: int,
    categoryId: string,
    description: Option<string>)

  predicate MatchesCategory(p: Product, selectedCategory: string)
  {
    selectedCategory == AllCategories || p.categoryId == selectedCategory
  }

  /**
   * Case-insensitive substring search on the name, or on the description
   * when there is one; an empty description is falsy and is not searched.
   */
  predicate MatchesSearch(p: Product, searchTerm: string)
  {
    Includes(Lower(p.name), Lower(searchTerm))
    || (p.description.Some? && p.description.value != ""
        && Includes(Lower(p.description.value), Lower(searchTerm)))
  }

  /** A product is listed when it is in the category, matches the search and is in stock. */
  predicate Listed(p: Product, selectedCategory: string, searchTerm: string)
  {
    MatchesCategory(p, selectedCategory) && MatchesSearch(p, searchTerm) && p.stock > 0
  }

  /**
   * `filteredProducts`: the listed products, in catalog order.  Every
   * product it returns is listed and in stock, every listed product is
   * returned as often as it occurs in the catalog, and the order of the
   * catalog is kept.
   */
  function FilteredProducts(products: seq<Product>, selectedCategory: string, searchTerm: string): (r: seq<Product>)
    ensures IsSubsequence(r, products)
    ensures forall p :: p in r ==> Listed(p, selectedCategory, searchTerm)
    ensures forall p :: p in products && Listed(p, selectedCategory, searchTerm) ==> p in r
    ensures forall p :: multiset(r)[p] == if Listed(p, selectedCategory, searchTerm) then multiset(products)[p] else 0
  {
    if products == [] then []
    else
      var rest := FilteredProducts(products[1..], selectedCategory, searchTerm);
      assert products == [products[0]] + products[1..];
      if Listed(products[0], selectedCategory, searchTerm) then [products[0]] + rest else rest
  }

  /** The empty search term matches every product. */
  lemma EmptySearchMatchesEverything(p: Product)
    ensures MatchesSearch(p, "")
  {
    EmptyIsIncluded(Lower(p.name));
  }

  /**
   * With no category and no search selected (the page's initial filter),
   * exactly the products in stock are shown.
   */
  lemma {:induction false} InitialFilterShowsStockedProducts(products: seq<Product>)
    ensures forall p :: p in FilteredProducts(products, AllCategories, "") <==> p in products && p.stock > 0
  {
    forall p | p in products && p.stock > 0
      ensures p in FilteredProducts(products, AllCategories, "")
    {
      EmptySearchMatchesEverything(p);
    }
    SubsequenceElements(FilteredProducts(products, AllCategories, ""), products);
  }
}
