/** The browse page: the product list narrowed by category and by a
    case-insensitive search over name and description. */
module Browse {
  import Seqs
  import Text

  datatype Product = Product(id: int, name: string, description: string, price: int, unit: string, category: string)

  const Catalogue: seq<Product> := [
    Product(1, "Organic A2 Milk", "Farm-fresh organic A2 milk from grass-fed cows", 55, "500ml", "Milk"),
    Product(2, "Greek Yogurt", "Creamy Greek-style yogurt with active cultures", 65, "400g", "Yogurt"),
    Product(3, "Fresh Paneer", "Soft and fresh cottage cheese made daily", 120, "200g", "Cheese"),
    Product(4, "Full Cream Milk", "Rich and creamy full-fat milk", 50, "500ml", "Milk"),
    Product(5, "Toned Milk", "Low-fat milk perfect for daily consumption", 45, "500ml", "Milk"),
    Product(6, "Butter", "Creamy butter made from farm-fresh milk", 60, "100g", "Butter")
  ]

  const Categories: seq<string> := ["All", "Milk", "Yogurt", "Cheese", "Butter", "Cream"]

  predicate InCategory(p: Product, activeCategory: string) {
    activeCategory == "All" || p.category == activeCategory
  }

  predicate MatchesSearch(p: Product, searchTerm: string) {
    Text.Includes(Text.Lower(p.name), Text.Lower(searchTerm)) ||
    Text.Includes(Text.Lower(p.description), Text.Lower(searchTerm))
  }

  function Shown(activeCategory: string, searchTerm: string): Product -> bool {
    (p: Product) => InCategory(p, activeCategory) && MatchesSearch(p, searchTerm)
  }

  /** `filteredProducts`. */
  function FilteredProducts(products: seq<Product>, activeCategory: string, searchTerm: string): (r: seq<Product>)
    ensures forall i :: 0 <= i < |r| ==>
              r[i] in products && InCategory(r[i], activeCategory) && MatchesSearch(r[i], searchTerm)
    ensures forall i :: (0 <= i < |products| &&
              InCategory(products[i], activeCategory) && MatchesSearch(products[i], searchTerm)) ==> products[i] in r
    ensures forall p :: multiset(r)[p] ==
              if InCategory(p, activeCategory) && MatchesSearch(p, searchTerm) then multiset(products)[p] else 0
  {
    Seqs.FilterMultiset(products, Shown(activeCategory, searchTerm));
    Seqs.Filter(products, Shown(activeCategory, searchTerm))
  }

  lemma FilteredKeepsOrder(products: seq<Product>, activeCategory: string, searchTerm: string)
    ensures Seqs.SubsequenceOf(FilteredProducts(products, activeCategory, searchTerm), products)
  {
    Seqs.FilterIsSubsequence(products, Shown(activeCategory, searchTerm));
  }

  /** "All" admits every product; any other category exactly its own. */
  lemma CategoryAdmits(p: Product, activeCategory: string)
    ensures activeCategory == "All" ==> InCategory(p, activeCategory)
    ensures activeCategory != "All" ==> (InCategory(p, activeCategory) <==> p.category == activeCategory)
  {
  }

  /** Search terms that lower-case alike select alike. */
  lemma SearchIgnoresCase(products: seq<Product>, activeCategory: string, t1: string, t2: string)
    requires Text.Lower(t1) == Text.Lower(t2)
    ensures FilteredProducts(products, activeCategory, t1) == FilteredProducts(products, activeCategory, t2)
  {
    Seqs.FilterCongruent(products, Shown(activeCategory, t1), Shown(activeCategory, t2));
  }

  lemma SearchTermCaseIrrelevant(products: seq<Product>, activeCategory: string, term: string)
    ensures FilteredProducts(products, activeCategory, term) ==
            FilteredProducts(products, activeCategory, Text.Lower(term))
  {
    Text.LowerIdempotent(term);
    SearchIgnoresCase(products, activeCategory, term, Text.Lower(term));
  }

  /** With no search term and category "All", every product is shown. */
  lemma EverythingShownByDefault(products: seq<Product>)
    ensures FilteredProducts(products, "All", "") == products
  {
    forall p | p in products ensures Shown("All", "")(p) {
      Text.IncludesEmpty(Text.Lower(p.name));
    }
    Seqs.FilterKeepsAll(products, Shown("All", ""));
  }

  /** So the default view lists all six products of the catalogue. */
  lemma DefaultViewListsCatalogue()
    ensures |FilteredProducts(Catalogue, "All", "")| == 6
  {
    EverythingShownByDefault(Catalogue);
  }

  /** A category that no product carries shows nothing, whatever the search. */
  lemma EmptyCategoryShowsNothing(products: seq<Product>, activeCategory: string, searchTerm: string)
    requires activeCategory != "All"
    requires forall i :: 0 <= i < |products| ==> products[i].category != activeCategory
    ensures FilteredProducts(products, activeCategory, searchTerm) == []
  {
    var r := FilteredProducts(products, activeCategory, searchTerm);
    if |r| > 0 {
      assert false;
    }
  }

  /** "Cream" is offered as a category but no product has it. */
  lemma CreamShowsNothing(searchTerm: string)
    ensures "Cream" in Categories
    ensures FilteredProducts(Catalogue, "Cream", searchTerm) == []
  {
    assert forall i :: 0 <= i < |Catalogue| ==> Catalogue[i].category != "Cream";
    EmptyCategoryShowsNothing(Catalogue, "Cream", searchTerm);
  }
}
