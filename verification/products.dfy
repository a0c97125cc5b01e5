/** The product listing (`src/pages/Products.tsx`): the search and category
    filter, the category selector's entries and the quick add-to-cart
    button. The product record is the one of `src/data/products.ts`,
    without the fields no operation reads. */
module Products {
  import opened Common
  import opened Strings
  import Cart

  datatype Product = Product(
    id: string,
    name: string,
    price: int,
    image: string,
    shortDescription: string,
    category: string,
    inventory: int,
    tags: seq<string>)

  /** The search box matches the name, the short description or any tag, ignoring case. */
  predicate MatchesSearch(p: Product, query: string) {
    || IncludesIgnoringCase(p.name, query)
    || IncludesIgnoringCase(p.shortDescription, query)
    || exists i :: 0 <= i < |p.tags| && IncludesIgnoringCase(p.tags[i], query)
  }

  /** The category selector's `'all'` entry disables the category test. */
  predicate MatchesCategory(p: Product, category: string) {
    category == "all" || p.category == category
  }

  predicate Shown(p: Product, query: string, category: string) {
    MatchesSearch(p, query) && MatchesCategory(p, category)
  }

  /** `filteredProducts`: the products passing both tests, in catalogue order. */
  function FilteredProducts(products: seq<Product>, query: string, category: string): (r: seq<Product>)
    ensures forall p :: p in r <==> p in products && MatchesSearch(p, query) && MatchesCategory(p, category)
    ensures forall p :: multiset(r)[p] == if MatchesSearch(p, query) && MatchesCategory(p, category) then multiset(products)[p] else 0
    ensures SubsequenceOf(r, products)
  {
    FilterIsSubsequence((p: Product) => Shown(p, query, category), products);
    Filter((p: Product) => Shown(p, query, category), products)
  }

  /** An empty search keeps every product of the chosen category, and with
      `'all'` the whole catalogue. */
  lemma EmptyQueryKeepsAll(products: seq<Product>, category: string)
    ensures FilteredProducts(products, "", category) == Filter((p: Product) => p.category == category || category == "all", products)
    ensures FilteredProducts(products, "", "all") == products
  {
    forall p: Product ensures MatchesSearch(p, "") {
      EmptyQueryMatches(p.name);
    }
    FilterCongruent((p: Product) => Shown(p, "", category), (p: Product) => p.category == category || category == "all", products);
    FilterAll((p: Product) => Shown(p, "", "all"), products);
  }

  function CategoryOf(p: Product): string { p.category }

  /** `['all', ...new Set(products.map(p => p.category))]`. */
  function Categories(products: seq<Product>): seq<string> {
    SelectorEntries(CategoryOf, products)
  }

  /** The cart line id of a product added at `now`: `product_<id>_<now>`. */
  function LineId(p: Product, now: nat): string {
    "product_" + p.id + "_" + NatToString(now)
  }

  /** Two lines of the same product added at different times have different ids, so they never merge. */
  lemma LineIdsDiffer(p: Product, m: nat, n: nat)
    requires m != n
    ensures LineId(p, m) != LineId(p, n)
  {
    var prefix := "product_" + p.id + "_";
    assert LineId(p, m) == prefix + NatToString(m);
    assert LineId(p, n) == prefix + NatToString(n);
    if LineId(p, m) == LineId(p, n) {
      assert NatToString(m) == LineId(p, m)[|prefix|..];
      NatToStringInjective(m, n);
    }
  }

  /** The cart line for `quantity` units of `p` added at `now`. */
  function ProductLine(p: Product, quantity: int, now: nat): (r: Cart.CartItem)
    ensures r.kind == Cart.ProductItem && r.productId == Some(p.id) && r.lockingAmount.None?
    ensures r.id == LineId(p, now) && r.name == p.name && r.price == p.price && r.quantity == quantity
  {
    Cart.CartItem(LineId(p, now), Cart.ProductItem, None, Some(p.id), p.name, None, None,
                  p.price, quantity, p.image, None, None, None)
  }

  /** The quick "Add to cart" button: one unit. */
  function QuickAdd(items: Cart.Items, p: Product, now: nat): (r: Cart.Items)
    ensures !Cart.HasId(items, LineId(p, now)) ==>
      r == items + [ProductLine(p, 1, now)] && Cart.TotalItems(r) == Cart.TotalItems(items) + 1
  {
    var line := ProductLine(p, 1, now);
    if Cart.HasId(items, line.id) then Cart.AddItem(items, line)
    else
      Cart.AddNewTotals(items, line);
      Cart.AddItem(items, line)
  }
}
