/**
 * The inventory page's figures: product count, low-stock count, stock value, the search filter
 * and the per-product status badge.
 */
module Estoque {
  import opened Wrappers
  import opened Seqs
  import opened Text
  import opened Supabase

  /** `(products || [])`: the hook's list, or none while it is null. */
  function ProductsOf(products: Option<seq<Product>>): seq<Product> {
    products.GetOr([])
  }

  /** `lowStockProducts`: how many products are at or below their minimum stock. */
  function LowStockCount(products: Option<seq<Product>>): nat {
    Count(ProductsOf(products), IsLowStock)
  }

  /** One product's stock value: `price * stock`, null read as 0. */
  function StockValue(p: Product): int {
    Num(p.price) * Num(p.stock)
  }

  /** `totalValue`. */
  function TotalValue(products: Option<seq<Product>>): int {
    Sum(ProductsOf(products), StockValue)
  }

  /** The name or the SKU contains the term, both lower-cased. */
  predicate MatchesSearch(p: Product, term: string) {
    Contains(Lower(p.name), Lower(term)) || Contains(Lower(p.sku), Lower(term))
  }

  function SearchFor(term: string): Product -> bool {
    (p: Product) => MatchesSearch(p, term)
  }

  /** `filteredProducts`. */
  function FilteredProducts(products: Option<seq<Product>>, term: string): seq<Product> {
    Filter(ProductsOf(products), SearchFor(term))
  }

  datatype StockStatus = Low | Medium | Normal {
    function Text(): string {
      match this
      case Low => "Baixo"
      case Medium => "Médio"
      case Normal => "Normal"
    }

    function BadgeClass(): string {
      match this
      case Low => "bg-red-100 text-red-800"
      case Medium => "bg-yellow-100 text-yellow-800"
      case Normal => "bg-green-100 text-green-800"
    }
  }

  /** The status badge: at or below the minimum, up to twice the minimum, or above that. */
  function Status(p: Product): (s: StockStatus)
    ensures s == Low <==> Num(p.stock) <= Num(p.minStock)
    ensures s == Medium <==> Num(p.minStock) < Num(p.stock) <= Num(p.minStock) * 2
    ensures s == Normal <==> Num(p.stock) > Num(p.minStock) && Num(p.stock) > Num(p.minStock) * 2
  {
    if Num(p.stock) <= Num(p.minStock) then Low
    else if Num(p.stock) <= Num(p.minStock) * 2 then Medium
    else Normal
  }

  /** The stock figure is drawn in red. */
  predicate StockInRed(p: Product) {
    Num(p.stock) <= Num(p.minStock)
  }

  /** The red figure, the 'Baixo' badge, and being counted as low stock all coincide. */
  lemma RedIffLow(p: Product)
    ensures StockInRed(p) <==> Status(p) == Low
    ensures StockInRed(p) <==> IsLowStock(p)
  {
  }

  /** The low-stock count is positive exactly when some product gets the 'Baixo' badge; null lists count 0. */
  lemma LowStockCountIff(products: Option<seq<Product>>)
    ensures LowStockCount(products) > 0 <==>
      exists i :: 0 <= i < |ProductsOf(products)| && Status(ProductsOf(products)[i]) == Low
    ensures LowStockCount(products) <= |ProductsOf(products)|
    ensures products.None? ==> LowStockCount(products) == 0
  {
    CountPositive(ProductsOf(products), IsLowStock);
  }

  /** With no negative price or stock, the stock value is not negative. */
  lemma {:induction false} TotalValueNonNegative(ps: seq<Product>)
    requires forall i :: 0 <= i < |ps| ==> Num(ps[i].price) >= 0 && Num(ps[i].stock) >= 0
    ensures Sum(ps, StockValue) >= 0
    decreases |ps|
  {
    if ps != [] {
      TotalValueNonNegative(ps[..|ps| - 1]);
      var p := ps[|ps| - 1];
      assert Num(p.price) * Num(p.stock) >= 0;
    }
  }

  /**
   * The search keeps the products in their order, and keeps a product exactly when its lower-cased
   * name or SKU contains the lower-cased term.
   */
  lemma SearchFilter(products: Option<seq<Product>>, term: string, p: Product)
    ensures IsSubsequence(FilteredProducts(products, term), ProductsOf(products))
    ensures p in FilteredProducts(products, term) <==> p in ProductsOf(products) && MatchesSearch(p, term)
  {
    FilterIsSubsequence(ProductsOf(products), SearchFor(term));
    FilterMembership(ProductsOf(products), SearchFor(term), p);
  }

  /** An empty search keeps every product. */
  lemma EmptySearchKeepsAll(products: Option<seq<Product>>)
    ensures FilteredProducts(products, "") == ProductsOf(products)
  {
    var ps := ProductsOf(products);
    forall i | 0 <= i < |ps|
      ensures SearchFor("")(ps[i])
    {
      ContainsEmpty(Lower(ps[i].name));
    }
    FilterAll(ps, SearchFor(""));
  }
}
