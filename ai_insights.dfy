/**
 * The dashboard's "Insights da IA" card: an ordered set of independent rules over the product
 * catalogue, the sales and the optional forecast, with a fixed fallback when none applies.
 */
module AIInsights {
  import opened Wrappers
  import opened Seqs
  import opened Rollup
  import opened Supabase
  import opened SalesPrediction

  /** One insight card; the values it shows are its payload (currency formatting is not modelled). */
  datatype Insight = SalesForecast(nextWeekRevenue: int) | LowStockAlert(count: nat) | TopProduct(name: string) | GetStarted {

    /** The position of the rule that produces this card. */
    function Rank(): nat {
      match this
      case SalesForecast(_) => 0
      case LowStockAlert(_) => 1
      case TopProduct(_) => 2
      case GetStarted => 3
    }

    function Id(): (s: string)
      ensures s == ["sales-prediction", "low-stock", "top-product", "get-started"][Rank()]
    {
      match this
      case SalesForecast(_) => "sales-prediction"
      case LowStockAlert(_) => "low-stock"
      case TopProduct(_) => "top-product"
      case GetStarted => "get-started"
    }

    /** The page the card's action opens. */
    function Link(): string {
      match this
      case SalesForecast(_) => "/vendas"
      case LowStockAlert(_) => "/estoque"
      case TopProduct(_) => "/estoque"
      case GetStarted => "/vendas"
    }

    function Title(): string {
      match this
      case SalesForecast(_) => "Previsão de Vendas"
      case LowStockAlert(_) => "Alerta de Estoque Baixo"
      case TopProduct(_) => "Produto em Destaque"
      case GetStarted => "Comece a Usar a IA"
    }
  }

  function PredictedValue(p: Prediction): int {
    p.predictedValue
  }

  /** `predictions.slice(0, 7).reduce((sum, p) => sum + p.predicted_value, 0)`. */
  function NextWeekRevenue(predictions: seq<Prediction>): int {
    Sum(Take(predictions, 7), PredictedValue)
  }

  function PredictionRule(pd: Option<PredictionData>): Option<Insight> {
    if pd.Some? && |pd.value.predictions| > 0 then Some(SalesForecast(NextWeekRevenue(pd.value.predictions)))
    else None
  }

  function LowStockRule(products: seq<Product>): Option<Insight> {
    var n := Count(products, IsLowStock);
    if n > 0 then Some(LowStockAlert(n)) else None
  }

  /** Each sale adds its total (null as 0) to its product's entry. */
  function Contributions(sales: seq<Sale>): (c: seq<Entry>)
    ensures |c| == |sales|
    ensures forall i :: 0 <= i < |sales| ==> c[i] == Entry(sales[i].productId, Num(sales[i].total))
  {
    seq(|sales|, i requires 0 <= i < |sales| => Entry(sales[i].productId, Num(sales[i].total)))
  }

  /** The best-selling product's card, looked up by the id the sorted revenue map puts first. */
  function TopProductRule(sales: seq<Sale>, products: seq<Product>): Option<Insight> {
    if |sales| > 0 && |products| > 0 then
      var sorted := SortDesc(Grouped(Contributions(sales)));
      if |sorted| > 0 then
        var found := FindById(products, sorted[0].key);
        if found.Some? then Some(TopProduct(found.value.name)) else None
      else None
    else None
  }

  function Cards(r: Option<Insight>): seq<Insight> {
    if r.Some? then [r.value] else []
  }

  /** The cards of the rules that fired, in rule order, or the fallback card when none did. */
  function Assemble(a: Option<Insight>, b: Option<Insight>, c: Option<Insight>): seq<Insight> {
    var generated := Cards(a) + Cards(b) + Cards(c);
    if |generated| == 0 then [GetStarted] else generated
  }

  /** The `insights` memo. */
  function Insights(sales: seq<Sale>, products: seq<Product>, pd: Option<PredictionData>): seq<Insight> {
    Assemble(PredictionRule(pd), LowStockRule(products), TopProductRule(sales, products))
  }

  /** The cards are exactly those of the rules that fired, or the fallback alone. */
  lemma AssembleMembers(a: Option<Insight>, b: Option<Insight>, c: Option<Insight>, x: Insight)
    ensures x in Assemble(a, b, c) <==>
      || a == Some(x) || b == Some(x) || c == Some(x)
      || (a.None? && b.None? && c.None? && x == GetStarted)
  {
  }

  /** The memo's body, pushing one card per rule that fires, then the fallback. */
  method ComputeInsights(sales: seq<Sale>, products: seq<Product>, pd: Option<PredictionData>)
    returns (generated: seq<Insight>)
    ensures generated == Insights(sales, products, pd)
  {
    generated := [];
    if pd.Some? && |pd.value.predictions| > 0 {
      generated := generated + [SalesForecast(NextWeekRevenue(pd.value.predictions))];
    }
    assert generated == Cards(PredictionRule(pd));
    var lowStockProducts := Filter(products, IsLowStock);
    if |lowStockProducts| > 0 {
      generated := generated + [LowStockAlert(|lowStockProducts|)];
    }
    assert generated == Cards(PredictionRule(pd)) + Cards(LowStockRule(products));
    var top := TopProductCard(sales, products);
    generated := generated + Cards(top);
    if |generated| == 0 {
      generated := generated + [GetStarted];
    }
  }

  /** The best-selling product block: fill the revenue map, sort its entries, look up the first id. */
  method TopProductCard(sales: seq<Sale>, products: seq<Product>) returns (card: Option<Insight>)
    ensures card == TopProductRule(sales, products)
  {
    card := None;
    if |sales| > 0 && |products| > 0 {
      var order, productRevenue := Accumulate(Contributions(sales));
      var sorted := SortDesc(EntriesOf(order, productRevenue));
      if |sorted| > 0 {
        var topProduct := FindById(products, sorted[0].key);
        if topProduct.Some? {
          card := Some(TopProduct(topProduct.value.name));
        }
      }
    }
  }

  lemma RuleRanks(sales: seq<Sale>, products: seq<Product>, pd: Option<PredictionData>)
    ensures PredictionRule(pd).Some? ==> PredictionRule(pd).value.SalesForecast?
    ensures LowStockRule(products).Some? ==> LowStockRule(products).value.LowStockAlert?
    ensures TopProductRule(sales, products).Some? ==> TopProductRule(sales, products).value.TopProduct?
  {
  }

  /**
   * Cards come in rule order (forecast, low stock, top product, fallback), so their ids are
   * distinct, and there are between one and three of them.
   */
  lemma InsightsOrdered(sales: seq<Sale>, products: seq<Product>, pd: Option<PredictionData>)
    ensures var r := Insights(sales, products, pd);
      && 1 <= |r| <= 3
      && (forall i, j :: 0 <= i < j < |r| ==> r[i].Rank() < r[j].Rank())
      && (forall i, j :: 0 <= i < j < |r| ==> r[i].Id() != r[j].Id())
  {
    RuleRanks(sales, products, pd);
    AssembleOrdered(PredictionRule(pd), LowStockRule(products), TopProductRule(sales, products));
  }

  lemma AssembleOrdered(a: Option<Insight>, b: Option<Insight>, c: Option<Insight>)
    requires a.Some? ==> a.value.SalesForecast?
    requires b.Some? ==> b.value.LowStockAlert?
    requires c.Some? ==> c.value.TopProduct?
    ensures var r := Assemble(a, b, c);
      && 1 <= |r| <= 3
      && (forall i, j :: 0 <= i < j < |r| ==> r[i].Rank() < r[j].Rank())
      && (forall i, j :: 0 <= i < j < |r| ==> r[i].Id() != r[j].Id())
  {
    var r := Assemble(a, b, c);
    forall i, j | 0 <= i < j < |r|
      ensures r[i].Rank() < r[j].Rank() && r[i].Id() != r[j].Id()
    {
      var x, y := r[i], r[j];
      assert x.Rank() < y.Rank();
      assert x.Id() == ["sales-prediction", "low-stock", "top-product", "get-started"][x.Rank()];
      assert y.Id() == ["sales-prediction", "low-stock", "top-product", "get-started"][y.Rank()];
    }
  }

  /** The forecast card appears exactly when the forecast has predictions, showing the next seven days' sum. */
  lemma PredictionInsightIff(sales: seq<Sale>, products: seq<Product>, pd: Option<PredictionData>)
    ensures var r := Insights(sales, products, pd);
      (exists i :: 0 <= i < |r| && r[i].SalesForecast?) <==> (pd.Some? && |pd.value.predictions| > 0)
    ensures pd.Some? && |pd.value.predictions| > 0 ==>
      Insights(sales, products, pd)[0] == SalesForecast(Sum(Take(pd.value.predictions, 7), PredictedValue))
  {
    var a := PredictionRule(pd);
    RuleRanks(sales, products, pd);
    AssembleForecastFirst(a, LowStockRule(products), TopProductRule(sales, products));
    assert Insights(sales, products, pd) == Assemble(a, LowStockRule(products), TopProductRule(sales, products));
    if pd.Some? && |pd.value.predictions| > 0 {
      assert a.value == SalesForecast(Sum(Take(pd.value.predictions, 7), PredictedValue));
    }
  }

  /** Only the first rule yields a forecast card, and when it fires its card comes first. */
  lemma AssembleForecastFirst(a: Option<Insight>, b: Option<Insight>, c: Option<Insight>)
    requires a.Some? ==> a.value.SalesForecast?
    requires b.Some? ==> b.value.LowStockAlert?
    requires c.Some? ==> c.value.TopProduct?
    ensures var r := Assemble(a, b, c);
      (exists i :: 0 <= i < |r| && r[i].SalesForecast?) <==> a.Some?
    ensures a.Some? ==> Assemble(a, b, c)[0] == a.value
  {
    var r := Assemble(a, b, c);
    if a.Some? {
      assert r[0] == a.value;
    }
  }

  /** The low-stock card appears exactly when some product is at or below its minimum, and counts them. */
  lemma LowStockInsightIff(sales: seq<Sale>, products: seq<Product>, pd: Option<PredictionData>)
    ensures var r := Insights(sales, products, pd);
      (exists i :: 0 <= i < |r| && r[i].LowStockAlert?)
        <==> exists j :: 0 <= j < |products| && IsLowStock(products[j])
    ensures var r := Insights(sales, products, pd);
      forall i :: 0 <= i < |r| && r[i].LowStockAlert? ==>
        r[i].count == |Filter(products, IsLowStock)|
  {
    RuleRanks(sales, products, pd);
    CountPositive(products, IsLowStock);
    AssembleLowStock(PredictionRule(pd), LowStockRule(products), TopProductRule(sales, products));
    assert Insights(sales, products, pd) == Assemble(PredictionRule(pd), LowStockRule(products), TopProductRule(sales, products));
  }

  /** Only the second rule yields a low-stock card, and every such card is the one it produced. */
  lemma AssembleLowStock(a: Option<Insight>, b: Option<Insight>, c: Option<Insight>)
    requires a.Some? ==> a.value.SalesForecast?
    requires b.Some? ==> b.value.LowStockAlert?
    requires c.Some? ==> c.value.TopProduct?
    ensures var r := Assemble(a, b, c);
      (exists i :: 0 <= i < |r| && r[i].LowStockAlert?) <==> b.Some?
    ensures var r := Assemble(a, b, c);
      forall i :: 0 <= i < |r| && r[i].LowStockAlert? ==> b == Some(r[i])
  {
    var r := Assemble(a, b, c);
    if b.Some? {
      AssembleMembers(a, b, c, b.value);
      var i :| 0 <= i < |r| && r[i] == b.value;
    }
    forall i | 0 <= i < |r| && r[i].LowStockAlert?
      ensures b == Some(r[i])
    {
      AssembleMembers(a, b, c, r[i]);
    }
  }

  /** With no sales or no products, the top-product rule is not evaluated. */
  lemma TopProductNeedsData(sales: seq<Sale>, products: seq<Product>, pd: Option<PredictionData>)
    requires |sales| == 0 || |products| == 0
    ensures var r := Insights(sales, products, pd);
      forall i :: 0 <= i < |r| ==> !r[i].TopProduct?
  {
    RuleRanks(sales, products, pd);
  }

  /**
   * The featured product is the catalogue's first product with the top-selling id: the id with the
   * largest summed total, ties going to the id whose first sale comes earliest.
   */
  lemma TopProductChoice(sales: seq<Sale>, products: seq<Product>, pd: Option<PredictionData>, name: string)
    requires TopProduct(name) in Insights(sales, products, pd)
    ensures exists key :: (IsTopKey(Contributions(sales), key)
      && FindById(products, key).Some? && FindById(products, key).value.name == name)
  {
    RuleRanks(sales, products, pd);
    AssembleMembers(PredictionRule(pd), LowStockRule(products), TopProductRule(sales, products), TopProduct(name));
    assert TopProductRule(sales, products) == Some(TopProduct(name));
    SortedHeadIsTopKey(Contributions(sales));
  }

  /** The cards about products open the stock page; the cards about sales open the sales page. */
  lemma InsightLinks(sales: seq<Sale>, products: seq<Product>, pd: Option<PredictionData>)
    ensures var r := Insights(sales, products, pd);
      forall i :: 0 <= i < |r| ==>
        && r[i].Link() in {"/vendas", "/estoque"}
        && (r[i].Link() == "/estoque" <==> r[i].LowStockAlert? || r[i].TopProduct?)
  {
  }

  /**
   * With sales and products present and the top-selling id in the catalogue, the card is shown
   * and names that product.
   */
  lemma TopProductShown(sales: seq<Sale>, products: seq<Product>, pd: Option<PredictionData>, key: string)
    requires |sales| > 0 && |products| > 0
    requires IsTopKey(Contributions(sales), key) && FindById(products, key).Some?
    ensures TopProduct(FindById(products, key).value.name) in Insights(sales, products, pd)
  {
    var c := Contributions(sales);
    SortedHeadIsTopKey(c);
    TopKeyUnique(c, key, SortDesc(Grouped(c))[0].key);
    var card := TopProduct(FindById(products, key).value.name);
    assert TopProductRule(sales, products) == Some(card);
    AssembleMembers(PredictionRule(pd), LowStockRule(products), TopProductRule(sales, products), card);
  }

  /**
   * When the top-selling id has no catalogue entry there is no top-product card: the runner-up is
   * not tried.
   */
  lemma MissingTopProduct(sales: seq<Sale>, products: seq<Product>, pd: Option<PredictionData>, key: string)
    requires IsTopKey(Contributions(sales), key) && FindById(products, key).None?
    ensures var r := Insights(sales, products, pd);
      forall i :: 0 <= i < |r| ==> !r[i].TopProduct?
  {
    MissingTopRule(sales, products, key);
    RuleRanks(sales, products, pd);
    var r := Insights(sales, products, pd);
    forall i | 0 <= i < |r|
      ensures !r[i].TopProduct?
    {
      AssembleMembers(PredictionRule(pd), LowStockRule(products), TopProductRule(sales, products), r[i]);
    }
  }

  lemma MissingTopRule(sales: seq<Sale>, products: seq<Product>, key: string)
    requires IsTopKey(Contributions(sales), key) && FindById(products, key).None?
    ensures TopProductRule(sales, products).None?
  {
    var c := Contributions(sales);
    if |sales| > 0 && |products| > 0 {
      SortedHeadIsTopKey(c);
      TopKeyUnique(c, key, SortDesc(Grouped(c))[0].key);
    }
  }

  /** The fallback card appears exactly when no rule fired, so the list is never empty. */
  lemma FallbackIff(sales: seq<Sale>, products: seq<Product>, pd: Option<PredictionData>)
    ensures var r := Insights(sales, products, pd);
      && |r| > 0
      && (GetStarted in r <==>
        PredictionRule(pd).None? && LowStockRule(products).None? && TopProductRule(sales, products).None?)
  {
    RuleRanks(sales, products, pd);
    AssembleMembers(PredictionRule(pd), LowStockRule(products), TopProductRule(sales, products), GetStarted);
  }
}
