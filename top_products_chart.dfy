/**
 * The dashboard's "top products" bar chart: revenue per product id over the sales that name a
 * product and carry a non-zero total, the five largest in descending order, labelled with the
 * catalogue name.
 */
module TopProductsChart {
  import opened Wrappers
  import opened Seqs
  import opened Rollup
  import opened Supabase

  datatype Dataset = Dataset(title: string, data: seq<int>)

  datatype BarChart = BarChart(labels: seq<string>, datasets: seq<Dataset>)

  const Unknown := "Desconhecido"
  const MaxBars := 5

  /** `sale.product_id && sale.total`: the sale contributes to the chart. */
  predicate Contributes(s: Sale) {
    s.productId != "" && TruthyNum(s.total)
  }

  /** The contributions of the sales that count, in sale order. */
  function RevenueContributions(sales: seq<Sale>): (c: seq<Entry>)
    ensures |c| <= |sales|
    ensures forall i :: 0 <= i < |c| ==> c[i].key != "" && c[i].amount != 0
    decreases |sales|
  {
    if sales == [] then []
    else
      var s := sales[|sales| - 1];
      RevenueContributions(sales[..|sales| - 1])
        + (if Contributes(s) then [Entry(s.productId, s.total.value)] else [])
  }

  /** What one sale adds to product `id`'s revenue. */
  function SaleRevenueFor(id: string): Sale -> int {
    (s: Sale) => if Contributes(s) && s.productId == id then s.total.value else 0
  }

  /** A product's revenue is the sum of the totals of its contributing sales. */
  lemma {:induction false} RevenueOfProduct(sales: seq<Sale>, id: string)
    ensures SumFor(RevenueContributions(sales), id) == Sum(sales, SaleRevenueFor(id))
    decreases |sales|
  {
    if sales != [] {
      var u := sales[..|sales| - 1];
      var s := sales[|sales| - 1];
      RevenueOfProduct(u, id);
      if Contributes(s) {
        SumForSnoc(RevenueContributions(u), Entry(s.productId, s.total.value), id);
      } else {
        assert RevenueContributions(sales) == RevenueContributions(u) + [];
        assert RevenueContributions(u) + [] == RevenueContributions(u);
      }
    }
  }

  /** `topProducts`: the revenue map's entries, sorted by descending revenue, first five. */
  function TopProducts(sales: seq<Sale>): seq<Entry> {
    Take(SortDesc(Grouped(RevenueContributions(sales))), MaxBars)
  }

  /** The bar label of a product id: its catalogue name, or 'Desconhecido'. */
  function LabelFor(products: seq<Product>, id: string): string {
    var p := FindById(products, id);
    if p.Some? then p.value.name else Unknown
  }

  function Labels(products: seq<Product>, top: seq<Entry>): (r: seq<string>)
    ensures |r| == |top| && forall i :: 0 <= i < |top| ==> r[i] == LabelFor(products, top[i].key)
  {
    seq(|top|, i requires 0 <= i < |top| => LabelFor(products, top[i].key))
  }

  /** The `chartData` memo. */
  function Chart(sales: seq<Sale>, products: seq<Product>): BarChart {
    if |sales| == 0 || |products| == 0 then BarChart([], [])
    else
      var top := TopProducts(sales);
      BarChart(Labels(products, top), [Dataset("Faturamento", AmountsOf(top))])
  }

  /** The memo's body: fill the revenue map sale by sale, then sort, slice and label. */
  method ChartData(sales: seq<Sale>, products: seq<Product>) returns (chart: BarChart)
    ensures chart == Chart(sales, products)
  {
    if |sales| == 0 || |products| == 0 {
      return BarChart([], []);
    }
    var order, productRevenue := Accumulate(RevenueContributions(sales));
    var topProducts := Take(SortDesc(EntriesOf(order, productRevenue)), MaxBars);
    var labels := Labels(products, topProducts);
    var data := AmountsOf(topProducts);
    chart := BarChart(labels, [Dataset("Faturamento", data)]);
  }

  /** No sales or no products: no labels and no dataset. */
  lemma EmptyChart(sales: seq<Sale>, products: seq<Product>)
    ensures (|sales| == 0 || |products| == 0) <==> Chart(sales, products).datasets == []
    ensures Chart(sales, products).datasets == [] ==> Chart(sales, products).labels == []
  {
  }

  /**
   * At most five bars, one per distinct product id, with non-increasing revenues; each bar is the
   * id's summed revenue and is labelled with its catalogue name or 'Desconhecido'.
   */
  lemma ChartShape(sales: seq<Sale>, products: seq<Product>)
    requires |sales| > 0 && |products| > 0
    ensures var chart, top := Chart(sales, products), TopProducts(sales);
      && |chart.datasets| == 1
      && |chart.labels| == |chart.datasets[0].data| == |top| <= MaxBars
      && DistinctKeys(top)
      && (forall i, j :: 0 <= i < j < |top| ==> chart.datasets[0].data[i] >= chart.datasets[0].data[j])
      && (forall i :: 0 <= i < |top| ==>
        && chart.labels[i] == LabelFor(products, top[i].key)
        && chart.datasets[0].data[i] == Sum(sales, SaleRevenueFor(top[i].key)))
  {
    var c := RevenueContributions(sales);
    var top := TopProducts(sales);
    GroupedKeys(c);
    TopEntries(Grouped(c), MaxBars);
    forall i | 0 <= i < |top|
      ensures top[i].amount == Sum(sales, SaleRevenueFor(top[i].key))
    {
      TopIsGrouped(c, i);
      RevenueOfProduct(sales, top[i].key);
    }
  }

  /** Every listed entry is an id's grouped entry. */
  lemma TopIsGrouped(c: seq<Entry>, i: nat)
    requires i < |Take(SortDesc(Grouped(c)), MaxBars)|
    ensures var e := Take(SortDesc(Grouped(c)), MaxBars)[i];
      e in Grouped(c) && e.amount == SumFor(c, e.key) && e.key in KeysOf(c)
  {
    var r := SortDesc(Grouped(c));
    InMultiset(r, i);
    assert r[i] in multiset(Grouped(c));
    var j :| 0 <= j < |Grouped(c)| && Grouped(c)[j] == r[i];
    assert Distinct(KeysOf(c))[j] in Distinct(KeysOf(c));
  }

  /** When five bars are shown, a product id that is not among them earns no more than the fifth. */
  lemma OmittedEarnLess(sales: seq<Sale>, id: string)
    requires |TopProducts(sales)| == MaxBars
    requires id in KeysOf(RevenueContributions(sales))
    requires forall i :: 0 <= i < MaxBars ==> TopProducts(sales)[i].key != id
    ensures Sum(sales, SaleRevenueFor(id)) <= TopProducts(sales)[MaxBars - 1].amount
  {
    OmittedKey(RevenueContributions(sales), MaxBars, id);
    RevenueOfProduct(sales, id);
  }

  /** Bars of equal revenue keep the order of their products' first contributing sale. */
  lemma TiesKeepFirstSaleOrder(sales: seq<Sale>, i: nat, j: nat)
    requires i < j < |TopProducts(sales)|
    requires TopProducts(sales)[i].amount == TopProducts(sales)[j].amount
    ensures var ids, top := KeysOf(RevenueContributions(sales)), TopProducts(sales);
      top[i].key in ids && top[j].key in ids && FirstIndex(ids, top[i].key) < FirstIndex(ids, top[j].key)
  {
    SortedTiesKeepFirstOrder(RevenueContributions(sales), i, j);
  }
}
