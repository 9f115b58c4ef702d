/**
 * The dashboard's revenue-by-category doughnut: sales are resolved to their product through an
 * id-keyed map of the catalogue, and the totals of the sales whose product has a category are
 * summed per category, in the order categories are first met.
 */
module CategoryChart {
  import opened Wrappers
  import opened Seqs
  import opened Rollup
  import opened Supabase

  datatype Dataset = Dataset(title: string, data: seq<int>)

  datatype DoughnutChart = DoughnutChart(labels: seq<string>, datasets: seq<Dataset>)

  /** `new Map(products.map(p => [p.id, p]))`: a later product with the same id replaces an earlier one. */
  function ProductMap(products: seq<Product>): (m: map<string, Product>)
    ensures forall k :: k in m <==> exists i :: 0 <= i < |products| && products[i].id == k
    ensures forall k :: k in m ==> m[k].id == k && m[k] in products
    decreases |products|
  {
    if products == [] then map[]
    else
      var p := products[|products| - 1];
      var m := ProductMap(products[..|products| - 1]);
      assert forall i :: 0 <= i < |products| - 1 ==> products[..|products| - 1][i] == products[i];
      m[p.id := p]
  }

  /** With duplicate ids, the map holds the last product carrying the id. */
  lemma {:induction false} ProductMapLastWins(products: seq<Product>, i: nat)
    requires i < |products|
    requires forall j :: i < j < |products| ==> products[j].id != products[i].id
    ensures products[i].id in ProductMap(products) && ProductMap(products)[products[i].id] == products[i]
    decreases |products|
  {
    if i < |products| - 1 {
      var u := products[..|products| - 1];
      assert forall j :: i < j < |u| ==> u[j] == products[j];
      ProductMapLastWins(u, i);
    }
  }

  /** `product && product.category && sale.total`. */
  predicate Qualifies(pm: map<string, Product>, s: Sale) {
    s.productId in pm && pm[s.productId].category != "" && TruthyNum(s.total)
  }

  /** Each qualifying sale's total, keyed by its product's category, in sale order. */
  function CategoryContributions(pm: map<string, Product>, sales: seq<Sale>): (c: seq<Entry>)
    ensures |c| <= |sales|
    ensures forall i :: 0 <= i < |c| ==> c[i].key != "" && c[i].amount != 0
    decreases |sales|
  {
    if sales == [] then []
    else
      var s := sales[|sales| - 1];
      CategoryContributions(pm, sales[..|sales| - 1])
        + (if Qualifies(pm, s) then [Entry(pm[s.productId].category, s.total.value)] else [])
  }

  /** What one sale adds to `category`. */
  function SaleRevenueIn(pm: map<string, Product>, category: string): Sale -> int {
    (s: Sale) => if Qualifies(pm, s) && pm[s.productId].category == category then s.total.value else 0
  }

  /** What one sale adds to the chart as a whole. */
  function QualifyingTotal(pm: map<string, Product>): Sale -> int {
    (s: Sale) => if Qualifies(pm, s) then s.total.value else 0
  }

  /** A category's value is the sum of the totals of the qualifying sales of its products. */
  lemma {:induction false} RevenueOfCategory(pm: map<string, Product>, sales: seq<Sale>, category: string)
    ensures SumFor(CategoryContributions(pm, sales), category) == Sum(sales, SaleRevenueIn(pm, category))
    ensures Total(CategoryContributions(pm, sales)) == Sum(sales, QualifyingTotal(pm))
    decreases |sales|
  {
    if sales != [] {
      var u := sales[..|sales| - 1];
      var s := sales[|sales| - 1];
      RevenueOfCategory(pm, u, category);
      var c := CategoryContributions(pm, u);
      if Qualifies(pm, s) {
        SumForSnoc(c, Entry(pm[s.productId].category, s.total.value), category);
      } else {
        assert CategoryContributions(pm, sales) == c + [];
        assert c + [] == c;
      }
    }
  }

  /** The `chartData` memo: labels are the map's keys, data its values, in insertion order. */
  function Chart(sales: seq<Sale>, products: seq<Product>): DoughnutChart {
    if |sales| == 0 || |products| == 0 then DoughnutChart([], [])
    else
      var c := CategoryContributions(ProductMap(products), sales);
      DoughnutChart(Distinct(KeysOf(c)), [Dataset("Faturamento por Categoria", AmountsOf(Grouped(c)))])
  }

  /** The memo's body: fill the category map sale by sale, then read its keys and values. */
  method ChartData(sales: seq<Sale>, products: seq<Product>) returns (chart: DoughnutChart)
    ensures chart == Chart(sales, products)
  {
    if |sales| == 0 || |products| == 0 {
      return DoughnutChart([], []);
    }
    var productMap := ProductMap(products);
    var labels, categoryRevenue := Accumulate(CategoryContributions(productMap, sales));
    var data := AmountsOf(EntriesOf(labels, categoryRevenue));
    chart := DoughnutChart(labels, [Dataset("Faturamento por Categoria", data)]);
  }

  /** No sales or no products: nothing to show. */
  lemma EmptyChart(sales: seq<Sale>, products: seq<Product>)
    ensures (|sales| == 0 || |products| == 0) <==> Chart(sales, products).datasets == []
    ensures Chart(sales, products).datasets == [] ==> Chart(sales, products).labels == []
  {
  }

  /**
   * Labels are distinct and listed in the order of each category's first qualifying sale; the
   * value beside each label is that category's revenue; and the values add up to the total of all
   * qualifying sales.
   */
  lemma ChartShape(sales: seq<Sale>, products: seq<Product>)
    requires |sales| > 0 && |products| > 0
    ensures var chart, pm := Chart(sales, products), ProductMap(products);
      var c := CategoryContributions(pm, sales);
      && |chart.datasets| == 1
      && |chart.labels| == |chart.datasets[0].data|
      && NoDuplicates(chart.labels)
      && (forall i, j :: 0 <= i < j < |chart.labels| ==>
        FirstIndex(KeysOf(c), chart.labels[i]) < FirstIndex(KeysOf(c), chart.labels[j]))
      && (forall i :: 0 <= i < |chart.labels| ==>
        chart.datasets[0].data[i] == Sum(sales, SaleRevenueIn(pm, chart.labels[i])))
      && Sum(chart.datasets[0].data, (x: int) => x) == Sum(sales, QualifyingTotal(pm))
  {
    var pm := ProductMap(products);
    var c := CategoryContributions(pm, sales);
    var chart := Chart(sales, products);
    var d := Distinct(KeysOf(c));
    forall i, j | 0 <= i < j < |d|
      ensures d[i] in KeysOf(c) && d[j] in KeysOf(c) && FirstIndex(KeysOf(c), d[i]) < FirstIndex(KeysOf(c), d[j])
    {
      assert d[i] in d && d[j] in d;
      DistinctOrder(KeysOf(c), i, j);
    }
    forall i | 0 <= i < |d|
      ensures chart.datasets[0].data[i] == Sum(sales, SaleRevenueIn(pm, d[i]))
    {
      RevenueOfCategory(pm, sales, d[i]);
    }
    RevenueOfCategory(pm, sales, "");
    GroupedTotal(c);
    TotalIsSum(Grouped(c));
  }

  /** The `Total` of the entries is the plain sum of their amounts. */
  lemma {:induction false} TotalIsSum(c: seq<Entry>)
    ensures Total(c) == Sum(AmountsOf(c), (x: int) => x)
    decreases |c|
  {
    if c != [] {
      TotalIsSum(c[..|c| - 1]);
      assert AmountsOf(c)[..|c| - 1] == AmountsOf(c[..|c| - 1]);
    }
  }

  /** A category is listed exactly when some sale qualifies under it. */
  lemma LabelMembership(sales: seq<Sale>, products: seq<Product>, category: string)
    requires |sales| > 0 && |products| > 0
    ensures var pm := ProductMap(products);
      category in Chart(sales, products).labels <==>
        exists i :: 0 <= i < |sales| && Qualifies(pm, sales[i]) && pm[sales[i].productId].category == category
  {
    var pm := ProductMap(products);
    ContributionKeys(pm, sales, category);
  }

  lemma {:induction false} ContributionKeys(pm: map<string, Product>, sales: seq<Sale>, category: string)
    ensures category in KeysOf(CategoryContributions(pm, sales)) <==>
      exists i :: 0 <= i < |sales| && Qualifies(pm, sales[i]) && pm[sales[i].productId].category == category
    decreases |sales|
  {
    if sales != [] {
      var u := sales[..|sales| - 1];
      var s := sales[|sales| - 1];
      ContributionKeys(pm, u, category);
      var c := CategoryContributions(pm, u);
      var extra := if Qualifies(pm, s) then [Entry(pm[s.productId].category, s.total.value)] else [];
      assert KeysOf(c + extra) == KeysOf(c) + KeysOf(extra);
      assert forall i :: 0 <= i < |u| ==> u[i] == sales[i];
      if exists i :: 0 <= i < |sales| && Qualifies(pm, sales[i]) && pm[sales[i].productId].category == category {
        var i :| 0 <= i < |sales| && Qualifies(pm, sales[i]) && pm[sales[i].productId].category == category;
        if i < |u| {
          assert Qualifies(pm, u[i]);
        } else {
          assert KeysOf(extra) == [category];
        }
      }
    }
  }
}
