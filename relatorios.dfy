/**
 * The reports page: what `handleExportPDF` puts in the document for each report (summary figures,
 * table head and one body row per record) or why it stops, and the data behind the page's charts.
 * Page layout, chart images and currency or date formatting are not modelled: money figures are
 * kept as numbers and dates as the stored text.
 */
module Relatorios {
  import opened Wrappers
  import opened Seqs
  import opened Text
  import opened Supabase
  import Estoque
  import Compras

  /** A summary figure before formatting: a count, or an amount of money (averages are exact). */
  datatype Figure = Tally(n: nat) | Money(amount: real)

  datatype SummaryItem = SummaryItem(title: string, figure: Figure)

  /** One row of the table: the record's fields in column order, before formatting. */
  datatype Row =
    | SaleRow(date: string, customer: string, product: string, quantity: Option<int>, total: int)
    | ProductRow(name: string, sku: string, category: string, stock: Option<int>, price: int)
    | CustomerRow(name: string, email: string, phone: string, spent: int)
    | FinancialRow(kind: string, description: string, amount: int)

  /** What the plan does. */
  datatype Export =
    | WaitForData
    | NothingToReport(alert: string)
    | ErrorDocument(text: string, fileName: string)
    | Document(summary: seq<SummaryItem>, head: seq<string>, body: seq<Row>)

  const NoSalesAlert := "Não há dados de vendas para gerar o relatório."
  const NoProductsAlert := "Não há dados de estoque para gerar o relatório."
  const NoCustomersAlert := "Não há dados de clientes para gerar o relatório."
  const NoFinancialAlert := "Não há dados financeiros para gerar o relatório."

  function SaleTotal(s: Sale): int {
    Num(s.total)
  }

  function CustomerSpent(c: Customer): int {
    Num(c.totalPurchases)
  }

  function Revenue(sales: seq<Sale>): int {
    Sum(sales, SaleTotal)
  }

  function NameOr(p: Option<Product>): string {
    if p.Some? && p.value.name != "" then p.value.name else "N/A"
  }

  function CustomerNameOr(c: Option<Customer>): string {
    if c.Some? && c.value.name != "" then c.value.name else "N/A"
  }

  function SaleRowOf(s: Sale): Row {
    SaleRow(s.createdAt, CustomerNameOr(s.customers), NameOr(s.products), s.quantity, Num(s.total))
  }

  function ProductRowOf(p: Product): Row {
    ProductRow(p.name, p.sku, p.category, p.stock, Num(p.price))
  }

  function CustomerRowOf(c: Customer): Row {
    CustomerRow(c.name, c.email, c.phone, Num(c.totalPurchases))
  }

  function MapRows<T>(s: seq<T>, f: T -> Row): (r: seq<Row>)
    ensures |r| == |s| && forall i :: 0 <= i < |s| ==> r[i] == f(s[i])
  {
    seq(|s|, i requires 0 <= i < |s| => f(s[i]))
  }

  /**
   * `handleExportPDF` up to the point where the document is drawn. `selected` is the chosen
   * report id; a missing list is the hook's `null`.
   */
  method ExportPlan(selected: string, loading: bool, sales: Option<seq<Sale>>, products: Option<seq<Product>>,
                    customers: Option<seq<Customer>>, purchases: Option<seq<Purchase>>)
    returns (plan: Export)
    ensures loading <==> plan == WaitForData
    ensures !loading && selected !in {"sales", "inventory", "customers", "financial"} ==>
      plan == ErrorDocument("Nenhum relatório selecionado.", "relatorio_erro.pdf")
    // sales report
    ensures !loading && selected == "sales" ==>
      if sales.None? || |sales.value| == 0 then plan == NothingToReport(NoSalesAlert)
      else
        var s := sales.value;
        && plan.Document?
        && plan.summary == [
          SummaryItem("Total de Vendas", Tally(|s|)),
          SummaryItem("Receita Total", Money(Revenue(s) as real)),
          SummaryItem("Ticket Médio", Money(Revenue(s) as real / |s| as real))]
        && |plan.body| == |s| && (forall i :: 0 <= i < |s| ==> plan.body[i] == SaleRowOf(s[i]))
    // inventory report
    ensures !loading && selected == "inventory" ==>
      if products.None? || |products.value| == 0 then plan == NothingToReport(NoProductsAlert)
      else
        var p := products.value;
        && plan.Document?
        && plan.summary == [
          SummaryItem("Total de Produtos", Tally(|p|)),
          SummaryItem("Valor em Estoque", Money(Estoque.TotalValue(products) as real)),
          SummaryItem("Produtos em Falta", Tally(Estoque.LowStockCount(products)))]
        && |plan.body| == |p| && (forall i :: 0 <= i < |p| ==> plan.body[i] == ProductRowOf(p[i]))
    // customers report
    ensures !loading && selected == "customers" ==>
      if customers.None? || |customers.value| == 0 then plan == NothingToReport(NoCustomersAlert)
      else
        var c := customers.value;
        && plan.Document?
        && plan.summary == [
          SummaryItem("Total de Clientes", Tally(|c|)),
          SummaryItem("Valor Total Gasto", Money(Sum(c, CustomerSpent) as real)),
          SummaryItem("Valor Médio/Cliente", Money(Sum(c, CustomerSpent) as real / |c| as real))]
        && |plan.body| == |c| && (forall i :: 0 <= i < |c| ==> plan.body[i] == CustomerRowOf(c[i]))
    // financial report
    ensures !loading && selected == "financial" ==>
      var revenue, expenses := Revenue(sales.GetOr([])), Compras.TotalSpent(purchases);
      if revenue == 0 && expenses == 0 then plan == NothingToReport(NoFinancialAlert)
      else
        && plan.Document?
        && plan.summary == [
          SummaryItem("Receita Total", Money(revenue as real)),
          SummaryItem("Despesas Totais", Money(expenses as real)),
          SummaryItem("Lucro Líquido", Money((revenue - expenses) as real))]
        && plan.body == [
          FinancialRow("Receita", "Total de Vendas", revenue),
          FinancialRow("Despesa", "Total de Compras", expenses),
          FinancialRow("Lucro Líquido", "Receita - Despesas", revenue - expenses)]
  {
    if loading {
      return WaitForData;
    }
    var summaryData: seq<SummaryItem> := [];
    var head: seq<string> := [];
    var body: seq<Row> := [];
    match selected {
    case "sales" =>
      if sales.None? || |sales.value| == 0 {
        return NothingToReport(NoSalesAlert);
      }
      var s := sales.value;
      var totalRevenue := Revenue(s);
      summaryData := [
        SummaryItem("Total de Vendas", Tally(|s|)),
        SummaryItem("Receita Total", Money(totalRevenue as real)),
        SummaryItem("Ticket Médio", Money(if |s| > 0 then totalRevenue as real / |s| as real else 0.0))];
      head := ["Data", "Cliente", "Produto", "Qtd", "Total"];
      body := MapRows(s, SaleRowOf);
    case "inventory" =>
      if products.None? || |products.value| == 0 {
        return NothingToReport(NoProductsAlert);
      }
      var p := products.value;
      var totalStockValue := Estoque.TotalValue(products);
      summaryData := [
        SummaryItem("Total de Produtos", Tally(|p|)),
        SummaryItem("Valor em Estoque", Money(totalStockValue as real)),
        SummaryItem("Produtos em Falta", Tally(Estoque.LowStockCount(products)))];
      head := ["Produto", "SKU", "Categoria", "Estoque", "Preço"];
      body := MapRows(p, ProductRowOf);
    case "customers" =>
      if customers.None? || |customers.value| == 0 {
        return NothingToReport(NoCustomersAlert);
      }
      var c := customers.value;
      var totalCustomerValue := Sum(c, CustomerSpent);
      summaryData := [
        SummaryItem("Total de Clientes", Tally(|c|)),
        SummaryItem("Valor Total Gasto", Money(totalCustomerValue as real)),
        SummaryItem("Valor Médio/Cliente", Money(if |c| > 0 then totalCustomerValue as real / |c| as real else 0.0))];
      head := ["Nome", "Email", "Telefone", "Total Gasto"];
      body := MapRows(c, CustomerRowOf);
    case "financial" =>
      var revenue := Revenue(sales.GetOr([]));
      var expenses := Compras.TotalSpent(purchases);
      var profit := revenue - expenses;
      if revenue == 0 && expenses == 0 {
        return NothingToReport(NoFinancialAlert);
      }
      summaryData := [
        SummaryItem("Receita Total", Money(revenue as real)),
        SummaryItem("Despesas Totais", Money(expenses as real)),
        SummaryItem("Lucro Líquido", Money(profit as real))];
      head := ["Tipo", "Descrição", "Valor"];
      body := [
        FinancialRow("Receita", "Total de Vendas", revenue),
        FinancialRow("Despesa", "Total de Compras", expenses),
        FinancialRow("Lucro Líquido", "Receita - Despesas", profit)];
    case _ =>
      return ErrorDocument("Nenhum relatório selecionado.", "relatorio_erro.pdf");
    }
    plan := Document(summaryData, head, body);
  }

  datatype ChartSeries = ChartSeries(labels: seq<string>, title: string, data: seq<int>)

  function QuantityOf(s: Sale): int {
    Num(s.quantity)
  }

  /** `salesReportData`: one bar per sale, 'Venda 1' to 'Venda n', or a single empty bar. */
  function SalesChart(sales: Option<seq<Sale>>): (c: ChartSeries)
    ensures var s := sales.GetOr([]);
      && c.title == "Vendas (Unidades)"
      && (|s| == 0 ==> c.labels == ["Sem Dados"] && c.data == [0])
      && (|s| > 0 ==>
        && |c.labels| == |c.data| == |s|
        && forall i :: 0 <= i < |s| ==> c.labels[i] == "Venda " + NatToString(i + 1) && c.data[i] == Num(s[i].quantity))
  {
    var s := sales.GetOr([]);
    if |s| > 0 then
      ChartSeries(
        seq(|s|, i requires 0 <= i < |s| => "Venda " + NatToString(i + 1)),
        "Vendas (Unidades)",
        seq(|s|, i requires 0 <= i < |s| => QuantityOf(s[i])))
    else ChartSeries(["Sem Dados"], "Vendas (Unidades)", [0])
  }

  /** The bar labels of the sales chart are all different. */
  lemma SalesChartLabelsDistinct(sales: Option<seq<Sale>>, i: nat, j: nat)
    requires i < j < |SalesChart(sales).labels|
    ensures SalesChart(sales).labels[i] != SalesChart(sales).labels[j]
  {
    var s := sales.GetOr([]);
    var c := SalesChart(sales);
    NatToStringInjective(i + 1, j + 1);
    assert c.labels[i][6..] == NatToString(i + 1);
    assert c.labels[j][6..] == NatToString(j + 1);
  }

  function SameProduct(id: string): Sale -> bool {
    (s: Sale) => s.productId == id
  }

  /** `productSales.reduce((sum, sale) => sum + (sale.quantity || 0), 0)`. */
  function UnitsSold(sales: seq<Sale>, id: string): int {
    Sum(Filter(sales, SameProduct(id)), QuantityOf)
  }

  /** `productPerformanceData`: units sold of each of the first five products, or 'Sem Produtos'. */
  function ProductPerformance(products: Option<seq<Product>>, sales: Option<seq<Sale>>): (c: ChartSeries)
    ensures var p := products.GetOr([]);
      && c.title == "Vendas por Produto"
      && (|p| == 0 ==> c.labels == ["Sem Produtos"] && c.data == [0])
      && (|p| > 0 ==>
        && |c.labels| == |c.data| == |Take(p, 5)| <= 5
        && forall i :: 0 <= i < |c.labels| ==> c.labels[i] == p[i].name && c.data[i] == UnitsSold(sales.GetOr([]), p[i].id))
  {
    var p := products.GetOr([]);
    if |p| > 0 then
      var top := Take(p, 5);
      ChartSeries(
        seq(|top|, i requires 0 <= i < |top| => top[i].name),
        "Vendas por Produto",
        seq(|top|, i requires 0 <= i < |top| => UnitsSold(sales.GetOr([]), top[i].id)))
    else ChartSeries(["Sem Produtos"], "Vendas por Produto", [0])
  }

  /** A product's bar adds up the quantity (null as 0) of exactly the sales naming it. */
  lemma UnitsSoldIsMaskedSum(sales: seq<Sale>, id: string)
    ensures UnitsSold(sales, id) == Sum(sales, (s: Sale) => if s.productId == id then Num(s.quantity) else 0)
  {
    SumFilter(sales, SameProduct(id), QuantityOf);
    SumCongruence(sales, Masked(SameProduct(id), QuantityOf), (s: Sale) => if s.productId == id then Num(s.quantity) else 0);
  }

  /** `customerSegmentData`: every customer counts as new; the other two segments are always 0. */
  function CustomerSegments(customers: Option<seq<Customer>>): (c: ChartSeries)
    ensures c.labels == ["Novos Clientes", "Clientes Recorrentes", "Clientes VIP"]
    ensures c.data == [|customers.GetOr([])|, 0, 0]
  {
    var n := |customers.GetOr([])|;
    ChartSeries(["Novos Clientes", "Clientes Recorrentes", "Clientes VIP"], "", if n > 0 then [n, 0, 0] else [0, 0, 0])
  }

  /** `financialReportData`: revenue, expenses, and their difference. */
  function FinancialChart(sales: Option<seq<Sale>>, purchases: Option<seq<Purchase>>): (c: ChartSeries)
    ensures c.labels == ["Receita", "Despesas", "Lucro"] && |c.data| == 3
    ensures c.data[2] == c.data[0] - c.data[1]
    ensures c.data[0] == Revenue(sales.GetOr([])) && c.data[1] == Compras.TotalSpent(purchases)
  {
    var totalRevenue := Revenue(sales.GetOr([]));
    var totalExpenses := Compras.TotalSpent(purchases);
    ChartSeries(["Receita", "Despesas", "Lucro"], "Resumo Financeiro", [totalRevenue, totalExpenses, totalRevenue - totalExpenses])
  }
}
