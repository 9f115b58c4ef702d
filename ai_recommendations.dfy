/**
 * The AI recommendations page: the business summary sent along with the prompt, the page state
 * (`recommendations`, `loadingRecs`, `error`, `implementedRecs`), which recommendations are still
 * shown, and the priority badge. The language model behind the `ai-assistant` function is not
 * modelled: what it answers, once parsed, is an input.
 */
module AIRecommendations {
  import opened Wrappers
  import opened Seqs
  import opened Supabase
  import Estoque
  import Relatorios

  /** One recommendation as the reply's JSON carries it; `priority` is whatever text the reply holds. */
  datatype Recommendation = Recommendation(
    id: string, priority: string, category: string, title: string, description: string, link: string)

  /** The per-product part of the summary: name, stock and minimum stock. */
  datatype ProductSummary = ProductSummary(name: string, stock: Option<int>, minStock: Option<int>)

  /** The `context` object sent with the prompt; `products` is absent when the catalogue is. */
  datatype Context = Context(
    totalProducts: nat, totalSales: nat, totalCustomers: nat, totalRevenue: int,
    lowStockProductsCount: nat, products: Option<seq<ProductSummary> >)

  const MaxSummarised := 10

  const FetchFailed := "Não foi possível gerar as recomendações da IA. Verifique a configuração da sua chave de API."

  function Summary(p: Product): ProductSummary {
    ProductSummary(p.name, p.stock, p.minStock)
  }

  /**
   * The summary of the business: the three counts, the revenue and the shortage count agree with
   * the other pages (a missing list counts as empty), and the first ten products are summarised.
   */
  function BuildContext(products: Option<seq<Product>>, sales: Option<seq<Sale>>, customers: Option<seq<Customer>>)
    : (c: Context)
    ensures c.totalProducts == |products.GetOr([])|
    ensures c.totalSales == |sales.GetOr([])| && c.totalCustomers == |customers.GetOr([])|
    ensures c.totalRevenue == Relatorios.Revenue(sales.GetOr([]))
    ensures c.lowStockProductsCount == Estoque.LowStockCount(products)
    ensures c.lowStockProductsCount <= c.totalProducts
    ensures c.products.None? <==> products.None?
    ensures products.Some? ==>
      && |c.products.value| == |Take(products.value, MaxSummarised)| <= MaxSummarised
      && forall i :: 0 <= i < |c.products.value| ==> c.products.value[i] == Summary(products.value[i])
  {
    Estoque.LowStockCountIff(products);
    var summaries := if products.Some? then
        var top := Take(products.value, MaxSummarised);
        Some(seq(|top|, i requires 0 <= i < |top| => Summary(top[i])))
      else None;
    Context(
      if products.Some? then |products.value| else 0,
      if sales.Some? then |sales.value| else 0,
      if customers.Some? then |customers.value| else 0,
      if sales.Some? then Sum(sales.value, Relatorios.SaleTotal) else 0,
      if products.Some? then |Filter(products.value, IsLowStock)| else 0,
      summaries)
  }

  /** The recommendation has not been implemented yet. */
  function Pending(implemented: seq<string>): Recommendation -> bool {
    (r: Recommendation) => r.id !in implemented
  }

  /** `activeRecommendations`. */
  function ActiveOf(recs: seq<Recommendation>, implemented: seq<string>): (r: seq<Recommendation>)
    ensures IsSubsequence(r, recs)
  {
    FilterIsSubsequence(recs, Pending(implemented));
    Filter(recs, Pending(implemented))
  }

  /** A recommendation is shown exactly when it was received and its id has not been implemented. */
  lemma ActiveMembership(recs: seq<Recommendation>, implemented: seq<string>, r: Recommendation)
    ensures r in ActiveOf(recs, implemented) <==> r in recs && r.id !in implemented
  {
    FilterMembership(recs, Pending(implemented), r);
  }

  /** Implementing an id hides exactly the shown recommendations with that id, keeping the rest in order. */
  lemma ImplementHidesId(recs: seq<Recommendation>, implemented: seq<string>, id: string)
    ensures ActiveOf(recs, implemented + [id]) == Filter(ActiveOf(recs, implemented), (r: Recommendation) => r.id != id)
  {
    var q := (r: Recommendation) => r.id != id;
    FilterFilter(recs, Pending(implemented), q);
    FilterCongruence(recs, Pending(implemented + [id]), Both(Pending(implemented), q));
  }

  /** `getPriorityText`. */
  function PriorityText(priority: string): (t: string)
    ensures t in {"Alta", "Média", "Baixa", "Normal"}
    ensures t == "Normal" <==> priority !in {"high", "medium", "low"}
  {
    match priority
    case "high" => "Alta"
    case "medium" => "Média"
    case "low" => "Baixa"
    case _ => "Normal"
  }

  /** The badge classes of the three known priorities and of any other value. */
  const HighBadge := "bg-red-100 text-red-800 dark:bg-red-900/50 dark:text-red-300"
  const MediumBadge := "bg-yellow-100 text-yellow-800 dark:bg-yellow-900/50 dark:text-yellow-300"
  const LowBadge := "bg-green-100 text-green-800 dark:bg-green-900/50 dark:text-green-300"
  const NeutralBadge := "bg-gray-100 text-gray-800 dark:bg-gray-700 dark:text-gray-300"

  /** The four badges are four different class lists (their lengths differ). */
  lemma BadgesDistinct()
    ensures |HighBadge| == 60 && |MediumBadge| == 72 && |LowBadge| == 68 && |NeutralBadge| == 61
  {
  }

  /** `getPriorityColor`. */
  function PriorityColor(priority: string): (c: string)
    ensures c == NeutralBadge <==> priority !in {"high", "medium", "low"}
  {
    BadgesDistinct();
    match priority
    case "high" => HighBadge
    case "medium" => MediumBadge
    case "low" => LowBadge
    case _ => NeutralBadge
  }

  /** The three priorities the prompt asks for get three different texts and three different colours. */
  lemma PrioritiesDistinguished(a: string, b: string)
    requires a in {"high", "medium", "low"} && b in {"high", "medium", "low"} && a != b
    ensures PriorityText(a) != PriorityText(b) && PriorityColor(a) != PriorityColor(b)
  {
    PriorityMarks(a);
    PriorityMarks(b);
  }

  /** The first letter of the text and the length of the badge tell a known priority apart. */
  lemma PriorityMarks(p: string)
    requires p in {"high", "medium", "low"}
    ensures |PriorityText(p)| > 0
    ensures PriorityText(p)[0] == (if p == "high" then 'A' else if p == "medium" then 'M' else 'B')
    ensures |PriorityColor(p)| == (if p == "high" then 60 else if p == "medium" then 72 else 68)
  {
    BadgesDistinct();
  }

  /** The page's state. */
  class RecommendationsPage {
    var recommendations: seq<Recommendation>
    var loadingRecs: bool
    var error: Option<string>
    var implementedRecs: seq<string>

    /** The page mounts with no recommendations, loading, no error and nothing implemented. */
    constructor ()
      ensures recommendations == [] && loadingRecs && error.None? && implementedRecs == []
    {
      recommendations, loadingRecs, error, implementedRecs := [], true, None, [];
    }

    /** The recommendations the page lists. */
    function Active(): seq<Recommendation>
      reads this
    {
      ActiveOf(recommendations, implementedRecs)
    }

    /** The synchronous start of `fetchRecommendations`. */
    method BeginFetch()
      modifies this
      ensures loadingRecs && error.None?
      ensures recommendations == old(recommendations) && implementedRecs == old(implementedRecs)
    {
      loadingRecs := true;
      error := None;
    }

    /**
     * The rest of `fetchRecommendations`: `reply` is the parsed answer, or None when the function
     * failed or its reply was not a JSON array. A failure keeps the previous list and shows the
     * fixed message.
     */
    method CompleteFetch(reply: Option<seq<Recommendation>>)
      modifies this
      ensures !loadingRecs && implementedRecs == old(implementedRecs)
      ensures reply.Some? ==> recommendations == reply.value && error == old(error)
      ensures reply.None? ==> recommendations == old(recommendations) && error == Some(FetchFailed)
    {
      if reply.Some? {
        recommendations := reply.value;
      } else {
        error := Some(FetchFailed);
      }
      loadingRecs := false;
    }

    /** `handleImplementRecommendation`: the id is recorded and its recommendations leave the list. */
    method Implement(recId: string)
      modifies this
      ensures implementedRecs == old(implementedRecs) + [recId]
      ensures recommendations == old(recommendations) && loadingRecs == old(loadingRecs) && error == old(error)
      ensures Active() == Filter(old(Active()), (r: Recommendation) => r.id != recId)
      ensures forall i :: 0 <= i < |Active()| ==> Active()[i].id != recId
    {
      ImplementHidesId(recommendations, implementedRecs, recId);
      implementedRecs := implementedRecs + [recId];
    }
  }
}
