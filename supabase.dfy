/**
 * The database rows the application reads (`Product`, `Customer`, `Sale`, `Purchase`), their status
 * enumerations, and the check that decides whether the backend client is configured.
 *
 * Numeric columns are `Option<int>` (money in cents): the tables allow null, and the components
 * either coerce null to 0 or guard with `x || 0`. A text column that may be null is a `string`
 * where "" stands for both null and the empty string, since the components only test it for truthiness.
 */
module Supabase {
  import opened Wrappers
  import opened Text

  datatype CustomerStatus = CustomerActive | CustomerInactive {
    function Name(): (s: string)
      ensures s == "active" || s == "inactive"
    {
      match this
      case CustomerActive => "active"
      case CustomerInactive => "inactive"
    }
  }

  datatype SaleStatus = SalePending | SaleCompleted | SaleCancelled {
    function Name(): (s: string)
      ensures s == "pending" || s == "completed" || s == "cancelled"
    {
      match this
      case SalePending => "pending"
      case SaleCompleted => "completed"
      case SaleCancelled => "cancelled"
    }
  }

  datatype PurchaseStatus = PurchasePending | PurchaseReceived | PurchaseCancelled {
    function Name(): (s: string)
      ensures s == "pending" || s == "received" || s == "cancelled"
    {
      match this
      case PurchasePending => "pending"
      case PurchaseReceived => "received"
      case PurchaseCancelled => "cancelled"
    }
  }

  /** The status column read back from its text: defined on exactly the three names. */
  function ParseSaleStatus(s: string): (r: Option<SaleStatus>)
    ensures r.Some? ==> r.value.Name() == s
  {
    if s == "pending" then Some(SalePending)
    else if s == "completed" then Some(SaleCompleted)
    else if s == "cancelled" then Some(SaleCancelled)
    else None
  }

  function ParsePurchaseStatus(s: string): (r: Option<PurchaseStatus>)
    ensures r.Some? ==> r.value.Name() == s
  {
    if s == "pending" then Some(PurchasePending)
    else if s == "received" then Some(PurchaseReceived)
    else if s == "cancelled" then Some(PurchaseCancelled)
    else None
  }

  function ParseCustomerStatus(s: string): (r: Option<CustomerStatus>)
    ensures r.Some? ==> r.value.Name() == s
  {
    if s == "active" then Some(CustomerActive)
    else if s == "inactive" then Some(CustomerInactive)
    else None
  }

  /** Each status is stored under a name of its own, and its name reads back as that status. */
  lemma StatusNamesRoundTrip(a: SaleStatus, b: PurchaseStatus, c: CustomerStatus)
    ensures ParseSaleStatus(a.Name()) == Some(a)
    ensures ParsePurchaseStatus(b.Name()) == Some(b)
    ensures ParseCustomerStatus(c.Name()) == Some(c)
  {
  }

  datatype Product = Product(
    id: string, name: string, sku: string, category: string,
    price: Option<int>, cost: Option<int>, stock: Option<int>, minStock: Option<int>,
    supplier: string, createdAt: string, updatedAt: string)

  datatype Customer = Customer(
    id: string, name: string, email: string, phone: string, company: string,
    totalPurchases: Option<int>, lastPurchase: string, status: CustomerStatus,
    createdAt: string, updatedAt: string)

  /** `products` and `customers` are the rows a select with a join attaches. */
  datatype Sale = Sale(
    id: string, productId: string, customerId: string,
    quantity: Option<int>, unitPrice: Option<int>, total: Option<int>,
    status: SaleStatus, createdAt: string, updatedAt: string,
    products: Option<Product>, customers: Option<Customer>)

  datatype Purchase = Purchase(
    id: string, productId: string, quantity: Option<int>, unitCost: Option<int>,
    total: Option<int>, supplier: string, status: PurchaseStatus,
    createdAt: string, updatedAt: string, products: Option<Product>)

  /** A number column is truthy when it is present and not 0. */
  predicate TruthyNum(x: Option<int>) {
    x.Some? && x.value != 0
  }

  /** `p.stock <= p.min_stock`, with null read as 0. */
  predicate IsLowStock(p: Product) {
    Num(p.stock) <= Num(p.minStock)
  }

  /** `products.find(p => p.id === id)`: the first product with that id, if any. */
  function FindById(products: seq<Product>, id: string): (r: Option<Product>)
    ensures r.Some? ==> r.value in products && r.value.id == id
    ensures r.None? <==> forall i :: 0 <= i < |products| ==> products[i].id != id
    ensures r.Some? ==> exists i :: (0 <= i < |products| && products[i] == r.value
      && forall j :: 0 <= j < i ==> products[j].id != id)
  {
    if products == [] then None
    else if products[0].id == id then Some(products[0])
    else
      var r := FindById(products[1..], id);
      assert forall i :: 0 <= i < |products| - 1 ==> products[1..][i] == products[i + 1];
      r
  }

  /**
   * `isSupabaseConfigured()`, read as a boolean: the URL and the anonymous key are both set and
   * non-empty, and the URL mentions the hosted service's domain.
   */
  predicate IsSupabaseConfigured(url: Option<string>, anonKey: Option<string>) {
    Truthy(url) && Truthy(anonKey) && Contains(url.value, "supabase.co")
  }

  /**
   * The configuration holds exactly when both values are present and non-empty and the domain
   * occurs at some position of the URL; a missing or empty URL or key always fails it.
   */
  lemma ConfiguredIff(url: Option<string>, anonKey: Option<string>)
    ensures IsSupabaseConfigured(url, anonKey) <==>
      && url.Some? && url.value != ""
      && anonKey.Some? && anonKey.value != ""
      && exists i :: OccursAt(url.value, "supabase.co", i)
  {
    if url.Some? {
      ContainsIff(url.value, "supabase.co");
    }
  }

  /** A URL of the hosted service, paired with any non-empty key, is accepted. */
  lemma HostedUrlConfigured(project: string, anonKey: string)
    requires anonKey != ""
    ensures IsSupabaseConfigured(Some("https://" + project + ".supabase.co"), Some(anonKey))
  {
    ContainsSelf("supabase.co");
    ContainsExtend("supabase.co", "supabase.co", "https://" + project + ".", "");
    assert "https://" + project + ".supabase.co" == "https://" + project + "." + "supabase.co" + "";
  }
}
