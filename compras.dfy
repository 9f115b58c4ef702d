/**
 * The purchases page's figures: total spent, pending count, number of suppliers, the search
 * filter, and the status text and badge colour.
 */
module Compras {
  import opened Wrappers
  import opened Seqs
  import opened Text
  import opened Rollup
  import opened Supabase

  function PurchasesOf(purchases: Option<seq<Purchase>>): seq<Purchase> {
    purchases.GetOr([])
  }

  function TotalOf(p: Purchase): int {
    Num(p.total)
  }

  /** `totalSpent`: the sum of the totals, a missing total counting 0. */
  function TotalSpent(purchases: Option<seq<Purchase>>): int {
    Sum(PurchasesOf(purchases), TotalOf)
  }

  predicate IsPending(p: Purchase) {
    p.status.Name() == "pending"
  }

  /** `pendingPurchases`. */
  function PendingCount(purchases: Option<seq<Purchase>>): nat {
    Count(PurchasesOf(purchases), IsPending)
  }

  function SuppliersOf(ps: seq<Purchase>): (r: seq<string>)
    ensures |r| == |ps| && forall i :: 0 <= i < |ps| ==> r[i] == ps[i].supplier
  {
    seq(|ps|, i requires 0 <= i < |ps| => ps[i].supplier)
  }

  /** `[...new Set(purchases.map(p => p.supplier))].length`. */
  function SupplierCount(purchases: Option<seq<Purchase>>): nat {
    |Distinct(SuppliersOf(PurchasesOf(purchases)))|
  }

  /** The supplier count is the number of different supplier values, and at most the number of purchases. */
  lemma SupplierCountBounds(purchases: Option<seq<Purchase>>)
    ensures SupplierCount(purchases) == |set p | p in PurchasesOf(purchases) :: p.supplier|
    ensures SupplierCount(purchases) <= |PurchasesOf(purchases)|
  {
    var ps := PurchasesOf(purchases);
    var s := SuppliersOf(ps);
    DistinctCardinality(s);
    assert (set x | x in s) == (set p | p in ps :: p.supplier) by {
      forall x | x in s
        ensures x in (set p | p in ps :: p.supplier)
      {
        var i :| 0 <= i < |s| && s[i] == x;
        assert ps[i] in ps;
      }
      forall p | p in ps
        ensures p.supplier in s
      {
        var i :| 0 <= i < |ps| && ps[i] == p;
        assert s[i] == p.supplier;
      }
    }
  }

  /** The joined product's name, '' when the join is missing. */
  function ProductName(p: Purchase): string {
    if p.products.Some? then p.products.value.name else ""
  }

  predicate MatchesSearch(p: Purchase, term: string) {
    Contains(Lower(p.supplier), Lower(term)) || Contains(Lower(ProductName(p)), Lower(term))
  }

  function SearchFor(term: string): Purchase -> bool {
    (p: Purchase) => MatchesSearch(p, term)
  }

  /** `filteredPurchases`. */
  function FilteredPurchases(purchases: Option<seq<Purchase>>, term: string): seq<Purchase> {
    Filter(PurchasesOf(purchases), SearchFor(term))
  }

  /** The search keeps order and keeps a purchase exactly when its supplier or product name matches. */
  lemma SearchFilter(purchases: Option<seq<Purchase>>, term: string, p: Purchase)
    ensures IsSubsequence(FilteredPurchases(purchases, term), PurchasesOf(purchases))
    ensures p in FilteredPurchases(purchases, term) <==> p in PurchasesOf(purchases) && MatchesSearch(p, term)
  {
    FilterIsSubsequence(PurchasesOf(purchases), SearchFor(term));
    FilterMembership(PurchasesOf(purchases), SearchFor(term), p);
  }

  /** The pending count is positive exactly when some purchase is pending. */
  lemma PendingCountIff(purchases: Option<seq<Purchase>>)
    ensures PendingCount(purchases) > 0 <==>
      exists i :: 0 <= i < |PurchasesOf(purchases)| && PurchasesOf(purchases)[i].status == PurchasePending
  {
    CountPositive(PurchasesOf(purchases), IsPending);
  }

  /** `getStatusText`. */
  function StatusText(status: string): (t: string)
    ensures status !in {"received", "pending", "cancelled"} ==> t == status
  {
    match status
    case "received" => "Recebido"
    case "pending" => "Pendente"
    case "cancelled" => "Cancelado"
    case _ => status
  }

  /** `getStatusColor`. */
  function StatusColor(status: string): (c: string)
    ensures status !in {"received", "pending", "cancelled"} ==> c == "bg-gray-100 text-gray-800"
  {
    match status
    case "received" => "bg-green-100 text-green-800"
    case "pending" => "bg-yellow-100 text-yellow-800"
    case "cancelled" => "bg-red-100 text-red-800"
    case _ => "bg-gray-100 text-gray-800"
  }

  /** Every stored purchase status gets its own translated text and a colour other than gray. */
  lemma KnownStatusesTranslated(a: PurchaseStatus, b: PurchaseStatus)
    ensures StatusText(a.Name()) in {"Recebido", "Pendente", "Cancelado"}
    ensures StatusColor(a.Name()) != "bg-gray-100 text-gray-800"
    ensures a != b ==> StatusText(a.Name()) != StatusText(b.Name())
  {
  }
}
