/** What the customers table shows: the search filter over email and company
    name, the choice between rows and the two empty states, and the plan cell. */
module CustomersTable {
  import opened Types
  import opened Seqs
  import opened Text

  /** A customer matches when the lower-cased term occurs in its lower-cased
      email or lower-cased company name */
  predicate MatchesSearch(c: Customer, term: string) {
    Includes(Lower(c.email), Lower(term)) || Includes(Lower(c.companyName), Lower(term))
  }

  /** `filteredCustomers` */
  function FilterCustomers(customers: seq<Customer>, term: string): seq<Customer> {
    Filter(customers, c => MatchesSearch(c, term))
  }

  /** A customer is listed exactly when it is in the input and the lower-cased
      term is a substring of its lower-cased email or company name; the listed
      customers keep their input order */
  lemma FilterCustomersSpec(customers: seq<Customer>, term: string, c: Customer)
    ensures c in FilterCustomers(customers, term) <==>
              c in customers
              && (IsSubstring(Lower(term), Lower(c.email)) || IsSubstring(Lower(term), Lower(c.companyName)))
    ensures IsSubsequence(FilterCustomers(customers, term), customers)
  {
    FilterMembership(customers, c => MatchesSearch(c, term), c);
    IncludesIsSubstring(Lower(c.email), Lower(term));
    IncludesIsSubstring(Lower(c.companyName), Lower(term));
    FilterIsSubsequence(customers, c => MatchesSearch(c, term));
  }

  /** The empty search term lists every customer */
  lemma EmptyTermKeepsAll(customers: seq<Customer>)
    ensures FilterCustomers(customers, "") == customers
  {
    forall i | 0 <= i < |customers|
      ensures MatchesSearch(customers[i], "")
    {
      IncludesEmpty(Lower(customers[i].email));
    }
    FilterKeepsAll(customers, c => MatchesSearch(c, ""));
  }

  /** Searching the search result again with the same term changes nothing */
  lemma FilterCustomersIdempotent(customers: seq<Customer>, term: string)
    ensures FilterCustomers(FilterCustomers(customers, term), term) == FilterCustomers(customers, term)
  {
    FilterIdempotent(customers, c => MatchesSearch(c, term));
  }

  /** The search ignores the case of the term's letters */
  lemma SearchIgnoresTermCase(customers: seq<Customer>, term: string)
    ensures FilterCustomers(customers, Lower(term)) == FilterCustomers(customers, term)
  {
    LowerIdempotent(term);
    FilterSameTest(customers, c => MatchesSearch(c, Lower(term)), c => MatchesSearch(c, term));
  }

  /** The table card's content */
  datatype Body =
    | Loading
    | NoCustomersYet
    | NoMatches
    | Rows(rows: seq<Customer>)

  /** Loading first; otherwise "No customers yet" for an empty list, "No customers
      match your search" when the search leaves nothing, and the rows otherwise */
  function TableBody(customers: seq<Customer>, term: string, isLoading: bool): (r: Body)
    ensures r.Loading? <==> isLoading
    ensures r.NoCustomersYet? <==> !isLoading && |customers| == 0
    ensures r.NoMatches? <==> !isLoading && |customers| > 0 && |FilterCustomers(customers, term)| == 0
    ensures r.Rows? ==> r.rows == FilterCustomers(customers, term) && |r.rows| > 0
  {
    if isLoading then Loading
    else
      var filtered := FilterCustomers(customers, term);
      if |filtered| == 0 then (if |customers| == 0 then NoCustomersYet else NoMatches)
      else Rows(filtered)
  }

  /** The "Current Plan" cell */
  datatype PlanCell = NoPlan | PlanSummary(name: string, basePrice: real, interval: Interval)

  /** "No plan" exactly for customers without a plan; otherwise the plan copy's
      name, price and interval */
  function PlanCellOf(c: Customer): (r: PlanCell)
    ensures r.NoPlan? <==> c.currentPlan.None?
    ensures r.PlanSummary? ==> r.name == c.currentPlan.value.name
    ensures r.PlanSummary? ==> r.basePrice == c.currentPlan.value.basePrice
    ensures r.PlanSummary? ==> r.interval == c.currentPlan.value.interval
  {
    match c.currentPlan
    case None => NoPlan
    case Some(p) => PlanSummary(p.name, p.basePrice, p.interval)
  }
}
