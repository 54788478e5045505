/**
 * The admin dashboard: a gate on the admin role, the customer search, the
 * revenue total and the name lookups of the booking and referral tables.
 */
module AdminDashboard {
  import opened Wrappers
  import opened Seqs
  import opened Text
  import opened Models
  import opened Storage

  /** The search term occurs, ignoring case, in the first name, last name or e-mail. */
  predicate CustomerMatches(term: string, c: Customer) {
    Contains(Lower(c.firstName), Lower(term)) || Contains(Lower(c.lastName), Lower(term))
    || Contains(Lower(c.email), Lower(term))
  }

  /** `filteredCustomers`. */
  function FilteredCustomers(cs: seq<Customer>, term: string): (r: seq<Customer>)
    ensures forall c :: c in r <==> c in cs && CustomerMatches(term, c)
    ensures forall c :: multiset(r)[c] == if CustomerMatches(term, c) then multiset(cs)[c] else 0
  {
    Filter((c: Customer) => CustomerMatches(term, c), cs)
  }

  /** The search keeps list order: it works customer by customer. */
  lemma FilteredCustomersInOrder(a: seq<Customer>, b: seq<Customer>, c: Customer, term: string)
    ensures FilteredCustomers(a + b, term) == FilteredCustomers(a, term) + FilteredCustomers(b, term)
    ensures FilteredCustomers([c], term) == if CustomerMatches(term, c) then [c] else []
  {
    FilterConcat((c: Customer) => CustomerMatches(term, c), a, b);
  }

  /** An empty search term keeps every customer. */
  lemma EmptyTermKeepsAll(cs: seq<Customer>)
    ensures FilteredCustomers(cs, "") == cs
  {
    forall i | 0 <= i < |cs| ensures CustomerMatches("", cs[i]) {
      ContainsEmpty(Lower(cs[i].firstName));
    }
    FilterKeepsAll((c: Customer) => CustomerMatches("", c), cs);
  }

  predicate IsCompleted(t: Transaction) {
    t.status == TxCompleted
  }

  /** `reduce((total, t) => total + t.amount, 0)`, folding from the left. */
  function SumAmounts(ts: seq<Transaction>): int {
    if ts == [] then 0 else SumAmounts(ts[..|ts| - 1]) + ts[|ts| - 1].amount
  }

  /**
   * `calculateTotalRevenue`: filter the completed transactions, then sum
   * their amounts; the result is the reference sum of completed amounts.
   */
  function TotalRevenue(ts: seq<Transaction>): (r: int)
    ensures r == CompletedAmount(ts)
  {
    RevenueIsCompletedAmount(ts);
    SumAmounts(Filter(IsCompleted, ts))
  }

  /** Reference definition: each transaction contributes its amount if completed, else nothing. */
  function CompletedAmount(ts: seq<Transaction>): int {
    if ts == [] then 0 else (if IsCompleted(ts[0]) then ts[0].amount else 0) + CompletedAmount(ts[1..])
  }

  lemma {:induction false} SumAmountsConcat(a: seq<Transaction>, b: seq<Transaction>)
    ensures SumAmounts(a + b) == SumAmounts(a) + SumAmounts(b)
    decreases |b|
  {
    if b == [] {
      assert a + b == a;
    } else {
      var b' := b[..|b| - 1];
      assert (a + b)[..|a + b| - 1] == a + b';
      SumAmountsConcat(a, b');
    }
  }

  /** Revenue splits over a concatenation of transaction lists. */
  lemma RevenueConcat(a: seq<Transaction>, b: seq<Transaction>)
    ensures TotalRevenue(a + b) == TotalRevenue(a) + TotalRevenue(b)
  {
    FilterConcat(IsCompleted, a, b);
    SumAmountsConcat(Filter(IsCompleted, a), Filter(IsCompleted, b));
  }

  /** No transactions, no revenue; an appended transaction adds its amount exactly when completed. */
  lemma RevenueAppend(ts: seq<Transaction>, t: Transaction)
    ensures TotalRevenue([]) == 0
    ensures TotalRevenue(ts + [t]) == TotalRevenue(ts) + (if IsCompleted(t) then t.amount else 0)
  {
    RevenueConcat(ts, [t]);
    assert Filter(IsCompleted, [t]) == if IsCompleted(t) then [t] else [];
  }

  /**
   * Filtering the completed transactions and folding their amounts is the
   * sum of the completed amounts; pending and failed ones count nothing.
   */
  lemma {:induction false} RevenueIsCompletedAmount(ts: seq<Transaction>)
    ensures SumAmounts(Filter(IsCompleted, ts)) == CompletedAmount(ts)
  {
    if ts != [] {
      assert ts == [ts[0]] + ts[1..];
      FilterConcat(IsCompleted, [ts[0]], ts[1..]);
      SumAmountsConcat(Filter(IsCompleted, [ts[0]]), Filter(IsCompleted, ts[1..]));
      assert Filter(IsCompleted, [ts[0]]) == if IsCompleted(ts[0]) then [ts[0]] else [];
      assert SumAmounts([ts[0]]) == ts[0].amount;
      RevenueIsCompletedAmount(ts[1..]);
    }
  }

  /** The sample shape: two completed payments of 500 and 600 CZK and a pending one of 300. */
  lemma RevenueExample(t1: Transaction, t2: Transaction, t3: Transaction)
    requires t1.status == TxCompleted && t1.amount == 500
    requires t2.status == TxCompleted && t2.amount == 600
    requires t3.status == TxPending && t3.amount == 300
    ensures TotalRevenue([t1, t2, t3]) == 1100
  {
    var ts := [t1, t2, t3];
    assert ts[1..] == [t2, t3] && ts[1..][1..] == [t3] && ts[1..][1..][1..] == [];
    assert CompletedAmount(ts[1..][1..]) == 0;
    assert CompletedAmount(ts) == 1100;
  }

  /** What the dashboard shows. */
  datatype AdminView =
    | Unauthorized
    | Dashboard(customers: seq<Customer>, referrals: seq<Referral>, transactions: seq<Transaction>,
                bookings: seq<Booking>)

  predicate IsAdmin(user: Option<Customer>) {
    user.Some? && user.value.role == Admin
  }

  /** The load effect and the role gate: only an admin sees, and loads, the collections. */
  function AdminPage(user: Option<Customer>, items: Items): (v: AdminView)
    ensures v.Dashboard? <==> IsAdmin(user)
    ensures v.Dashboard? ==>
              v.customers == LoadCustomers(items) && v.referrals == LoadReferrals(items)
              && v.transactions == LoadTransactions(items) && v.bookings == LoadBookings(items)
  {
    if IsAdmin(user) then
      Dashboard(LoadCustomers(items), LoadReferrals(items), LoadTransactions(items), LoadBookings(items))
    else Unauthorized
  }

  /** `customers.find(c => c.id === id)`. */
  function FindCustomer(cs: seq<Customer>, id: string): (r: Option<Customer>)
    ensures r.None? <==> forall i :: 0 <= i < |cs| ==> cs[i].id != id
    ensures r.Some? ==> exists i :: 0 <= i < |cs| && cs[i] == r.value && cs[i].id == id
                                    && forall j :: 0 <= j < i ==> cs[j].id != id
  {
    var r := Find((c: Customer) => c.id == id, cs);
    assert r.Some? ==> exists i :: IsFirst((c: Customer) => c.id == id, cs, i) && cs[i] == r.value;
    r
  }

  /** A referral row's referrer or referred cell: the full name of the first match, or "Unknown". */
  function PartyName(cs: seq<Customer>, id: string): (r: string)
    ensures FindCustomer(cs, id).None? ==> r == "Unknown"
    ensures FindCustomer(cs, id).Some? ==>
              r == FindCustomer(cs, id).value.firstName + " " + FindCustomer(cs, id).value.lastName
  {
    match FindCustomer(cs, id)
    case None => "Unknown"
    case Some(c) => c.firstName + " " + c.lastName
  }

  /**
   * A booking row's customer cell: `firstName || 'Unknown'`, a space, and
   * `lastName || ''`, each looked up on its own.  It agrees with the
   * referral table's name for a customer with a first name; an unknown id
   * reads "Unknown " in the booking table, and so does a known customer
   * whose first name is empty.
   */
  function BookingCustomerName(cs: seq<Customer>, id: string): (r: string)
    ensures var f := FindCustomer(cs, id);
      && (f.Some? && f.value.firstName != "" ==> r == PartyName(cs, id))
      && (f.None? ==> r == PartyName(cs, id) + " ")
      && (f.Some? && f.value.firstName == "" ==> r == "Unknown " + f.value.lastName)
  {
    var first := match FindCustomer(cs, id) case Some(c) => c.firstName case None => "";
    var last := match FindCustomer(cs, id) case Some(c) => c.lastName case None => "";
    (if first == "" then "Unknown" else first) + " " + last
  }

  /** With unique ids, every listed customer's row shows that customer's own name. */
  lemma PartyNameOfListed(cs: seq<Customer>, k: int)
    requires 0 <= k < |cs|
    requires forall i, j :: 0 <= i < j < |cs| ==> cs[i].id != cs[j].id
    ensures PartyName(cs, cs[k].id) == cs[k].firstName + " " + cs[k].lastName
  {
    var f := FindCustomer(cs, cs[k].id);
    var i :| 0 <= i < |cs| && cs[i] == f.value && cs[i].id == cs[k].id
             && forall j :: 0 <= j < i ==> cs[j].id != cs[k].id;
    assert i == k;
  }
}
