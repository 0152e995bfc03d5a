/**
 * The choice among several Stripe customers registered for one Discord user
 * (`findCustomerByDiscordId` in src/lib/stripe.ts): the customer with the
 * most live subscriptions, then the most subscriptions, is kept as primary,
 * and every other customer without subscriptions is deleted. The Stripe and
 * database calls are not modelled: the search result is a parameter, and the
 * deletions the function attempts are its output.
 */
module StripeCustomers {
  import opened Wrappers
  import opened Sorting
  import opened SeqUtil

  datatype Subscription = Subscription(id: string, status: string)

  /** A customer as the search returns it, with its subscriptions expanded (undefined when absent). */
  datatype Customer = Customer(id: string, subscriptions: Option<seq<Subscription>>)

  /** The record the selection sorts: a customer with its two counts. */
  datatype Ranked = Ranked(activeSubCount: nat, customer: Customer, totalSubCount: nat)

  /** `['active', 'trialing', 'past_due'].includes(status)`. */
  predicate IsLive(status: string) {
    status == "active" || status == "trialing" || status == "past_due"
  }

  /** The number of live subscriptions in `subs`. */
  function CountLive(subs: seq<Subscription>): (n: nat)
    ensures n <= |subs|
    ensures n == 0 <==> forall i :: 0 <= i < |subs| ==> !IsLive(subs[i].status)
  {
    if subs == [] then 0
    else CountLive(subs[..|subs| - 1]) + (if IsLive(subs[|subs| - 1].status) then 1 else 0)
  }

  /** `customer.subscriptions?.data.filter(live).length || 0`. */
  function ActiveSubCount(c: Customer): nat {
    if c.subscriptions.None? then 0 else CountLive(c.subscriptions.value)
  }

  /** `customer.subscriptions?.data.length || 0`. */
  function TotalSubCount(c: Customer): nat {
    if c.subscriptions.None? then 0 else |c.subscriptions.value|
  }

  function Rank(c: Customer): (r: Ranked)
    ensures r.customer == c && r.activeSubCount <= r.totalSubCount
  {
    Ranked(ActiveSubCount(c), c, TotalSubCount(c))
  }

  function CustomerOf(r: Ranked): Customer { r.customer }

  /**
   * The comparator `(a, b) => b.activeSubCount - a.activeSubCount` when those
   * differ, else `b.totalSubCount - a.totalSubCount`, read as "a may stay
   * before b" (the comparator is not positive).
   */
  const ByPriority: (Ranked, Ranked) -> bool :=
    (a: Ranked, b: Ranked) =>
      if b.activeSubCount != a.activeSubCount then b.activeSubCount - a.activeSubCount <= 0
      else b.totalSubCount - a.totalSubCount <= 0

  lemma ByPriorityIsPreorder()
    ensures TotalPreorder(ByPriority)
  {
  }

  /** `a` has strictly more live subscriptions, or as many and at least as many in all. */
  predicate AtLeastAsGood(a: Customer, b: Customer) {
    ActiveSubCount(a) > ActiveSubCount(b)
    || (ActiveSubCount(a) == ActiveSubCount(b) && TotalSubCount(a) >= TotalSubCount(b))
  }

  lemma ByPriorityMeaning(a: Customer, b: Customer)
    ensures ByPriority(Rank(a), Rank(b)) <==> AtLeastAsGood(a, b)
  {
  }

  /** What the search result leads to. */
  datatype Selection = NoCustomer | Single(customer: Customer) | Multiple(primary: Customer, duplicates: seq<Customer>)

  /** The customers in priority order: the stable sort of lines 39-52. */
  function Prioritized(found: seq<Customer>): (sorted: seq<Ranked>)
    ensures |sorted| == |found|
    ensures multiset(sorted) == multiset(Map(found, Rank))
  {
    SortBy(Map(found, Rank), ByPriority)
  }

  function SelectCustomers(found: seq<Customer>): (r: Selection)
    ensures r.NoCustomer? <==> found == []
    ensures |found| == 1 ==> r == Single(found[0])
    ensures |found| >= 2 ==> r.Multiple? && |r.duplicates| == |found| - 1
  {
    if |found| == 0 then NoCustomer
    else if |found| == 1 then Single(found[0])
    else
      var sorted := Prioritized(found);
      Multiple(sorted[0].customer, Map(sorted[1..], CustomerOf))
  }

  /** Every sorted record is the rank of one of the customers found. */
  lemma {:induction false} PrioritizedRanks(found: seq<Customer>, j: nat)
    requires j < |found|
    ensures Prioritized(found)[j] in Map(found, Rank)
    ensures Prioritized(found)[j] == Rank(Prioritized(found)[j].customer)
    ensures Prioritized(found)[j].customer in found
  {
    var sorted := Prioritized(found);
    assert sorted[j] in multiset(Map(found, Rank));
  }

  /** Primary and duplicates together are the customers found, each as often as found. */
  lemma {:induction false} SelectionIsPartition(found: seq<Customer>)
    requires |found| >= 2
    ensures multiset([SelectCustomers(found).primary] + SelectCustomers(found).duplicates) == multiset(found)
  {
    var rs := Map(found, Rank);
    var sorted := Prioritized(found);
    var dups := Map(sorted[1..], CustomerOf);
    assert SelectCustomers(found) == Multiple(sorted[0].customer, dups);
    MapPermuted(sorted, rs, CustomerOf);
    RanksCarryCustomers(found);
    HeadAndMap(sorted);
  }

  lemma {:induction false} RanksCarryCustomers(found: seq<Customer>)
    ensures Map(Map(found, Rank), CustomerOf) == found
  {
  }

  lemma {:induction false} HeadAndMap(rs: seq<Ranked>)
    requires |rs| >= 1
    ensures Map(rs, CustomerOf) == [rs[0].customer] + Map(rs[1..], CustomerOf)
  {
    assert rs == [rs[0]] + rs[1..];
    MapAppend([rs[0]], rs[1..], CustomerOf);
  }

  /**
   * The primary has the most live subscriptions among the customers found,
   * and among those with as many, the most subscriptions.
   */
  lemma {:induction false} PrimaryIsBest(found: seq<Customer>, c: Customer)
    requires |found| >= 2 && c in found
    ensures AtLeastAsGood(SelectCustomers(found).primary, c)
  {
    var sorted := Prioritized(found);
    ByPriorityIsPreorder();
    SortBySorted(Map(found, Rank), ByPriority);
    var i :| 0 <= i < |found| && found[i] == c;
    assert Rank(c) in multiset(sorted) by {
      assert Map(found, Rank)[i] == Rank(c);
    }
    var j :| 0 <= j < |sorted| && sorted[j] == Rank(c);
    assert ByPriority(sorted[0], sorted[j]) by {
      if j > 0 { assert Sorted(sorted, ByPriority); }
    }
    PrioritizedRanks(found, 0);
    ByPriorityMeaning(sorted[0].customer, c);
  }

  /** The position of the first customer, in search order, that is at least as good as every other. */
  function FirstBest(found: seq<Customer>): (k: nat)
    requires found != []
    ensures k < |found|
    ensures forall j :: 0 <= j < |found| ==> AtLeastAsGood(found[k], found[j])
    ensures forall j :: 0 <= j < k ==> !AtLeastAsGood(found[j], found[k])
  {
    if |found| == 1 then 0
    else
      var k := FirstBest(found[..|found| - 1]);
      assert forall j :: 0 <= j < |found| - 1 ==> found[j] == found[..|found| - 1][j];
      if AtLeastAsGood(found[k], found[|found| - 1]) then k else |found| - 1
  }

  /** Ties in both counts go to the customer the search returned first: the sort is stable. */
  lemma {:induction false} PrimaryIsFirstBest(found: seq<Customer>)
    requires |found| >= 2
    ensures SelectCustomers(found).primary == found[FirstBest(found)]
  {
    var rs := Map(found, Rank);
    var k := FirstBest(found);
    ByPriorityIsPreorder();
    forall j | 0 <= j < |rs| ensures ByPriority(rs[k], rs[j]) {
      ByPriorityMeaning(found[k], found[j]);
    }
    forall j | 0 <= j < k ensures !ByPriority(rs[j], rs[k]) {
      ByPriorityMeaning(found[j], found[k]);
    }
    SortByHead(rs, ByPriority, k);
  }

  /** When the search returns distinct customers, the primary is not among the duplicates. */
  lemma {:induction false} PrimaryNotDuplicate(found: seq<Customer>)
    requires |found| >= 2 && Distinct(found)
    ensures SelectCustomers(found).primary !in SelectCustomers(found).duplicates
  {
    var sorted := Prioritized(found);
    var dups := Map(sorted[1..], CustomerOf);
    assert SelectCustomers(found) == Multiple(sorted[0].customer, dups);
    forall j | 0 <= j < |dups| ensures dups[j] != sorted[0].customer {
      SortedCustomersDiffer(found, j + 1);
    }
  }

  /** No later record of the sorted ranks belongs to the customer of the first. */
  lemma {:induction false} SortedCustomersDiffer(found: seq<Customer>, j: nat)
    requires Distinct(found) && 1 <= j < |found|
    ensures Prioritized(found)[j].customer != Prioritized(found)[0].customer
  {
    RanksDistinct(found);
    SortByDistinct(Map(found, Rank), ByPriority);
    PrioritizedRanks(found, 0);
    PrioritizedRanks(found, j);
  }

  /** Distinct customers have distinct ranks, since a rank carries its customer. */
  lemma {:induction false} RanksDistinct(found: seq<Customer>)
    requires Distinct(found)
    ensures Distinct(Map(found, Rank))
  {
    var rs := Map(found, Rank);
    forall i, j | 0 <= i < j < |rs| ensures rs[i] != rs[j] {
      assert rs[i].customer == found[i] && rs[j].customer == found[j];
    }
  }

  /** The ids of the duplicates without any subscription, in order: the ones deleted. */
  function DeletableIds(duplicates: seq<Customer>): (ids: seq<string>)
    ensures |ids| <= |duplicates|
    ensures forall id :: id in ids <==>
      exists d :: d in duplicates && TotalSubCount(d) == 0 && d.id == id
  {
    if duplicates == [] then []
    else
      var d := duplicates[|duplicates| - 1];
      var rest := duplicates[..|duplicates| - 1];
      assert forall x :: x in duplicates <==> x in rest || x == d;
      DeletableIds(rest) + (if TotalSubCount(d) == 0 then [d.id] else [])
  }

  /**
   * The `for (const duplicate of duplicates)` loop: a duplicate with a
   * subscription is skipped, every other one is deleted. A failed deletion
   * is logged and the loop goes on, so the attempts are what it does.
   */
  method DeleteDuplicates(duplicates: seq<Customer>) returns (attempted: seq<string>)
    ensures attempted == DeletableIds(duplicates)
  {
    attempted := [];
    for i := 0 to |duplicates|
      invariant attempted == DeletableIds(duplicates[..i])
    {
      assert duplicates[..i + 1][..i] == duplicates[..i];
      var duplicate := duplicates[i];
      var hasSubscriptions := TotalSubCount(duplicate) > 0;
      if hasSubscriptions {
        continue;
      }
      attempted := attempted + [duplicate.id];
    }
    assert duplicates[..|duplicates|] == duplicates;
  }

  /**
   * `findCustomerByDiscordId` once the search has answered (None when the
   * search threw). `saved` is whether `setStripeCustomerId` succeeds; when it
   * throws, the catch returns null after the deletions were attempted.
   * Returns the customer, the ids whose deletion was attempted, and the id
   * passed to `setStripeCustomerId`, if it was called.
   */
  method FindCustomerByDiscordId(search: Option<seq<Customer>>, saved: bool)
    returns (customer: Option<Customer>, attempted: seq<string>, stored: Option<string>)
    ensures search.None? || search == Some([]) ==> customer.None? && attempted == [] && stored.None?
    ensures search.Some? && |search.value| == 1 ==>
      && stored == Some(search.value[0].id)
      && customer == (if saved then Some(search.value[0]) else None)
      && attempted == []
    ensures search.Some? && |search.value| >= 2 ==>
      && stored == Some(SelectCustomers(search.value).primary.id)
      && customer == (if saved then Some(SelectCustomers(search.value).primary) else None)
      && attempted == DeletableIds(SelectCustomers(search.value).duplicates)
    ensures customer.Some? ==> saved && stored == Some(customer.value.id)
  {
    attempted, stored := [], None;
    if search.None? {
      return None, [], None;
    }
    match SelectCustomers(search.value)
    case NoCustomer =>
      customer := None;
    case Single(c) =>
      stored := Some(c.id);
      customer := if saved then Some(c) else None;
    case Multiple(primary, duplicates) =>
      attempted := DeleteDuplicates(duplicates);
      stored := Some(primary.id);
      customer := if saved then Some(primary) else None;
  }

  /** A duplicate that has a subscription is never deleted. */
  lemma DuplicateWithSubscriptionKept(duplicates: seq<Customer>, d: Customer)
    requires d in duplicates && TotalSubCount(d) > 0
    requires forall x :: x in duplicates && x.id == d.id ==> x == d
    ensures d.id !in DeletableIds(duplicates)
  {
  }

  /** The primary is never deleted when the customers found have distinct ids. */
  lemma {:induction false} PrimaryNeverDeleted(found: seq<Customer>)
    requires |found| >= 2
    requires forall i, j :: 0 <= i < j < |found| ==> found[i].id != found[j].id
    ensures SelectCustomers(found).primary.id !in DeletableIds(SelectCustomers(found).duplicates)
  {
    var sel := SelectCustomers(found);
    SelectionIsPartition(found);
    assert Distinct(found);
    PrimaryNotDuplicate(found);
    var all := [sel.primary] + sel.duplicates;
    forall d | d in sel.duplicates ensures d.id != sel.primary.id {
      assert d in multiset(all) && sel.primary in multiset(all);
      var i :| 0 <= i < |found| && found[i] == d;
      var j :| 0 <= j < |found| && found[j] == sel.primary;
      assert i != j;
    }
  }
}
