/**
  The list view of app/page.tsx: the all / active / completed filter over the
  order groups, the per-group counts and progress, and the count labels.
 */
module HomePage {
  import opened Wrappers
  import opened Types
  import opened RussianPlural

  // ---------------------------------------------------------------------
  // The filter
  // ---------------------------------------------------------------------

  datatype GroupFilter = All | Active | Completed

  /** `orders.some((o) => o.done === done)` */
  function AnyWithDone(orders: seq<Order>, done: bool): (r: bool)
    ensures r <==> exists i :: 0 <= i < |orders| && orders[i].done == done
  {
    if orders == [] then false
    else orders[0].done == done || AnyWithDone(orders[1..], done)
  }

  /** `group.orders?.some(...)`: undefined (None) when the group carries no list. */
  function SomeOrder(orders: Option<seq<Order>>, done: bool): Option<bool>
  {
    match orders
    case None => None
    case Some(os) => Some(AnyWithDone(os, done))
  }

  /** JavaScript truthiness of `boolean | undefined`. */
  predicate Truthy(b: Option<bool>)
  {
    b == Some(true)
  }

  /** The callback given to `orderGroups.filter`. */
  predicate Keeps(filter: GroupFilter, g: OrderGroup)
  {
    var hasActiveOrders := SomeOrder(g.orders, false);
    var hasCompletedOrders := SomeOrder(g.orders, true);
    match filter
    case All => true
    case Active => Truthy(hasActiveOrders)
    case Completed => Truthy(hasCompletedOrders) && !Truthy(hasActiveOrders)
  }

  /** The group has a list of orders and it is not empty. */
  predicate HasOrders(g: OrderGroup)
  {
    g.orders.Some? && |g.orders.value| > 0
  }

  /** `sub` is `s` with some elements left out and the rest in their order. */
  predicate IsSubsequence(sub: seq<OrderGroup>, s: seq<OrderGroup>)
    decreases |s|
  {
    if sub == [] then true
    else if s == [] then false
    else if sub[0] == s[0] then IsSubsequence(sub[1..], s[1..])
    else IsSubsequence(sub, s[1..])
  }

  /** `filteredGroups`: the groups the filter keeps, in the order of the list. */
  function FilterGroups(groups: seq<OrderGroup>, filter: GroupFilter): (r: seq<OrderGroup>)
    ensures |r| <= |groups|
    ensures forall g :: g in r ==> g in groups && Keeps(filter, g)
    ensures forall g :: g in groups && Keeps(filter, g) ==> g in r
    ensures IsSubsequence(r, groups)
    ensures forall g :: multiset(r)[g] == if Keeps(filter, g) then multiset(groups)[g] else 0
  {
    if groups == [] then []
    else
      assert groups == [groups[0]] + groups[1..];
      var rest := FilterGroups(groups[1..], filter);
      if Keeps(filter, groups[0]) then [groups[0]] + rest
      else
        assert rest == [] || rest[0] != groups[0] by {
          if rest != [] { assert rest[0] in rest; }
        }
        rest
  }

  /** "all" shows every group, as it is. */
  lemma {:induction false} FilterAllIsIdentity(groups: seq<OrderGroup>)
    ensures FilterGroups(groups, All) == groups
  {
    if groups != [] {
      FilterAllIsIdentity(groups[1..]);
      assert groups == [groups[0]] + groups[1..];
    }
  }

  /** "active": the groups with at least one order that is not done. */
  lemma ActiveMeansSomeUndone(g: OrderGroup)
    ensures Keeps(Active, g) <==>
            g.orders.Some? && exists i :: 0 <= i < |g.orders.value| && !g.orders.value[i].done
  {
  }

  /** "completed": the groups with at least one order, all of them done. */
  lemma CompletedMeansAllDone(g: OrderGroup)
    ensures Keeps(Completed, g) <==>
            HasOrders(g) && forall i :: 0 <= i < |g.orders.value| ==> g.orders.value[i].done
  {
  }

  /**
    A group with orders is either active or completed and never both; a
    group whose list is empty or absent is neither.
   */
  lemma ActiveAndCompletedPartition(g: OrderGroup)
    ensures HasOrders(g) ==> (Keeps(Active, g) <==> !Keeps(Completed, g))
    ensures !HasOrders(g) ==> !Keeps(Active, g) && !Keeps(Completed, g)
  {
  }

  /** Number of groups whose list of orders is present and not empty. */
  function CountWithOrders(groups: seq<OrderGroup>): (n: nat)
    ensures n <= |groups|
  {
    if groups == [] then 0
    else (if HasOrders(groups[0]) then 1 else 0) + CountWithOrders(groups[1..])
  }

  /** Between them, "active" and "completed" show every group with orders exactly once. */
  lemma {:induction false} ActivePlusCompletedCount(groups: seq<OrderGroup>)
    ensures |FilterGroups(groups, Active)| + |FilterGroups(groups, Completed)| == CountWithOrders(groups)
  {
    if groups != [] {
      ActivePlusCompletedCount(groups[1..]);
      ActiveAndCompletedPartition(groups[0]);
    }
  }

  // ---------------------------------------------------------------------
  // Per-group statistics
  // ---------------------------------------------------------------------

  /** `orders.filter((o) => o.done).length` */
  function CountDone(orders: seq<Order>): (c: nat)
    ensures c <= |orders|
    ensures c == |orders| <==> forall i :: 0 <= i < |orders| ==> orders[i].done
    ensures c == 0 <==> forall i :: 0 <= i < |orders| ==> !orders[i].done
  {
    if orders == [] then 0
    else
      var c := (if orders[0].done then 1 else 0) + CountDone(orders[1..]);
      assert forall i :: 1 <= i < |orders| ==> orders[i] == orders[1..][i - 1];
      c
  }

  /** Two lists whose orders agree on `done`, position by position. */
  predicate SameDoneFlags(a: seq<Order>, b: seq<Order>)
  {
    |a| == |b| && forall j :: 0 <= j < |a| ==> a[j].done == b[j].done
  }

  /**
    The list view reads `done` only: lists that differ in anything else, the
    `status` of an order for one, have the same done count and the same
    answers to the filters' `some` tests.
   */
  lemma {:induction false} OnlyDoneFlagsCount(a: seq<Order>, b: seq<Order>)
    requires SameDoneFlags(a, b)
    ensures CountDone(a) == CountDone(b)
    ensures AnyWithDone(a, true) == AnyWithDone(b, true) && AnyWithDone(a, false) == AnyWithDone(b, false)
  {
    if a != [] {
      OnlyDoneFlagsCount(a[1..], b[1..]);
    }
  }

  /** In particular, giving one order another `status` changes none of the statistics. */
  lemma StatusDoesNotAffectCounts(os: seq<Order>, i: nat, s: OrderStatus)
    requires i < |os|
    ensures CountDone(os[i := os[i].(status := s)]) == CountDone(os)
  {
    OnlyDoneFlagsCount(os[i := os[i].(status := s)], os);
  }

  /** `totalOrders = group.orders?.length || 0` */
  function TotalOrders(g: OrderGroup): nat
  {
    match g.orders
    case None => 0
    case Some(os) => |os|
  }

  /** `completedOrders = group.orders?.filter((o) => o.done).length || 0` */
  function CompletedOrders(g: OrderGroup): nat
  {
    match g.orders
    case None => 0
    case Some(os) => CountDone(os)
  }

  /** `progress`: the percentage of done orders, 0 for a group without orders. */
  function Progress(g: OrderGroup): real
  {
    var total, completed := TotalOrders(g), CompletedOrders(g);
    if total > 0 then (completed as real / total as real) * 100.0 else 0.0
  }

  /** The counts shown on a card. */
  lemma CountsBounded(g: OrderGroup)
    ensures CompletedOrders(g) <= TotalOrders(g)
    ensures g.orders.None? ==> TotalOrders(g) == 0 && CompletedOrders(g) == 0
    ensures TotalOrders(g) > 0 <==> HasOrders(g)
  {
  }

  /**
    Progress is a percentage; it is 100 exactly when the group has orders and
    all of them are done, and 0 exactly when none of its orders is done.
   */
  lemma ProgressBounds(g: OrderGroup)
    ensures 0.0 <= Progress(g) <= 100.0
    ensures Progress(g) == 100.0 <==>
            HasOrders(g) && forall i :: 0 <= i < |g.orders.value| ==> g.orders.value[i].done
    ensures Progress(g) == 0.0 <==>
            (g.orders.None? || forall i :: 0 <= i < |g.orders.value| ==> !g.orders.value[i].done)
  {
    if TotalOrders(g) > 0 {
      Percentage(CompletedOrders(g), TotalOrders(g));
    }
  }

  /** A share of a positive whole, as a percentage. */
  lemma Percentage(part: nat, whole: nat)
    requires 0 < whole && part <= whole
    ensures var p := (part as real / whole as real) * 100.0;
            && 0.0 <= p <= 100.0
            && (p == 100.0 <==> part == whole)
            && (p == 0.0 <==> part == 0)
  {
  }

  /** The filters agree with the statistics: completed means 100%, active means fewer done than total. */
  lemma FiltersMatchProgress(g: OrderGroup)
    ensures Keeps(Completed, g) <==> Progress(g) == 100.0
    ensures Keeps(Active, g) <==> CompletedOrders(g) < TotalOrders(g)
  {
    CompletedMeansAllDone(g);
    ActiveMeansSomeUndone(g);
    ProgressBounds(g);
  }

  // ---------------------------------------------------------------------
  // Count labels
  // ---------------------------------------------------------------------

  /** The header's label after the number of groups. */
  function GroupCountLabel(n: nat): (r: string)
    ensures r == "группа" <==> n == 1
    ensures r == "группа" || r == "групп"
  {
    if n == 1 then "группа" else "групп"
  }

  /** A card's label after its number of orders. */
  function OrderCountLabel(n: nat): (r: string)
    ensures r == "заказ" <==> n == 1
    ensures r == "заказ" || r == "заказов"
  {
    if n == 1 then "заказ" else "заказов"
  }

  /** The three forms of the noun "group" (группа) by plural category. */
  function GroupNoun(c: Category): string
  {
    FormOf(c, "группа", "группы", "групп")
  }

  /**
    The two labels decline only for 1: for 2 groups and 2 orders they give
    "групп" and "заказов" where Russian uses "группы" and "заказа" (as the
    create page's own selector does), and for 21 they give the plural where
    Russian uses the singular.
   */
  lemma CountLabelsMisdecline()
    ensures GroupCountLabel(2) == "групп" && GroupNoun(CategoryOf(2)) == "группы"
    ensures OrderCountLabel(2) == "заказов" && FormOf(CategoryOf(2), "заказ", "заказа", "заказов") == "заказа"
    ensures GroupCountLabel(21) == "групп" && GroupNoun(CategoryOf(21)) == "группа"
  {
  }

  /** The header label declined by the last digits, as the create page does for orders. */
  function GroupCountLabelCorrected(n: nat): (r: string)
    ensures n == 1 ==> r == "группа"
    ensures r == "группа" || r == "группы" || r == "групп"
  {
    ByLastDigits(n, "группа", "группы", "групп")
  }

  lemma GroupCountLabelCorrectedFollowsCldr(n: nat)
    ensures GroupCountLabelCorrected(n) == GroupNoun(CategoryOf(n))
  {
    ByLastDigitsFollowsCldr(n, "группа", "группы", "групп");
  }
}
