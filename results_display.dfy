/**
 * The results view: the canonical ordering of a plan's cost breakdown, the
 * emphasis given to its total lines, the lookup of the Finance and Lease plans
 * of the selected vehicle and the highlighting of the selected buttons.
 */
module ResultsDisplay {
  import opened Wrappers
  import opened Types

  // ---------------------------------------------------------------------------
  // Ordering tables

  /** The lines that make up a total; they are emphasised. */
  const TOTAL_COST_COMPONENTS: seq<string> :=
    ["Down Payment", "Total Monthly Payments", "Total Cost", "Due at Signing", "Total Lease Cost"]

  /** Display order of a Finance plan's breakdown. */
  const FINANCE_ORDER: seq<string> :=
    ["Vehicle Price (MSRP)", "Principal Loan Amount", "Total Interest Paid",
     "Down Payment", "Total Monthly Payments", "Total Cost"]

  /** Display order of any other plan's breakdown. */
  const LEASE_ORDER: seq<string> :=
    ["Vehicle Price (MSRP)", "Est. Disposition Fee", "Due at Signing",
     "Total Monthly Payments", "Total Lease Cost"]

  /** The table a plan is ordered by: Finance plans by its own, every other type by the lease table. */
  function DisplayOrder(planType: string): seq<string> {
    if planType == FINANCE then FINANCE_ORDER else LEASE_ORDER
  }

  /** No name appears twice in `order`. */
  predicate Distinct(order: seq<string>) {
    forall i, j :: 0 <= i < j < |order| ==> order[i] != order[j]
  }

  lemma TablesDistinct()
    ensures Distinct(FINANCE_ORDER) && Distinct(LEASE_ORDER)
  {
  }

  /** `order.indexOf(name)`: the first position of `name`, or -1. */
  function IndexOfName(order: seq<string>, name: string): (r: int)
    ensures r == -1 <==> name !in order
    ensures r != -1 ==> 0 <= r < |order| && order[r] == name && name !in order[..r]
  {
    if order == [] then -1
    else if order[0] == name then 0
    else
      var k := IndexOfName(order[1..], name);
      if k == -1 then -1
      else
        assert order[..k + 1] == [order[0]] + order[1..][..k];
        k + 1
  }

  /** In a table without repetitions, an entry's index is its position. */
  lemma IndexOfDistinct(order: seq<string>, a: int)
    requires Distinct(order) && 0 <= a < |order|
    ensures IndexOfName(order, order[a]) == a
  {
    var r := IndexOfName(order, order[a]);
    assert order[r] == order[a];
  }

  // ---------------------------------------------------------------------------
  // The stable sort by table position

  /** The sort key of an item: its name's position in the table, -1 when it is not listed. */
  function Rank(order: seq<string>, item: CostBreakdownItem): int {
    IndexOfName(order, item.name)
  }

  /** Keys never decrease along `s`. */
  ghost predicate SortedByKey(key: CostBreakdownItem -> int, s: seq<CostBreakdownItem>) {
    forall i, j :: 0 <= i < j < |s| ==> key(s[i]) <= key(s[j])
  }

  /** A sorted tail stays sorted under a head whose key is not above the tail's first key. */
  lemma SortedCons(key: CostBreakdownItem -> int, h: CostBreakdownItem, t: seq<CostBreakdownItem>)
    requires SortedByKey(key, t)
    requires t != [] ==> key(h) <= key(t[0])
    ensures SortedByKey(key, [h] + t)
  {
    var r := [h] + t;
    forall i, j | 0 <= i < j < |r|
      ensures key(r[i]) <= key(r[j])
    {
      assert r[j] == t[j - 1];
      if i == 0 {
        if j > 1 {
          assert key(t[0]) <= key(t[j - 1]);
        }
      } else {
        assert r[i] == t[i - 1];
      }
    }
  }

  /** The tail of a sorted sequence is sorted, and its first key is not below the head's. */
  lemma SortedTail(key: CostBreakdownItem -> int, s: seq<CostBreakdownItem>)
    requires SortedByKey(key, s) && s != []
    ensures SortedByKey(key, s[1..])
    ensures |s| > 1 ==> key(s[0]) <= key(s[1..][0])
  {
    var t := s[1..];
    forall i, j | 0 <= i < j < |t|
      ensures key(t[i]) <= key(t[j])
    {
      assert t[i] == s[i + 1] && t[j] == s[j + 1];
    }
  }

  /** Places `x` into a sorted `s` ahead of the first item whose key is not smaller. */
  function Insert(key: CostBreakdownItem -> int, x: CostBreakdownItem, s: seq<CostBreakdownItem>): (r: seq<CostBreakdownItem>)
    requires SortedByKey(key, s)
    ensures multiset(r) == multiset(s) + multiset{x}
    ensures SortedByKey(key, r)
    ensures r != [] && (r[0] == x || (s != [] && r[0] == s[0]))
  {
    if s == [] then
      SortedCons(key, x, s);
      [x]
    else if key(x) <= key(s[0]) then
      SortedCons(key, x, s);
      [x] + s
    else
      SortedTail(key, s);
      var t := Insert(key, x, s[1..]);
      assert s == [s[0]] + s[1..];
      SortedCons(key, s[0], t);
      [s[0]] + t
  }

  /**
   * `[...s].sort((a, b) => key(a) - key(b))`: the sort ECMAScript requires to
   * be stable, by a key comparator. The result is a fresh sequence; the
   * argument is a value and cannot change.
   */
  function SortBy(key: CostBreakdownItem -> int, s: seq<CostBreakdownItem>): (r: seq<CostBreakdownItem>)
    ensures multiset(r) == multiset(s)
    ensures SortedByKey(key, r)
  {
    if s == [] then []
    else
      assert s == [s[0]] + s[1..];
      Insert(key, s[0], SortBy(key, s[1..]))
  }

  /** The items of `s` whose key is `k`, in their order in `s`. */
  function OfKey(key: CostBreakdownItem -> int, s: seq<CostBreakdownItem>, k: int): seq<CostBreakdownItem> {
    if s == [] then [] else (if key(s[0]) == k then [s[0]] else []) + OfKey(key, s[1..], k)
  }

  lemma {:induction false} InsertOfKey(key: CostBreakdownItem -> int, x: CostBreakdownItem, s: seq<CostBreakdownItem>, k: int)
    requires SortedByKey(key, s)
    ensures OfKey(key, Insert(key, x, s), k)
         == (if key(x) == k then [x] else []) + OfKey(key, s, k)
  {
    if s == [] {
      assert Insert(key, x, s) == [x] && [x][1..] == [];
    } else if key(x) <= key(s[0]) {
      assert Insert(key, x, s) == [x] + s;
      assert ([x] + s)[0] == x && ([x] + s)[1..] == s;
    } else {
      SortedTail(key, s);
      var t := Insert(key, x, s[1..]);
      assert Insert(key, x, s) == [s[0]] + t;
      var head := if key(s[0]) == k then [s[0]] else [];
      var hx := if key(x) == k then [x] else [];
      assert ([s[0]] + t)[1..] == t;
      assert OfKey(key, [s[0]] + t, k) == head + OfKey(key, t, k);
      InsertOfKey(key, x, s[1..], k);
      assert OfKey(key, t, k) == hx + OfKey(key, s[1..], k);
      assert OfKey(key, s, k) == head + OfKey(key, s[1..], k);
      if key(x) == k {
        assert head == [];
        assert head + OfKey(key, t, k) == OfKey(key, t, k);
        assert OfKey(key, s, k) == OfKey(key, s[1..], k);
      } else {
        assert hx == [];
        assert hx + OfKey(key, s[1..], k) == OfKey(key, s[1..], k);
        assert hx + OfKey(key, s, k) == OfKey(key, s, k);
      }
    }
  }

  /**
   * Stability: for every key, the items with that key keep their original
   * relative order.
   */
  lemma {:induction false} SortStable(key: CostBreakdownItem -> int, s: seq<CostBreakdownItem>, k: int)
    ensures OfKey(key, SortBy(key, s), k) == OfKey(key, s, k)
  {
    if s != [] {
      SortStable(key, s[1..], k);
      InsertOfKey(key, s[0], SortBy(key, s[1..]), k);
    }
  }

  /** An already ordered breakdown is returned as it is. */
  lemma {:induction false} SortOfSorted(key: CostBreakdownItem -> int, s: seq<CostBreakdownItem>)
    requires SortedByKey(key, s)
    ensures SortBy(key, s) == s
  {
    if s != [] {
      assert SortedByKey(key, s[1..]);
      SortOfSorted(key, s[1..]);
      assert s == [s[0]] + s[1..];
    }
  }

  /** Sorting twice is sorting once. */
  lemma SortIdempotent(key: CostBreakdownItem -> int, s: seq<CostBreakdownItem>)
    ensures SortBy(key, SortBy(key, s)) == SortBy(key, s)
  {
    SortOfSorted(key, SortBy(key, s));
  }

  /** The key of `PlanDetail`'s sort: the position in the plan type's table. */
  function RankIn(order: seq<string>): CostBreakdownItem -> int {
    item => Rank(order, item)
  }

  /** The breakdown as `PlanDetail` lists it: a reordering of the plan's items, by table position. */
  function SortedBreakdown(plan: PaymentPlan): (r: seq<CostBreakdownItem>)
    ensures multiset(r) == multiset(plan.costBreakdown)
    ensures var order := DisplayOrder(plan.planType);
      forall i, j :: 0 <= i < j < |r| ==> Rank(order, r[i]) <= Rank(order, r[j])
  {
    SortBy(RankIn(DisplayOrder(plan.planType)), plan.costBreakdown)
  }

  /**
   * Every item whose name the table does not list comes before every listed
   * item, and the unlisted items keep their original relative order.
   */
  lemma UnknownItemsFirst(plan: PaymentPlan)
    ensures var order, r := DisplayOrder(plan.planType), SortedBreakdown(plan);
      && (forall i, j :: 0 <= i < |r| && 0 <= j < |r| && r[i].name !in order && r[j].name in order ==> i < j)
      && OfKey(RankIn(order), r, -1) == OfKey(RankIn(order), plan.costBreakdown, -1)
  {
    var order, r := DisplayOrder(plan.planType), SortedBreakdown(plan);
    forall i, j | 0 <= i < |r| && 0 <= j < |r| && r[i].name !in order && r[j].name in order
      ensures i < j
    {
      assert Rank(order, r[i]) == -1 && Rank(order, r[j]) >= 0;
    }
    SortStable(RankIn(order), plan.costBreakdown, -1);
  }

  /**
   * Listed items appear in table order: one named by the `a`-th entry comes
   * before one named by a later `b`-th entry (`FINANCE_ORDER` for a Finance
   * plan, `LEASE_ORDER` for any other).
   */
  lemma RecognisedInTableOrder(plan: PaymentPlan, a: int, b: int)
    requires var order := DisplayOrder(plan.planType); 0 <= a < b < |order|
    ensures var order, r := DisplayOrder(plan.planType), SortedBreakdown(plan);
      forall i, j :: 0 <= i < |r| && 0 <= j < |r| && r[i].name == order[a] && r[j].name == order[b] ==> i < j
  {
    TablesDistinct();
    RankedInOrder(DisplayOrder(plan.planType), SortedBreakdown(plan), a, b);
  }

  /** In a sequence ordered by rank in a table without repetitions, table order is kept. */
  lemma RankedInOrder(order: seq<string>, r: seq<CostBreakdownItem>, a: int, b: int)
    requires Distinct(order) && 0 <= a < b < |order|
    requires forall i, j :: 0 <= i < j < |r| ==> Rank(order, r[i]) <= Rank(order, r[j])
    ensures forall i, j :: 0 <= i < |r| && 0 <= j < |r| && r[i].name == order[a] && r[j].name == order[b] ==> i < j
  {
    IndexOfDistinct(order, a);
    IndexOfDistinct(order, b);
    forall i, j | 0 <= i < |r| && 0 <= j < |r| && r[i].name == order[a] && r[j].name == order[b]
      ensures i < j
    {
      assert Rank(order, r[i]) == a && Rank(order, r[j]) == b;
    }
  }

  // ---------------------------------------------------------------------------
  // Emphasis of a breakdown line

  datatype Emphasis = FinalTotal | TotalComponent | Regular

  /** Final totals win over total components; everything else is regular. */
  function Classify(name: string): (e: Emphasis)
    ensures e == FinalTotal <==> name == "Total Cost" || name == "Total Lease Cost"
    ensures e == TotalComponent <==> name in {"Down Payment", "Total Monthly Payments", "Due at Signing"}
  {
    var isTotalComponent := name in TOTAL_COST_COMPONENTS;
    var isFinalTotal := name == "Total Cost" || name == "Total Lease Cost";
    if isFinalTotal then FinalTotal
    else if isTotalComponent then TotalComponent
    else Regular
  }

  /** Both final totals are also total components, so the order of the tests decides their style. */
  lemma FinalTotalsAreComponents(name: string)
    requires Classify(name) == FinalTotal
    ensures name in TOTAL_COST_COMPONENTS
  {
  }

  /** The class list of the line. */
  function RowClasses(name: string): string {
    "flex justify-between items-center py-1" +
    match Classify(name)
    case FinalTotal => " text-white font-bold pt-2 border-t border-slate-700 mt-2"
    case TotalComponent => " text-indigo-300"
    case Regular => " text-slate-300"
  }

  /** The class list of the amount. */
  function ValueClasses(name: string): string {
    "font-mono font-semibold" +
    match Classify(name)
    case FinalTotal => " text-white text-base"
    case TotalComponent => " text-indigo-300"
    case Regular => " text-white"
  }

  /** Lines of different kinds get different line classes and different amount classes. */
  lemma StylesTellKindsApart(a: string, b: string)
    requires Classify(a) != Classify(b)
    ensures RowClasses(a) != RowClasses(b) && ValueClasses(a) != ValueClasses(b)
  {
    assert |RowClasses(a)| != |RowClasses(b)|;
    assert |ValueClasses(a)| != |ValueClasses(b)|;
  }

  // ---------------------------------------------------------------------------
  // Plan lookup and selection

  /** `plans.find(p => p.planType === planType)`: the first plan of that type. */
  function FindPlan(plans: seq<PaymentPlan>, planType: string): (r: Option<PaymentPlan>)
    ensures r.None? <==> forall i :: 0 <= i < |plans| ==> plans[i].planType != planType
    ensures r.Some? ==> exists i :: 0 <= i < |plans| && plans[i] == r.value && r.value.planType == planType
                               && forall j :: 0 <= j < i ==> plans[j].planType != planType
  {
    if plans == [] then None
    else if plans[0].planType == planType then Some(plans[0])
    else
      var r := FindPlan(plans[1..], planType);
      assert forall i :: 1 <= i < |plans| ==> plans[i] == plans[1..][i - 1];
      r
  }

  /** The Finance plan shown for the selected vehicle; None leaves its panel out. */
  function FinancePlan(vehicle: SuggestedModel): (r: Option<PaymentPlan>)
    ensures r.Some? ==> r.value in vehicle.paymentPlans && r.value.planType == FINANCE
    ensures r.None? <==> forall p :: p in vehicle.paymentPlans ==> p.planType != FINANCE
  {
    FindPlan(vehicle.paymentPlans, FINANCE)
  }

  /** The Lease plan shown for the selected vehicle; None leaves its panel out. */
  function LeasePlan(vehicle: SuggestedModel): (r: Option<PaymentPlan>)
    ensures r.Some? ==> r.value in vehicle.paymentPlans && r.value.planType == LEASE
    ensures r.None? <==> forall p :: p in vehicle.paymentPlans ==> p.planType != LEASE
  {
    FindPlan(vehicle.paymentPlans, LEASE)
  }

  /** The highlight of each vehicle button: `selectedVehicle.name === vehicle.name`. */
  function VehicleHighlights(models: seq<SuggestedModel>, selected: SuggestedModel): (r: seq<bool>)
    ensures |r| == |models|
    ensures forall i :: 0 <= i < |models| ==> (r[i] <==> models[i].name == selected.name)
    ensures (exists i :: 0 <= i < |r| && r[i]) <==> exists j :: 0 <= j < |models| && models[j].name == selected.name
    ensures DistinctNames(models) ==> forall i, j :: 0 <= i < j < |r| && r[i] ==> !r[j]
  {
    seq(|models|, i requires 0 <= i < |models| => models[i].name == selected.name)
  }

  /** No two models share a name. */
  predicate DistinctNames(models: seq<SuggestedModel>) {
    forall i, j :: 0 <= i < j < |models| ==> models[i].name != models[j].name
  }

  /** With distinct names, the button of the selected vehicle is the only one highlighted. */
  lemma ExactlyOneVehicleHighlighted(models: seq<SuggestedModel>, k: int)
    requires DistinctNames(models) && 0 <= k < |models|
    ensures var r := VehicleHighlights(models, models[k]);
      r[k] && forall i :: 0 <= i < |r| && r[i] ==> i == k
  {
    var r := VehicleHighlights(models, models[k]);
    forall i | 0 <= i < |r| && r[i]
      ensures i == k
    {
      assert models[i].name == models[k].name;
    }
  }

  /** The highlight of each term button: `term === t`. */
  function TermHighlights(term: int): (r: seq<bool>)
    ensures |r| == |TERM_OPTIONS|
    ensures forall i :: 0 <= i < |r| ==> (r[i] <==> TERM_OPTIONS[i] == term)
    ensures (exists i :: 0 <= i < |r| && r[i]) <==> term in TERM_OPTIONS
    ensures forall i, j :: 0 <= i < j < |r| && r[i] ==> !r[j]
  {
    seq(|TERM_OPTIONS|, i requires 0 <= i < |TERM_OPTIONS| => TERM_OPTIONS[i] == term)
  }

  /** A term outside the options highlights no button; an offered one highlights exactly one. */
  lemma TermHighlightUnique(term: int)
    ensures var r := TermHighlights(term);
      (term !in TERM_OPTIONS ==> forall i :: 0 <= i < |r| ==> !r[i])
      && forall i, j :: 0 <= i < |r| && 0 <= j < |r| && r[i] && r[j] ==> i == j
  {
  }
}
