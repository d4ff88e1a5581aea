/** The plan catalog: the keyed plan list, the filters that narrow it (active
    plans, the merchant's refine list, the plans configured for each product)
    and the comma-separated id string the front end receives. */
module PlanCatalog {
  import opened Wrappers
  import opened Seqs
  import opened ShortPlans
  import opened Settings
  import MerchantApi

  /** `get_all_finances`: the plans the finance-plans endpoint returned; a
      failed request is logged and yields no plans. */
  function AllFinances(fetched: Result<seq<PlanRecord>, MerchantApi.ApiError>): (r: seq<PlanRecord>)
    ensures fetched.Failure? ==> r == []
    ensures fetched.Success? ==> r == fetched.value
  {
    match fetched
    case Success(records) => records
    case Failure(_) => []
  }

  /** `filterPlansByActive`. */
  function FilterPlansByActive(plans: seq<ShortPlan>): seq<ShortPlan>
  {
    Filter(plans, (p: ShortPlan) => p.IsActive())
  }

  /** `filterPlansByRefineList`: an empty refine list keeps every plan. */
  function FilterPlansByRefineList(plans: seq<ShortPlan>, refine: seq<string>): seq<ShortPlan>
  {
    if |refine| == 0 then plans
    else Filter(plans, (p: ShortPlan) => p.GetId() in refine)
  }

  /** The active filter keeps exactly the active plans, in their order, and
      applying it twice changes nothing. */
  lemma ActiveFilterExact(plans: seq<ShortPlan>)
    ensures forall p :: p in FilterPlansByActive(plans) <==> p in plans && p.IsActive()
    ensures SubsequenceOf(FilterPlansByActive(plans), plans)
    ensures FilterPlansByActive(FilterPlansByActive(plans)) == FilterPlansByActive(plans)
  {
    forall p {
      FilterMembership(plans, (p: ShortPlan) => p.IsActive(), p);
    }
    FilterIsSubsequence(plans, (p: ShortPlan) => p.IsActive());
    FilterIdempotent(plans, (p: ShortPlan) => p.IsActive());
  }

  /** The refine filter keeps exactly the plans whose id the merchant selected
      (all plans when nothing is selected), in their order, and is idempotent. */
  lemma RefineFilterExact(plans: seq<ShortPlan>, refine: seq<string>)
    ensures |refine| == 0 ==> FilterPlansByRefineList(plans, refine) == plans
    ensures forall p :: p in FilterPlansByRefineList(plans, refine) <==>
                          p in plans && (|refine| == 0 || p.GetId() in refine)
    ensures SubsequenceOf(FilterPlansByRefineList(plans, refine), plans)
    ensures FilterPlansByRefineList(FilterPlansByRefineList(plans, refine), refine)
              == FilterPlansByRefineList(plans, refine)
  {
    var keep := (p: ShortPlan) => p.GetId() in refine;
    if |refine| == 0 {
      SubsequenceReflexive(plans);
    } else {
      forall p {
        FilterMembership(plans, keep, p);
      }
      FilterIsSubsequence(plans, keep);
      FilterIdempotent(plans, keep);
    }
  }

  lemma {:induction false} SubsequenceReflexive<T>(s: seq<T>)
    ensures SubsequenceOf(s, s)
    decreases |s|
  {
    if |s| > 0 {
      SubsequenceReflexive(s[1..]);
    }
  }

  /** What product meta `woo_finance_product_tab` unserializes to:
      `active` and `finances` when they are set (`finances` only when it is an
      array), or a value that is not an array at all. */
  datatype ProductTab = NotAnArray | Tab(active: Option<string>, finances: Option<seq<string>>)

  datatype ProductKind = Simple | Variation

  /** A cart product: its post id, the parent id of a variation, and its price
      including tax. */
  datatype Product = Product(kind: ProductKind, id: nat, parentId: nat, priceIncTax: real)

  /** The finance tab of each product post; absent posts have no tab. */
  type Tabs = map<nat, ProductTab>

  /** The post whose finance tab applies: a variation reads its parent's. */
  function TabOwner(product: Product): nat
  {
    if product.kind == Variation then product.parentId else product.id
  }

  /** `get_product_finance_plans`. */
  function GetProductFinancePlans(product: Product, tabs: Tabs): (r: seq<string>)
    ensures var owner := TabOwner(product);
      r != [] <==> owner in tabs && tabs[owner].Tab? && tabs[owner].active == Some("selected")
                   && tabs[owner].finances.Some? && tabs[owner].finances.value != []
    ensures r != [] ==> r == tabs[TabOwner(product)].finances.value
  {
    var owner := TabOwner(product);
    if owner !in tabs then []
    else match tabs[owner]
      case NotAnArray => []
      case Tab(active, finances) =>
        if active == Some("selected") && finances.Some? then finances.value else []
  }

  /** The product accepts a plan when the plan's id is one configured for it. */
  predicate Accepts(product: Product, tabs: Tabs, p: ShortPlan)
  {
    p.GetId() in GetProductFinancePlans(product, tabs)
  }

  /** `filterPlansByProduct`. */
  function FilterPlansByProduct(product: Product, plans: seq<ShortPlan>, tabs: Tabs): seq<ShortPlan>
  {
    Filter(plans, (p: ShortPlan) => Accepts(product, tabs, p))
  }

  /** `filterPlansByProducts`: filters product by product, stopping as soon as
      no plan is left. */
  function FilterPlansByProducts(plans: seq<ShortPlan>, products: seq<Product>, tabs: Tabs): seq<ShortPlan>
    decreases |products|
  {
    if |products| == 0 then plans
    else
      var next := FilterPlansByProduct(products[0], plans, tabs);
      if |next| == 0 then next else FilterPlansByProducts(next, products[1..], tabs)
  }

  /** Every product of the cart accepts the plan. */
  predicate AcceptedByAll(products: seq<Product>, tabs: Tabs, p: ShortPlan)
  {
    forall k :: 0 <= k < |products| ==> Accepts(products[k], tabs, p)
  }

  /** The reference: one filter per product, with no early exit. */
  function FilterByEach(plans: seq<ShortPlan>, products: seq<Product>, tabs: Tabs): seq<ShortPlan>
    decreases |products|
  {
    if |products| == 0 then plans
    else FilterByEach(FilterPlansByProduct(products[0], plans, tabs), products[1..], tabs)
  }

  lemma {:induction false} FilterByEachOfNone(products: seq<Product>, tabs: Tabs)
    ensures FilterByEach([], products, tabs) == []
    decreases |products|
  {
    if |products| > 0 {
      FilterByEachOfNone(products[1..], tabs);
    }
  }

  /** Stopping early when no plan is left gives the same plans as filtering by
      every product. */
  lemma {:induction false} EarlyExitAgrees(plans: seq<ShortPlan>, products: seq<Product>, tabs: Tabs)
    ensures FilterPlansByProducts(plans, products, tabs) == FilterByEach(plans, products, tabs)
    decreases |products|
  {
    if |products| > 0 {
      var next := FilterPlansByProduct(products[0], plans, tabs);
      if |next| == 0 {
        FilterByEachOfNone(products[1..], tabs);
      } else {
        EarlyExitAgrees(next, products[1..], tabs);
      }
    }
  }

  /** A plan survives the cart's products exactly when it was offered and every
      product in the cart accepts it. */
  lemma {:induction false} FilterPlansByProductsExact(plans: seq<ShortPlan>, products: seq<Product>, tabs: Tabs)
    ensures forall p :: p in FilterPlansByProducts(plans, products, tabs) <==>
                          p in plans && AcceptedByAll(products, tabs, p)
    decreases |products|
  {
    EarlyExitAgrees(plans, products, tabs);
    FilterByEachExact(plans, products, tabs);
  }

  lemma {:induction false} FilterByEachExact(plans: seq<ShortPlan>, products: seq<Product>, tabs: Tabs)
    ensures forall p :: p in FilterByEach(plans, products, tabs) <==>
                          p in plans && AcceptedByAll(products, tabs, p)
    decreases |products|
  {
    if |products| > 0 {
      var keep := (p: ShortPlan) => Accepts(products[0], tabs, p);
      var next := FilterPlansByProduct(products[0], plans, tabs);
      FilterByEachExact(next, products[1..], tabs);
      forall p
        ensures p in FilterByEach(plans, products, tabs) <==> p in plans && AcceptedByAll(products, tabs, p)
      {
        FilterMembership(plans, keep, p);
        if p in plans && AcceptedByAll(products, tabs, p) {
          assert AcceptedByAll(products[1..], tabs, p) by {
            forall k | 0 <= k < |products[1..]|
              ensures Accepts(products[1..][k], tabs, p)
            {
              assert products[1..][k] == products[k + 1];
            }
          }
        }
        if p in FilterByEach(plans, products, tabs) {
          assert forall k :: 0 <= k < |products[1..]| ==> Accepts(products[1..][k], tabs, p);
          forall k | 0 <= k < |products|
            ensures Accepts(products[k], tabs, p)
          {
            if k > 0 {
              assert products[k] == products[1..][k - 1];
            }
          }
        }
      }
    }
  }

  /** `get_short_plans_array`: the keyed list built from the fetched plans,
      narrowed to active plans when asked and to the refine list when asked and
      the merchant shows only a selection of plans. */
  function GetShortPlansArray(onlyActive: bool, refined: bool, records: seq<PlanRecord>, cfg: Config): seq<ShortPlan>
  {
    var finances := BuildPlans(records);
    var active := if onlyActive then FilterPlansByActive(finances) else finances;
    if refined && cfg.showFinanceOptions == Some("selection")
    then FilterPlansByRefineList(active, cfg.refineList) else active
  }

  /** The plans offered with both filters on are exactly the latest record per
      id that is active and, in selection mode with a non-empty list, selected;
      ids stay unique. */
  lemma ShortPlansExact(records: seq<PlanRecord>, cfg: Config)
    ensures var plans := GetShortPlansArray(true, true, records, cfg);
      var selecting := cfg.showFinanceOptions == Some("selection") && |cfg.refineList| > 0;
      && (forall p :: p in plans <==>
            p in BuildPlans(records) && p.IsActive() && (!selecting || p.GetId() in cfg.refineList))
      && UniqueIds(plans)
  {
    var all := BuildPlans(records);
    BuildPlansKeyed(records);
    ActiveFilterExact(all);
    var active := FilterPlansByActive(all);
    RefineFilterExact(active, cfg.refineList);
    UniqueIdsOfSubsequence(active, all);
    UniqueIdsOfSubsequence(FilterPlansByRefineList(active, cfg.refineList), active);
  }

  /** A subsequence of a list with unique ids has unique ids. */
  lemma {:induction false} UniqueIdsOfSubsequence(a: seq<ShortPlan>, b: seq<ShortPlan>)
    requires SubsequenceOf(a, b)
    requires UniqueIds(b)
    ensures UniqueIds(a)
    decreases |b|
  {
    if |a| > 0 {
      assert UniqueIds(b[1..]) by {
        forall i, j | 0 <= i < j < |b[1..]|
          ensures b[1..][i].id != b[1..][j].id
        {
          assert b[1..][i] == b[i + 1] && b[1..][j] == b[j + 1];
        }
      }
      if a[0] == b[0] && SubsequenceOf(a[1..], b[1..]) {
        UniqueIdsOfSubsequence(a[1..], b[1..]);
        SubsequenceIn(a[1..], b[1..]);
        forall j | 0 < j < |a|
          ensures a[0].id != a[j].id
        {
          assert a[1..][j - 1] == a[j];
          var m :| 0 <= m < |b[1..]| && b[1..][m] == a[j];
          assert b[m + 1] == a[j];
        }
        forall i, j | 0 <= i < j < |a|
          ensures a[i].id != a[j].id
        {
          if i > 0 {
            assert a[1..][i - 1] == a[i] && a[1..][j - 1] == a[j];
          }
        }
      } else {
        UniqueIdsOfSubsequence(a, b[1..]);
      }
    }
  }

  /** Every element of a subsequence occurs in the sequence. */
  lemma {:induction false} SubsequenceIn<T>(a: seq<T>, b: seq<T>)
    requires SubsequenceOf(a, b)
    ensures forall i :: 0 <= i < |a| ==> a[i] in b
    decreases |b|
  {
    if |a| > 0 {
      if a[0] == b[0] && SubsequenceOf(a[1..], b[1..]) {
        SubsequenceIn(a[1..], b[1..]);
        forall i | 0 <= i < |a|
          ensures a[i] in b
        {
          if i > 0 {
            assert a[i] == a[1..][i - 1];
            assert a[i] in b[1..];
          }
        }
      } else {
        SubsequenceIn(a, b[1..]);
        forall i | 0 <= i < |a|
          ensures a[i] in b
        {
          assert a[i] in b[1..];
        }
      }
    }
  }

  /** The ids of the plans, in order. */
  function PlanIds(plans: seq<ShortPlan>): (r: seq<string>)
    ensures |r| == |plans|
    ensures forall i :: 0 <= i < |plans| ==> r[i] == plans[i].GetId()
  {
    if |plans| == 0 then [] else [plans[0].GetId()] + PlanIds(plans[1..])
  }

  /** `convert_plans_to_comma_seperated_string`. */
  function CommaSeparatedIds(plans: seq<ShortPlan>): string
  {
    Join(PlanIds(plans), ',')
  }

  /** No plans give the empty string; otherwise, when no id contains a comma,
      splitting the string on commas recovers the ids in order. */
  lemma CommaSeparatedIdsRoundTrip(plans: seq<ShortPlan>)
    ensures |plans| == 0 ==> CommaSeparatedIds(plans) == ""
    ensures |plans| > 0 && (forall i :: 0 <= i < |plans| ==> ',' !in plans[i].GetId()) ==>
              Split(CommaSeparatedIds(plans), ',') == PlanIds(plans)
  {
    if |plans| > 0 && (forall i :: 0 <= i < |plans| ==> ',' !in plans[i].GetId()) {
      SplitJoin(PlanIds(plans), ',');
    }
  }
}
