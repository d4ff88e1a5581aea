/** Whether the finance option is offered at checkout: the gateway's
    availability, the cart-total bounds derived from the plans and the
    merchant's limits, and the per-product rules. */
module Availability {
  import opened Wrappers
  import opened ShortPlans
  import opened Settings
  import opened PlanCatalog
  import opened Seqs
  import Money

  /** The cart as checkout sees it: its total and the products in it. */
  datatype CheckoutCart = CheckoutCart(total: real, products: seq<Product>)

  /** The loop of `getTrueCartThreshold`: the smallest credit minimum. */
  function LowestMinimum(plans: seq<ShortPlan>): (r: Option<int>)
    ensures r.None? <==> |plans| == 0
    ensures r.Some? ==> forall i :: 0 <= i < |plans| ==> r.value <= plans[i].GetCreditMinimum()
    ensures r.Some? ==> exists i :: 0 <= i < |plans| && r.value == plans[i].GetCreditMinimum()
  {
    if |plans| == 0 then None
    else
      var acc := LowestMinimum(plans[..|plans| - 1]);
      var p := plans[|plans| - 1];
      if acc.None? || p.GetCreditMinimum() < acc.value then Some(p.GetCreditMinimum()) else acc
  }

  /** The loop of `getTrueCartMax` as written: a plan replaces the running
      maximum when its credit MINIMUM exceeds it. */
  function MaximumAsWritten(plans: seq<ShortPlan>): (r: Option<int>)
    ensures r.None? <==> |plans| == 0
    ensures r.Some? ==> exists i :: 0 <= i < |plans| && r.value == plans[i].GetCreditMaximum()
  {
    if |plans| == 0 then None
    else
      var acc := MaximumAsWritten(plans[..|plans| - 1]);
      var p := plans[|plans| - 1];
      if acc.None? || p.GetCreditMinimum() > acc.value then Some(p.GetCreditMaximum()) else acc
  }

  /** Plan `i` is the last one the as-written loop lets replace the running
      value: it is the first plan or its minimum exceeded the value before it,
      and no later plan's minimum exceeds its maximum. */
  ghost predicate LastReplacement(plans: seq<ShortPlan>, i: int)
    requires 0 <= i < |plans|
  {
    && (i == 0 || plans[i].GetCreditMinimum() > MaximumAsWritten(plans[..i]).value)
    && (forall j :: i < j < |plans| ==> plans[j].GetCreditMinimum() <= plans[i].GetCreditMaximum())
  }

  /** The replacement rule of the as-written loop: the result is the maximum
      of the last plan that replaced the running value. */
  lemma {:induction false} MaximumAsWrittenRule(plans: seq<ShortPlan>)
    requires |plans| > 0
    ensures exists i :: 0 <= i < |plans| && MaximumAsWritten(plans).value == plans[i].GetCreditMaximum()
                        && LastReplacement(plans, i)
  {
    var last := |plans| - 1;
    var init := plans[..last];
    var acc := MaximumAsWritten(init);
    var p := plans[last];
    if acc.None? || p.GetCreditMinimum() > acc.value {
      assert MaximumAsWritten(plans) == Some(p.GetCreditMaximum());
      assert LastReplacement(plans, last);
    } else {
      assert MaximumAsWritten(plans) == acc;
      MaximumAsWrittenRule(init);
      var i :| 0 <= i < last && acc.value == init[i].GetCreditMaximum() && LastReplacement(init, i);
      LastReplacementExtends(plans, i);
    }
  }

  /** A last replacement stays the last one when the next plan's minimum does
      not exceed its maximum. */
  lemma LastReplacementExtends(plans: seq<ShortPlan>, i: int)
    requires 0 <= i < |plans| - 1
    requires LastReplacement(plans[..|plans| - 1], i)
    requires plans[|plans| - 1].GetCreditMinimum() <= plans[i].GetCreditMaximum()
    ensures LastReplacement(plans, i)
  {
    var init := plans[..|plans| - 1];
    assert init[..i] == plans[..i];
    assert init[i] == plans[i];
    forall j | i < j < |plans|
      ensures plans[j].GetCreditMinimum() <= plans[i].GetCreditMaximum()
    {
      if j < |plans| - 1 {
        assert init[j] == plans[j];
      }
    }
  }

  /** The loop of `getTrueCartMax` comparing credit maximums: the largest. */
  function HighestMaximum(plans: seq<ShortPlan>): (r: Option<int>)
    ensures r.None? <==> |plans| == 0
    ensures r.Some? ==> forall i :: 0 <= i < |plans| ==> plans[i].GetCreditMaximum() <= r.value
    ensures r.Some? ==> exists i :: 0 <= i < |plans| && r.value == plans[i].GetCreditMaximum()
  {
    if |plans| == 0 then None
    else
      var acc := HighestMaximum(plans[..|plans| - 1]);
      var p := plans[|plans| - 1];
      if acc.None? || p.GetCreditMaximum() > acc.value then Some(p.GetCreditMaximum()) else acc
  }

  /** Two plans, 0 to 1000 and 0 to 5000 minor units: the as-written loop
      settles on 1000, the largest maximum is 5000. */
  lemma MaximumAsWrittenMissesLargerPlan()
    ensures var plans := [ShortPlan("a", "A", 0, 1000, true), ShortPlan("b", "B", 0, 5000, true)];
      MaximumAsWritten(plans) == Some(1000) && HighestMaximum(plans) == Some(5000)
  {
    var plans := [ShortPlan("a", "A", 0, 1000, true), ShortPlan("b", "B", 0, 5000, true)];
    assert plans[..1] == [plans[0]];
    assert plans[..1][..0] == [];
  }

  /** `getTrueCartThreshold` given the plans: the merchant's cart threshold
      when it is set and above the lowest plan minimum, else that minimum in
      major units; none without plans. */
  function TrueCartThreshold(plans: seq<ShortPlan>, cfg: Config): (r: Option<real>)
    ensures r.None? <==> |plans| == 0
    ensures |plans| > 0 && cfg.cartThreshold.Some? ==>
      ((exists i :: 0 <= i < |plans| && plans[i].GetCreditMinimum() < Money.ToPence(cfg.cartThreshold.value))
         ==> r == cfg.cartThreshold)
    ensures |plans| > 0 && (cfg.cartThreshold.None? ||
        forall i :: 0 <= i < |plans| ==> plans[i].GetCreditMinimum() >= Money.ToPence(cfg.cartThreshold.value))
      ==> r == Some(LowestMinimum(plans).value as real / 100.0)
    ensures r.Some? ==> r.value * 100.0 >= LowestMinimum(plans).value as real
    ensures r.Some? && cfg.cartThreshold.None? ==> r.value * 100.0 == LowestMinimum(plans).value as real
    ensures r.Some? ==> r.value == (LowestMinimum(plans).value as real / 100.0) || Some(r.value) == cfg.cartThreshold
  {
    var min := LowestMinimum(plans);
    if cfg.cartThreshold.Some? && min.Some? && Money.ToPence(cfg.cartThreshold.value) > min.value then cfg.cartThreshold
    else if min.Some? then Some(min.value as real / 100.0)
    else None
  }

  /** `getTrueCartMax` given the folded plan maximum: the merchant's maximum
      loan when it is set and below that maximum, else the maximum in major
      units; none without plans, whatever the merchant configured. */
  function TrueCartMaxFrom(max: Option<int>, cfg: Config): (r: Option<real>)
    ensures r.None? <==> max.None?
    ensures max.Some? && cfg.maxLoanAmount.Some? && Money.ToPence(cfg.maxLoanAmount.value) < max.value
      ==> r == cfg.maxLoanAmount
    ensures max.Some? && (cfg.maxLoanAmount.None? || Money.ToPence(cfg.maxLoanAmount.value) >= max.value)
      ==> r == Some(max.value as real / 100.0)
    ensures r.Some? ==> r.value * 100.0 <= max.value as real
    ensures r.Some? && cfg.maxLoanAmount.None? ==> r.value * 100.0 == max.value as real
    ensures r.Some? ==> r.value == (max.value as real / 100.0) || Some(r.value) == cfg.maxLoanAmount
  {
    if cfg.maxLoanAmount.Some? && max.Some? && Money.ToPence(cfg.maxLoanAmount.value) < max.value then cfg.maxLoanAmount
    else if max.Some? then Some(max.value as real / 100.0)
    else None
  }

  /** With the plans' largest maximum (the corrected loop), the merchant's
      maximum loan is the upper limit exactly when some plan allows more than
      it; otherwise the largest plan maximum is. */
  lemma TrueCartMaxChoice(plans: seq<ShortPlan>, cfg: Config)
    requires |plans| > 0 && cfg.maxLoanAmount.Some?
    ensures var m := Money.ToPence(cfg.maxLoanAmount.value);
      var r := TrueCartMaxFrom(HighestMaximum(plans), cfg);
      && ((exists i :: 0 <= i < |plans| && plans[i].GetCreditMaximum() > m) ==> r == cfg.maxLoanAmount)
      && ((forall i :: 0 <= i < |plans| ==> plans[i].GetCreditMaximum() <= m)
            ==> r == Some(HighestMaximum(plans).value as real / 100.0))
  {
  }

  /** `doProductsMeetProductPriceThreshold`: stops at the first product priced
      below the threshold. */
  function ProductsMeetPriceThreshold(products: seq<Product>, threshold: real): (r: bool)
    ensures r <==> forall k :: 0 <= k < |products| ==> products[k].priceIncTax >= threshold
  {
    if |products| == 0 then true
    else if products[0].priceIncTax < threshold then false
    else
      var rest := ProductsMeetPriceThreshold(products[1..], threshold);
      assert forall k :: 1 <= k < |products| ==> products[k] == products[1..][k - 1];
      rest
  }

  /** Reasons `showOptionAtCheckout` removes the gateway, given the loop that
      derives the upper limit. */
  predicate HiddenWith(corrected: bool, cfg: Config, cart: Option<CheckoutCart>, records: seq<PlanRecord>, tabs: Tabs)
  {
    var plans := GetShortPlansArray(true, true, records, cfg);
    var threshold := TrueCartThreshold(plans, cfg);
    var upper := TrueCartMaxFrom(if corrected then HighestMaximum(plans) else MaximumAsWritten(plans), cfg);
    || !IsAvailable(cfg)
    || cart.None?
    || (threshold.Some? && threshold.value > cart.value.total)
    || (upper.Some? && upper.value < cart.value.total)
    || (cfg.productSelect == Some("price") && !ProductsMeetPriceThreshold(cart.value.products, cfg.priceSelection))
    || (cfg.productSelect == Some("selected") && FilterPlansByProducts(plans, cart.value.products, tabs) == [])
  }

  /** `showOptionAtCheckout`: the enabled gateway ids after the filter. */
  function ShowOptionAtCheckoutWith(corrected: bool, gateways: set<string>, cfg: Config, cart: Option<CheckoutCart>,
                                    records: seq<PlanRecord>, tabs: Tabs): (r: set<string>)
    ensures r - {GatewayId} == gateways - {GatewayId}
    ensures r <= gateways
  {
    if GatewayId in gateways && HiddenWith(corrected, cfg, cart, records, tabs) then gateways - {GatewayId}
    else gateways
  }

  /** The filter as written. */
  function ShowOptionAtCheckout(gateways: set<string>, cfg: Config, cart: Option<CheckoutCart>,
                                records: seq<PlanRecord>, tabs: Tabs): set<string>
  {
    ShowOptionAtCheckoutWith(false, gateways, cfg, cart, records, tabs)
  }

  /** The filter with the upper limit taken from the largest plan maximum. */
  function ShowOptionAtCheckoutCorrected(gateways: set<string>, cfg: Config, cart: Option<CheckoutCart>,
                                         records: seq<PlanRecord>, tabs: Tabs): set<string>
  {
    ShowOptionAtCheckoutWith(true, gateways, cfg, cart, records, tabs)
  }

  /** Offered plans, in the form checkout reads them. */
  function OfferedPlans(records: seq<PlanRecord>, cfg: Config): seq<ShortPlan>
  {
    GetShortPlansArray(true, true, records, cfg)
  }

  /** With the corrected limit, whenever the finance option stays at checkout
      the gateway is available, there is a cart, every "price" rule product
      meets the price threshold, some plan survives a "selected" rule, and the
      cart total lies between the lowest plan minimum and the highest plan
      maximum (in minor units) of the offered plans. */
  lemma CorrectedCheckoutWithinPlanBounds(gateways: set<string>, cfg: Config, cart: Option<CheckoutCart>,
                                          records: seq<PlanRecord>, tabs: Tabs)
    requires GatewayId in ShowOptionAtCheckoutCorrected(gateways, cfg, cart, records, tabs)
    ensures GatewayId in gateways && IsAvailable(cfg) && cart.Some?
    ensures var plans := OfferedPlans(records, cfg);
      |plans| > 0 ==>
        && LowestMinimum(plans).value as real <= cart.value.total * 100.0
        && cart.value.total * 100.0 <= HighestMaximum(plans).value as real
    ensures cfg.productSelect == Some("price") ==>
              forall k :: 0 <= k < |cart.value.products| ==> cart.value.products[k].priceIncTax >= cfg.priceSelection
    ensures cfg.productSelect == Some("selected") ==> FilterPlansByProducts(OfferedPlans(records, cfg), cart.value.products, tabs) != []
  {
  }

  /** Either way, the filter only ever removes this gateway, never adds it,
      and keeps it exactly when none of the hiding conditions hold. */
  lemma CheckoutFilterOnlyRemovesGateway(corrected: bool, gateways: set<string>, cfg: Config, cart: Option<CheckoutCart>,
                                         records: seq<PlanRecord>, tabs: Tabs)
    ensures var r := ShowOptionAtCheckoutWith(corrected, gateways, cfg, cart, records, tabs);
      && (GatewayId in r <==> GatewayId in gateways && !HiddenWith(corrected, cfg, cart, records, tabs))
      && (GatewayId !in gateways ==> r == gateways)
      && (!IsAvailable(cfg) ==> GatewayId !in r)
  {
  }

  /** The example shop: enabled, no merchant limits, no product rule. */
  const ExampleConfig := Config(Yes, "key", "https://merchant.api", "", Yes, Yes, Yes, None, None, None, 0.0, None, [])

  /** Two active plans, 0 to 10 and 0 to 50 pounds. */
  const ExampleRecords := [PlanRecord("a", "A", 0.0, 1000.0, true), PlanRecord("b", "B", 0.0, 5000.0, true)]

  lemma ExampleOffered()
    ensures GetShortPlansArray(true, true, ExampleRecords, ExampleConfig)
              == [ShortPlan("a", "A", 0, 1000, true), ShortPlan("b", "B", 0, 5000, true)]
  {
    var records := ExampleRecords;
    var a := ShortPlan("a", "A", 0, 1000, true);
    var b := ShortPlan("b", "B", 0, 5000, true);
    assert records[..1] == [records[0]];
    assert records[..1][..0] == [];
    assert FromRecord(records[0]) == a && FromRecord(records[1]) == b;
    assert BuildPlans(records[..1]) == [a];
    assert BuildPlans(records) == [a, b];
    FilterKeepsAll([a, b], (p: ShortPlan) => p.IsActive());
  }

  lemma ExampleBounds()
    ensures var plans := [ShortPlan("a", "A", 0, 1000, true), ShortPlan("b", "B", 0, 5000, true)];
      && TrueCartThreshold(plans, ExampleConfig) == Some(0.0)
      && TrueCartMaxFrom(MaximumAsWritten(plans), ExampleConfig) == Some(10.0)
      && TrueCartMaxFrom(HighestMaximum(plans), ExampleConfig) == Some(50.0)
  {
    var plans := [ShortPlan("a", "A", 0, 1000, true), ShortPlan("b", "B", 0, 5000, true)];
    MaximumAsWrittenMissesLargerPlan();
    assert plans[..1] == [plans[0]];
    assert LowestMinimum(plans) == Some(0);
  }

  /** As written, a cart of 30.00 is refused although an active plan covers
      up to 50.00: the upper limit comes from the first plan, 10.00. */
  lemma CheckoutRefusesCoveredCart()
    ensures var cart := Some(CheckoutCart(30.0, []));
      && GatewayId !in ShowOptionAtCheckout({GatewayId}, ExampleConfig, cart, ExampleRecords, map[])
      && GatewayId in ShowOptionAtCheckoutCorrected({GatewayId}, ExampleConfig, cart, ExampleRecords, map[])
  {
    ExampleHidden(false);
    ExampleHidden(true);
  }

  /** The example cart of 30.00 is hidden exactly by the as-written limit. */
  lemma ExampleHidden(corrected: bool)
    ensures HiddenWith(corrected, ExampleConfig, Some(CheckoutCart(30.0, [])), ExampleRecords, map[]) <==> !corrected
  {
    var plans := GetShortPlansArray(true, true, ExampleRecords, ExampleConfig);
    ExampleOffered();
    ExampleBounds();
    assert IsAvailable(ExampleConfig) && ExampleConfig.productSelect.None?;
    assert TrueCartThreshold(plans, ExampleConfig) == Some(0.0);
    if corrected {
      assert TrueCartMaxFrom(HighestMaximum(plans), ExampleConfig) == Some(50.0);
    } else {
      assert TrueCartMaxFrom(MaximumAsWritten(plans), ExampleConfig) == Some(10.0);
    }
  }
}
