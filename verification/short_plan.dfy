/** The immutable plan record the catalog works with, and how it is built from
    the plans the finance API returns. */
module ShortPlans {
  import opened Wrappers
  import Money

  /** A finance plan offer: identifier, display name, credit bounds in minor
      units and whether it is active. Datatype values are immutable, as the
      source's private fields without setters make the plan. */
  datatype ShortPlan = ShortPlan(
    id: string,
    name: string,
    creditMinimum: int,
    creditMaximum: int,
    active: bool)
  {
    function GetId(): string { id }
    function GetName(): string { name }
    function IsActive(): bool { active }
    function GetCreditMinimum(): int { creditMinimum }
    function GetCreditMaximum(): int { creditMaximum }
  }

  /** A plan as decoded from the finance-plans endpoint. The credit bounds are
      JSON numbers that the gateway casts with `(int)`. */
  datatype PlanRecord = PlanRecord(
    id: string,
    description: string,
    minimumAmount: real,
    maximumAmount: real,
    active: bool)

  /** The plan built from one record: every accessor returns the value the
      plan was constructed from. */
  function FromRecord(r: PlanRecord): (p: ShortPlan)
    ensures p.GetId() == r.id && p.GetName() == r.description
    ensures p.IsActive() == r.active
    ensures p.GetCreditMinimum() == Money.Trunc(r.minimumAmount)
    ensures p.GetCreditMaximum() == Money.Trunc(r.maximumAmount)
    ensures r.minimumAmount == r.minimumAmount.Floor as real ==> p.GetCreditMinimum() as real == r.minimumAmount
    ensures r.maximumAmount == r.maximumAmount.Floor as real ==> p.GetCreditMaximum() as real == r.maximumAmount
  {
    Money.TruncWhole(r.minimumAmount);
    Money.TruncWhole(r.maximumAmount);
    ShortPlan(r.id, r.description, Money.Trunc(r.minimumAmount), Money.Trunc(r.maximumAmount), r.active)
  }

  /** No two plans share an identifier (the plans array is keyed by id). */
  ghost predicate UniqueIds(plans: seq<ShortPlan>)
  {
    forall i, j :: 0 <= i < j < |plans| ==> plans[i].id != plans[j].id
  }

  /** Position of the plan with identifier `id`, if any. */
  function IndexOfId(plans: seq<ShortPlan>, id: string): (r: Option<nat>)
    ensures r.Some? ==> r.value < |plans| && plans[r.value].id == id
    ensures r.None? ==> forall i :: 0 <= i < |plans| ==> plans[i].id != id
  {
    if |plans| == 0 then None
    else if plans[|plans| - 1].id == id then Some(|plans| - 1)
    else IndexOfId(plans[..|plans| - 1], id)
  }

  /** `$finances[$plan->id] = $plan`: an existing key keeps its position and
      takes the new value; a new key is appended. */
  function Put(plans: seq<ShortPlan>, p: ShortPlan): (r: seq<ShortPlan>)
  {
    match IndexOfId(plans, p.id)
    case Some(i) => plans[i := p]
    case None => plans + [p]
  }

  /** The keyed plan list `get_short_plans_array` builds from the API records. */
  function BuildPlans(records: seq<PlanRecord>): seq<ShortPlan>
  {
    if |records| == 0 then []
    else Put(BuildPlans(records[..|records| - 1]), FromRecord(records[|records| - 1]))
  }

  lemma PutKeepsKeys(plans: seq<ShortPlan>, p: ShortPlan)
    requires UniqueIds(plans)
    ensures UniqueIds(Put(plans, p))
    ensures p in Put(plans, p)
    ensures forall q :: q in Put(plans, p) ==> q == p || q in plans
    ensures forall q :: q in plans && q.id != p.id ==> q in Put(plans, p)
  {
    var r := Put(plans, p);
    match IndexOfId(plans, p.id)
    case Some(i) =>
      assert r[i] == p;
      forall q | q in plans && q.id != p.id
        ensures q in r
      {
        var k :| 0 <= k < |plans| && plans[k] == q;
        assert r[k] == q;
      }
    case None =>
      assert r[|plans|] == p;
  }

  /** The keyed list has one plan per identifier; every plan comes from a record;
      and for each identifier the LAST record carrying it is the one kept. */
  lemma {:induction false} BuildPlansKeyed(records: seq<PlanRecord>)
    ensures UniqueIds(BuildPlans(records))
    ensures forall q :: q in BuildPlans(records) ==> exists k :: 0 <= k < |records| && q == FromRecord(records[k])
    ensures forall k :: 0 <= k < |records| && (forall m :: k < m < |records| ==> records[m].id != records[k].id)
              ==> FromRecord(records[k]) in BuildPlans(records)
  {
    if |records| > 0 {
      var init := records[..|records| - 1];
      var last := FromRecord(records[|records| - 1]);
      BuildPlansKeyed(init);
      PutKeepsKeys(BuildPlans(init), last);
      forall q | q in BuildPlans(records)
        ensures exists k :: 0 <= k < |records| && q == FromRecord(records[k])
      {
        if q == last {
          assert q == FromRecord(records[|records| - 1]);
        } else {
          var k :| 0 <= k < |init| && q == FromRecord(init[k]);
          assert init[k] == records[k];
        }
      }
      forall k | 0 <= k < |records| && (forall m :: k < m < |records| ==> records[m].id != records[k].id)
        ensures FromRecord(records[k]) in BuildPlans(records)
      {
        if k < |records| - 1 {
          assert records[k] == init[k];
          assert records[|records| - 1].id != records[k].id;
          forall m | k < m < |init|
            ensures init[m].id != init[k].id
          {
            assert init[m] == records[m];
          }
        }
      }
    }
  }
}
