/** The fixed catalog of plans (free, pro, don): lookup, listing and expiry arithmetic.
    Instants are integer UTC seconds. */
module PlanCatalog {
  import opened Wrappers
  import opened Text

  const FREE: string := "free"
  const PRO: string := "pro"
  const DON: string := "don"

  /** timedelta(days = n), in seconds. */
  function Days(n: int): int {
    n * 86400
  }

  /** ALL_PLANS membership */
  predicate IsPlanId(p: string) {
    p == FREE || p == PRO || p == DON
  }

  /** The technical limits of a plan (the keys the engine reads plus the extras). */
  datatype Limits = Limits(
    maxProducts: int,
    mlIngestEnabled: bool,
    customDomain: bool,
    themes: int,
    support: string)

  datatype Plan = Plan(
    id: string,
    name: string,
    priceCents: int,
    durationDays: int,
    isSellable: bool,
    highlight: bool,
    limits: Limits)

  const FreePlan: Plan := Plan(FREE, "FREE", 0, 0, false, false, Limits(3, false, false, 1, "community"))
  const ProPlan: Plan := Plan(PRO, "PRO", 1990, 30, true, true, Limits(30, true, false, 3, "priority"))
  const DonPlan: Plan := Plan(DON, "DON", 4990, 30, true, false, Limits(200, true, true, 10, "vip"))

  /** _CATALOG, in its declaration order. */
  const Catalog: seq<Plan> := [FreePlan, ProPlan, DonPlan]

  /** _CATALOG[id] */
  function Entry(id: string): (p: Plan)
    requires IsPlanId(id)
    ensures p in Catalog && p.id == id
  {
    if id == FREE then FreePlan else if id == PRO then ProPlan else DonPlan
  }

  /** _CATALOG is keyed by plan id: one entry per plan, each found under its own id,
      and a plan is sellable exactly when it costs something. */
  lemma CatalogKeyed()
    ensures |Catalog| == 3
    ensures forall i :: 0 <= i < |Catalog| ==> IsPlanId(Catalog[i].id) && Entry(Catalog[i].id) == Catalog[i]
    ensures forall i, j :: 0 <= i < j < |Catalog| ==> Catalog[i].id != Catalog[j].id
    ensures forall i :: 0 <= i < |Catalog| ==> (Catalog[i].isSellable <==> Catalog[i].priceCents > 0)
  {
  }

  /** normalize_plan: None or "" gives free; otherwise the stripped, lower-cased text
      if it names a plan, else free. */
  function NormalizePlan(plan: Option<string>): (r: string)
    ensures IsPlanId(r)
    ensures !Truthy(plan) ==> r == FREE
    ensures Truthy(plan) && IsPlanId(Lower(Strip(plan.value))) ==> r == Lower(Strip(plan.value))
    ensures r != FREE ==> Truthy(plan) && r == Lower(Strip(plan.value))
  {
    if !Truthy(plan) then FREE
    else
      var p := Lower(Strip(plan.value));
      if IsPlanId(p) then p else FREE
  }

  lemma CanonicalFree()
    ensures Lower(Strip(FREE)) == FREE
  {
    var s := "free";
    assert !IsSpace(s[0]) && !IsSpace(s[3]);
    assert LStrip(s) == s && RStrip(s) == s && Lower(s) == s;
  }

  lemma CanonicalPro()
    ensures Lower(Strip(PRO)) == PRO
  {
    var s := "pro";
    assert !IsSpace(s[0]) && !IsSpace(s[2]);
    assert LStrip(s) == s && RStrip(s) == s && Lower(s) == s;
  }

  lemma CanonicalDon()
    ensures Lower(Strip(DON)) == DON
  {
    var s := "don";
    assert !IsSpace(s[0]) && !IsSpace(s[2]);
    assert LStrip(s) == s && RStrip(s) == s && Lower(s) == s;
  }

  /** The three ids are their own stripped, lower-cased form. */
  lemma CanonicalIds()
    ensures Lower(Strip(FREE)) == FREE && Lower(Strip(PRO)) == PRO && Lower(Strip(DON)) == DON
  {
    CanonicalFree();
    CanonicalPro();
    CanonicalDon();
  }

  lemma NormalizeCanonical(id: string)
    requires IsPlanId(id)
    ensures NormalizePlan(Some(id)) == id
  {
    CanonicalIds();
  }

  /** normalize_plan is idempotent. */
  lemma NormalizeIdempotent(plan: Option<string>)
    ensures NormalizePlan(Some(NormalizePlan(plan))) == NormalizePlan(plan)
  {
    NormalizeCanonical(NormalizePlan(plan));
  }

  /** get_plan: the catalog entry of the normalised id; never fails. */
  function GetPlan(plan: Option<string>): (r: Plan)
    ensures r.id == NormalizePlan(plan) && r in Catalog
    ensures r.isSellable <==> r.id != FREE
    ensures r.id == FREE ==> r.priceCents == 0 && r.durationDays == 0
    ensures r.id == PRO ==> r.priceCents == 1990 && r.durationDays == 30
    ensures r.id == DON ==> r.priceCents == 4990 && r.durationDays == 30
  {
    Entry(NormalizePlan(plan))
  }

  /** Position of a plan in the fixed display order free, pro, don (99 for anything else). */
  function DisplayOrder(id: string): int {
    if id == FREE then 0 else if id == PRO then 1 else if id == DON then 2 else 99
  }

  predicate Keep(p: Plan, includeFree: bool, sellableOnly: bool) {
    (includeFree || p.id != FREE) && (!sellableOnly || p.isSellable)
  }

  predicate InDisplayOrder(plans: seq<Plan>) {
    forall i, j :: 0 <= i < j < |plans| ==> DisplayOrder(plans[i].id) < DisplayOrder(plans[j].id)
  }

  function Filter(plans: seq<Plan>, includeFree: bool, sellableOnly: bool): (r: seq<Plan>)
    ensures forall p :: p in r <==> p in plans && Keep(p, includeFree, sellableOnly)
    ensures InDisplayOrder(plans) ==> InDisplayOrder(r)
  {
    if plans == [] then []
    else
      var rest := Filter(plans[1..], includeFree, sellableOnly);
      assert forall i :: 0 <= i < |plans| - 1 ==> plans[1..][i] == plans[i + 1];
      assert InDisplayOrder(plans) ==>
        forall x :: x in rest ==> DisplayOrder(plans[0].id) < DisplayOrder(x.id);
      if Keep(plans[0], includeFree, sellableOnly) then [plans[0]] + rest else rest
  }

  /** list_plans: the catalog filtered by the two switches. The source sorts the
      filtered list by DisplayOrder; the catalog is declared in that order, so the
      filtered list is already sorted, as the postcondition states. */
  function ListPlans(includeFree: bool, sellableOnly: bool): (r: seq<Plan>)
    ensures forall p :: p in r <==> p in Catalog && Keep(p, includeFree, sellableOnly)
    ensures InDisplayOrder(r)
  {
    Filter(Catalog, includeFree, sellableOnly)
  }

  /** months below 1 (or None) counts as one month. */
  function MonthsFloor(months: Option<int>): (m: int)
    ensures m >= 1
    ensures months.Some? && months.value >= 1 ==> m == months.value
  {
    if months.None? || months.value < 1 then 1 else months.value
  }

  /** calc_plan_expiry: None for the free plan, otherwise start plus duration_days
      per month (at least one month). */
  function CalcPlanExpiry(start: int, months: Option<int>, planId: string): (r: Option<int>)
    ensures r.None? <==> NormalizePlan(Some(planId)) == FREE
    ensures r.Some? ==> r.value == start + Days(GetPlan(Some(planId)).durationDays * MonthsFloor(months))
    ensures r.Some? ==> r.value >= start + Days(30)
  {
    var plan := GetPlan(Some(planId));
    if plan.id == FREE then None
    else
      var m := MonthsFloor(months);
      Some(start + Days(plan.durationDays * m))
  }

  /** limits_for */
  function LimitsFor(planId: Option<string>): (r: Limits)
    ensures r == GetPlan(planId).limits
  {
    GetPlan(planId).limits
  }

  /** is_ml_ingest_enabled: false exactly for free (and every id that normalises to it). */
  function IsMlIngestEnabled(planId: Option<string>): (r: bool)
    ensures r <==> NormalizePlan(planId) != FREE
  {
    LimitsFor(planId).mlIngestEnabled
  }

  /** max_products: free 3, pro 30, don 200. */
  function MaxProducts(planId: Option<string>): (r: int)
    ensures NormalizePlan(planId) == FREE ==> r == 3
    ensures NormalizePlan(planId) == PRO ==> r == 30
    ensures NormalizePlan(planId) == DON ==> r == 200
  {
    LimitsFor(planId).maxProducts
  }
}
