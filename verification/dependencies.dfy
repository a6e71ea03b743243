/** The plan guards of the request dependencies, which read the legacy PLAN_LIMITS
    table of the settings module rather than the plan manager's policies. */
module Dependencies {
  import opened Wrappers
  import opened Text
  import Config
  import PlanManager
  import PlanCatalog

  /** `(plan or "free").lower().strip()`: lower-cased before trimming, the reverse of
      the plan manager's order. */
  function PlanKey(plan: Option<string>): (k: string)
    ensures plan.None? ==> k == "free"
    ensures k == Lower(Strip(OrElse(plan, "free")))
  {
    StripLower(OrElse(plan, "free"));
    PlanCatalog.CanonicalFree();
    Strip(Lower(OrElse(plan, "free")))
  }

  /** get_plan_limits: PLAN_LIMITS.get(key, PLAN_LIMITS["free"]). It selects the same
      row as the plan manager's normalisation, whatever the input. */
  function GetPlanLimits(plan: Option<string>): (r: Config.FeatureLimits)
    ensures r == Config.PlanLimits(PlanManager.NormalizePlan(plan))
  {
    var p := PlanKey(plan);
    StripLower(OrElse(plan, "free"));
    if Config.IsLimitsKey(p) then Config.PlanLimits(p) else Config.PlanLimits("free")
  }

  /** check_product_limit: refused with 403 once the owner already has the plan's
      maximum; an unlimited plan is never refused. */
  function CheckProductLimit(plan: Option<string>, totalProducts: int): (r: Outcome)
    ensures r.Fail? <==>
      GetPlanLimits(plan).maxProducts.Some? && totalProducts >= GetPlanLimits(plan).maxProducts.value
    ensures r.Fail? ==> r.error.status == 403
  {
    var limits := GetPlanLimits(plan);
    if limits.maxProducts.None? then Pass
    else if totalProducts >= limits.maxProducts.value then Fail(HttpError(403, "product_limit"))
    else Pass
  }

  /** The documented ceilings: FREE 3, PRO 20, DON unlimited. */
  lemma ProductLimitByPlan(plan: Option<string>, totalProducts: int)
    ensures PlanManager.NormalizePlan(plan) == "free" ==>
      (CheckProductLimit(plan, totalProducts).Fail? <==> totalProducts >= 3)
    ensures PlanManager.NormalizePlan(plan) == "pro" ==>
      (CheckProductLimit(plan, totalProducts).Fail? <==> totalProducts >= 20)
    ensures PlanManager.NormalizePlan(plan) == "don" ==> CheckProductLimit(plan, totalProducts).Pass?
  {
  }

  /** require_auto_ingest: 403 unless the plan is pro or don. */
  function RequireAutoIngest(plan: Option<string>): (r: Outcome)
    ensures r.Pass? <==> PlanManager.NormalizePlan(plan) != "free"
    ensures r.Fail? ==> r.error.status == 403
  {
    if !GetPlanLimits(plan).autoIngest then Fail(HttpError(403, "auto_ingest")) else Pass
  }

  /** require_featured_allowed: 403 unless the plan is pro or don. */
  function RequireFeaturedAllowed(plan: Option<string>): (r: Outcome)
    ensures r.Pass? <==> PlanManager.NormalizePlan(plan) != "free"
    ensures r.Fail? ==> r.error.status == 403
  {
    if !GetPlanLimits(plan).featuredAllowed then Fail(HttpError(403, "featured")) else Pass
  }

  /** PLAN_LIMITS and the plan manager's PLAN_POLICIES agree on the product ceiling and
      on ingestion for every plan. */
  lemma LimitsAgreeWithPolicies(plan: Option<string>)
    ensures GetPlanLimits(plan).maxProducts == PlanManager.GetPolicy(plan).productLimit
    ensures GetPlanLimits(plan).autoIngest == PlanManager.GetPolicy(plan).canIngest
  {
  }
}
