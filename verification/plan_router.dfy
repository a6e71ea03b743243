/** The direct plan-upgrade endpoint: a guard chain on the requested plan and the
    user's stored plan, then six lifecycle columns written in place, with no expiry. */
module PlanRouter {
  import opened Wrappers
  import opened Text
  import opened Models
  import PlanManager

  /** The keys of VALID_PLANS. */
  predicate IsValidTarget(p: string) {
    p == "pro" || p == "don"
  }

  /** The guard chain of upgrade_plan, in order: the lower-cased plan must be pro or
      don (400), the user must exist (404), a user on don may not change (403) and a
      user already on the target may not repeat it (400). `current` is the user's
      stored plan, or None when no user has that exact username. */
  function UpgradeGuard(plan: string, current: Option<string>): (r: Outcome)
    ensures r.Pass? <==>
      IsValidTarget(Lower(plan)) && current.Some? && current.value != "don" && current.value != Lower(plan)
    ensures !IsValidTarget(Lower(plan)) ==> r == Fail(HttpError(400, "invalid_plan"))
    ensures IsValidTarget(Lower(plan)) && current.None? ==> r == Fail(HttpError(404, "user_not_found"))
    ensures IsValidTarget(Lower(plan)) && current == Some("don") ==> r == Fail(HttpError(403, "upgrade_not_allowed"))
    ensures IsValidTarget(Lower(plan)) && current.Some? && current.value != "don" && current.value == Lower(plan) ==>
      r == Fail(HttpError(400, "already_on_plan"))
  {
    var p := Lower(plan);
    if !IsValidTarget(p) then Fail(HttpError(400, "invalid_plan"))
    else if current.None? then Fail(HttpError(404, "user_not_found"))
    else if current.value == "don" then Fail(HttpError(403, "upgrade_not_allowed"))
    else if current.value == p then Fail(HttpError(400, "already_on_plan"))
    else Pass
  }

  /** The lifecycle columns after a direct upgrade: active from now, with no expiry and
      no recorded expiry in the history. */
  function DirectUpgraded(plan: string, now: int): (r: PlanFields)
    ensures r.plan == plan && r.status == "active" && r.startedAt == Some(now)
    ensures forall t :: !PlanManager.IsExpired(r.expiresAt, t)
    ensures r.lastPaidPlan == Some(plan) && r.lastPaidExpiresAt.None?
  {
    PlanFields(plan, "active", Some(now), None, Some(plan), None)
  }

  /** A directly upgraded user never expires: every later sync leaves the columns as
      they are. */
  lemma DirectUpgradeNeverExpires(plan: string, now: int, later: int)
    requires IsValidTarget(plan)
    ensures PlanManager.Synced(DirectUpgraded(plan, now), later) == DirectUpgraded(plan, now)
  {
    PlanManager.NormalizeKey(plan);
  }

  /** After a successful upgrade the same request is refused: with 400 for pro, with
      403 once the user is on don. */
  lemma UpgradeNotRepeatable(plan: string, now: int)
    requires IsValidTarget(Lower(plan))
    ensures UpgradeGuard(plan, Some(DirectUpgraded(Lower(plan), now).plan)).Fail?
  {
  }

  /** A pro user may still move to don, and a don user may not go back to pro. */
  lemma UpgradeOnlyUpwards(now: int)
    ensures UpgradeGuard("don", Some(DirectUpgraded("pro", now).plan)).Pass?
    ensures UpgradeGuard("pro", Some(DirectUpgraded("don", now).plan)) == Fail(HttpError(403, "upgrade_not_allowed"))
  {
    assert Lower("don") == "don";
    assert Lower("pro") == "pro";
  }

  /** upgrade_plan: looks the username up exactly (no trimming, no lower-casing, no
      sync), runs the guard chain, and on success writes the direct-upgrade columns. */
  method UpgradePlan(users: UserTable, username: string, plan: string, now: int)
    returns (r: Result<BlackLinkUser>, ghost user: BlackLinkUser?)
    requires users.Valid()
    modifies users.rows
    ensures user == null <==> !users.HasUsername(username)
    ensures user != null ==> user in users.rows && user.username == username
    ensures r.Ok? <==> UpgradeGuard(plan, if user == null then None else Some(old(user.plan))).Pass?
    ensures r.Err? ==> r.error == UpgradeGuard(plan, if user == null then None else Some(old(user.plan))).error
    ensures r.Err? ==> forall v :: v in users.rows ==> unchanged(v)
    ensures r.Ok? ==> r.value == user && user.PlanState() == DirectUpgraded(Lower(plan), now)
    ensures r.Ok? ==> user.ProfileState() == old(user.ProfileState())
    ensures r.Ok? ==> forall v :: v in users.rows && v != user ==> unchanged(v)
  {
    var u := users.FindByUsername(username);
    var check := UpgradeGuard(plan, if u == null then None else Some(u.plan));
    if check.Fail? {
      return Err(check.error), u;
    }
    u.SetPlanState(DirectUpgraded(Lower(plan), now));
    return Ok(u), u;
  }
}
