/** The plan-lifecycle service: its own policy table, lazy expiry (sync) and the
    non-stacking paid-plan application. Instants are integer UTC seconds. */
module PlanManager {
  import opened Wrappers
  import opened Text
  import opened Models
  import PlanCatalog

  datatype PlanPolicy = PlanPolicy(productLimit: Option<int>, canIngest: bool, defaultDays: int)

  /** The keys of PLAN_POLICIES. */
  predicate IsPolicyKey(p: string) {
    p == "free" || p == "pro" || p == "don"
  }

  /** PLAN_POLICIES[p] (pro 20 products, don unlimited: not the catalog's figures). */
  function Policies(p: string): (r: PlanPolicy)
    requires IsPolicyKey(p)
    ensures r.productLimit.None? <==> p == "don"
    ensures p == "free" ==> r.productLimit == Some(3)
    ensures p == "pro" ==> r.productLimit == Some(20)
    ensures r.canIngest <==> p != "free"
    ensures r.defaultDays == (if p == "free" then 0 else 30)
  {
    if p == "free" then PlanPolicy(Some(3), false, 0)
    else if p == "pro" then PlanPolicy(Some(20), true, 30)
    else PlanPolicy(None, true, 30)
  }

  /** normalize_plan: `(plan or "free").strip().lower()`, unknown ids give free. */
  function NormalizePlan(plan: Option<string>): (r: string)
    ensures IsPolicyKey(r)
    ensures r != "free" ==> plan.Some?
  {
    PlanCatalog.CanonicalIds();
    var p := Lower(Strip(OrElse(plan, "free")));
    if IsPolicyKey(p) then p else "free"
  }

  /** This module's normalisation agrees with the catalog's on every input. */
  lemma NormalizeAgreesWithCatalog(plan: Option<string>)
    ensures NormalizePlan(plan) == PlanCatalog.NormalizePlan(plan)
  {
    PlanCatalog.CanonicalIds();
  }

  /** A policy key is its own normal form. */
  lemma NormalizeKey(p: string)
    requires IsPolicyKey(p)
    ensures NormalizePlan(Some(p)) == p
  {
    PlanCatalog.CanonicalIds();
  }

  /** get_policy on a key already in normal form is that key's policy. */
  lemma PolicyOfKey(p: string)
    requires IsPolicyKey(p)
    ensures GetPolicy(Some(p)) == Policies(p)
  {
    NormalizeKey(p);
  }

  /** get_policy */
  function GetPolicy(plan: Option<string>): (r: PlanPolicy)
    ensures r == Policies(NormalizePlan(plan))
    ensures r.productLimit.None? <==> NormalizePlan(plan) == "don"
    ensures r.canIngest <==> NormalizePlan(plan) != "free"
  {
    Policies(NormalizePlan(plan))
  }

  /** is_expired: no expiry never expires; an expiry equal to now is not yet expired. */
  function IsExpired(expiresAt: Option<int>, now: int): (r: bool)
    ensures expiresAt.None? ==> !r
    ensures expiresAt.Some? ==> (r <==> expiresAt.value < now)
  {
    expiresAt.Some? && expiresAt.value < now
  }

  predicate IsPaid(plan: string) {
    plan == "pro" || plan == "don"
  }

  /** The new lifecycle columns after sync_user_plan(user, now). */
  function Synced(f: PlanFields, now: int): (r: PlanFields)
    ensures r.expiresAt.None? || r.expiresAt.value >= now
    ensures IsExpired(f.expiresAt, now) ==>
      r.plan == "free" && r.status == "expired" && r.startedAt.None? && r.expiresAt.None?
    ensures !IsExpired(f.expiresAt, now) ==>
      r.expiresAt == f.expiresAt && r.startedAt == f.startedAt &&
      r.lastPaidPlan == f.lastPaidPlan && r.lastPaidExpiresAt == f.lastPaidExpiresAt
    ensures r.plan != "free" ==> r.plan == f.plan && IsPaid(NormalizePlan(Some(f.plan))) && r.status == "active"
    ensures r.status != ""
    ensures !IsExpired(f.expiresAt, now) && IsPaid(NormalizePlan(Some(f.plan))) ==> r == f.(status := "active")
    ensures !IsExpired(f.expiresAt, now) && !IsPaid(NormalizePlan(Some(f.plan))) ==>
      r == f.(plan := "free", status := if f.status != "" then f.status else "active")
  {
    var current := NormalizePlan(Some(f.plan));
    if IsExpired(f.expiresAt, now) then
      PlanFields("free", "expired", None, None,
        if Truthy(f.lastPaidPlan) then f.lastPaidPlan else Some(current),
        if f.lastPaidExpiresAt.Some? then f.lastPaidExpiresAt else f.expiresAt)
    else if IsPaid(current) then
      f.(status := "active")
    else
      f.(plan := "free", status := if f.status != "" then f.status else "active")
  }

  /** On expiry the history keeps an earlier snapshot, else records the plan that ran out. */
  lemma SyncExpiryHistory(f: PlanFields, now: int)
    requires IsExpired(f.expiresAt, now)
    ensures Synced(f, now).lastPaidPlan ==
      (if Truthy(f.lastPaidPlan) then f.lastPaidPlan else Some(NormalizePlan(Some(f.plan))))
    ensures Synced(f, now).lastPaidExpiresAt ==
      (if f.lastPaidExpiresAt.Some? then f.lastPaidExpiresAt else f.expiresAt)
  {
  }

  /** A second sync at the same instant changes nothing. */
  lemma SyncIdempotent(f: PlanFields, now: int)
    ensures Synced(Synced(f, now), now) == Synced(f, now)
  {
    var g := Synced(f, now);
    assert !IsExpired(g.expiresAt, now);
    if g.plan == "free" {
      NormalizeKey("free");
    }
  }

  /** The lifecycle test: a pro user whose expiry is two days in the past is, after a
      sync, on free and expired with no dates, and remembers pro as the last paid plan. */
  lemma ExpiredProDowngrades(f: PlanFields, now: int)
    requires f.plan == "pro" && f.status == "active" && f.expiresAt == Some(now - PlanCatalog.Days(2))
    requires f.lastPaidPlan.None? && f.lastPaidExpiresAt.None?
    ensures Synced(f, now) ==
      PlanFields("free", "expired", None, None, Some("pro"), Some(now - PlanCatalog.Days(2)))
  {
    NormalizeKey("pro");
  }

  /** sync_user_plan: mutates the user's lifecycle columns in place. */
  method SyncUserPlan(user: BlackLinkUser, now: int)
    modifies user
    ensures user.PlanState() == Synced(old(user.PlanState()), now)
    ensures user.ProfileState() == old(user.ProfileState())
  {
    var f := user.PlanState();
    var currentPlan := NormalizePlan(Some(f.plan));
    if IsExpired(f.expiresAt, now) {
      f := PlanFields("free", "expired", None, None,
        if Truthy(f.lastPaidPlan) then f.lastPaidPlan else Some(currentPlan),
        if f.lastPaidExpiresAt.Some? then f.lastPaidExpiresAt else f.expiresAt);
    } else if currentPlan == "pro" || currentPlan == "don" {
      f := f.(status := "active");
    } else {
      f := f.(plan := "free", status := if f.status != "" then f.status else "active");
    }
    user.SetPlanState(f);
  }

  /** `max(int(months or 1), 1)` */
  function PaidMonths(months: Option<int>): (m: int)
    ensures m == PlanCatalog.MonthsFloor(months)
  {
    var m := if months.None? || months.value == 0 then 1 else months.value;
    if m < 1 then 1 else m
  }

  /** The plan apply_paid_plan grants: the normalised id, with free (or unknown) made pro. */
  function PaidTarget(plan: string): (r: string)
    ensures IsPaid(r)
    ensures NormalizePlan(Some(plan)) != "free" ==> r == NormalizePlan(Some(plan))
  {
    var p := NormalizePlan(Some(plan));
    if p == "free" then "pro" else p
  }

  /** The new lifecycle columns after apply_paid_plan(user, plan, months, now):
      the period starts now, whatever the previous state was. */
  function PaidApplied(f: PlanFields, plan: string, months: Option<int>, now: int): (r: PlanFields)
    ensures r.plan == PaidTarget(plan) && r.status == "active" && r.startedAt == Some(now)
    ensures r.expiresAt.Some? && r.expiresAt.value == now + PlanCatalog.Days(30 * PlanCatalog.MonthsFloor(months))
    ensures r.expiresAt.value > now
    ensures r.lastPaidPlan == Some(r.plan) && r.lastPaidExpiresAt == r.expiresAt
  {
    var target := PaidTarget(plan);
    var days := Policies(target).defaultDays;
    var m := PaidMonths(months);
    assert days == 30 && m == PlanCatalog.MonthsFloor(months) >= 1;
    var expires := now + PlanCatalog.Days(days * m);
    PlanFields(target, "active", Some(now), Some(expires), Some(target), Some(expires))
  }

  /** No stacking: the result does not depend on the user's previous state. */
  lemma PaidAppliedIgnoresHistory(f: PlanFields, g: PlanFields, plan: string, months: Option<int>, now: int)
    ensures PaidApplied(f, plan, months, now) == PaidApplied(g, plan, months, now)
  {
  }

  /** A freshly applied paid plan survives a sync up to and including its expiry instant. */
  lemma {:induction false} PaidAppliedSurvivesSync(f: PlanFields, plan: string, months: Option<int>, now: int, later: int)
    requires now <= later <= PaidApplied(f, plan, months, now).expiresAt.value
    ensures Synced(PaidApplied(f, plan, months, now), later) == PaidApplied(f, plan, months, now)
  {
    var r := PaidApplied(f, plan, months, now);
    NormalizeKey(r.plan);
  }

  /** apply_paid_plan: mutates the user's lifecycle columns in place. */
  method ApplyPaidPlan(user: BlackLinkUser, plan: string, months: Option<int>, now: int)
    modifies user
    ensures user.PlanState() == PaidApplied(old(user.PlanState()), plan, months, now)
    ensures user.ProfileState() == old(user.ProfileState())
  {
    var p := NormalizePlan(Some(plan));
    if p == "free" {
      p := "pro";
    }
    var m := PaidMonths(months);
    var policy := GetPolicy(Some(p));
    PolicyOfKey(p);
    var expires := now + PlanCatalog.Days(policy.defaultDays * m);
    ghost var spec := PaidApplied(user.PlanState(), plan, months, now);
    assert spec.plan == p && spec.expiresAt.value == expires;
    user.SetPlanState(PlanFields(p, "active", Some(now), Some(expires), Some(p), Some(expires)));
  }
}
