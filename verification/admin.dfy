/** The bootstrap endpoint that creates a user by hand. */
module Admin {
  import opened Wrappers
  import opened Text
  import opened Models
  import BlackLinks

  /** The plans the endpoint accepts. */
  predicate IsAdminPlan(p: string) {
    p == "free" || p == "pro" || p == "don"
  }

  /** `username.strip().lower()`: the same key the user router looks users up by,
      although the two apply the steps in opposite orders. */
  function AdminUsername(username: string): (k: string)
    ensures k == BlackLinks.UsernameKey(username)
  {
    StripLower(username);
    Lower(Strip(username))
  }

  /** `(plan or "free").lower()`, not trimmed. */
  function AdminPlan(plan: Option<string>): (p: string)
    ensures !Truthy(plan) ==> p == "free"
    ensures Truthy(plan) ==> p == Lower(plan.value)
    ensures Truthy(plan) ==> |p| == |plan.value|
  {
    Lower(OrElse(plan, "free"))
  }

  /** The guard chain, in order: an empty username (400), a plan outside free, pro and
      don (400), a taken username (409). */
  function AdminGuard(key: string, plan: string, taken: bool): (r: Outcome)
    ensures r.Pass? <==> key != [] && IsAdminPlan(plan) && !taken
    ensures key == [] ==> r == Fail(HttpError(400, "username_required"))
    ensures key != [] && !IsAdminPlan(plan) ==> r == Fail(HttpError(400, "invalid_plan"))
    ensures key != [] && IsAdminPlan(plan) && taken ==> r == Fail(HttpError(409, "user_exists"))
  {
    if key == [] then Fail(HttpError(400, "username_required"))
    else if !IsAdminPlan(plan) then Fail(HttpError(400, "invalid_plan"))
    else if taken then Fail(HttpError(409, "user_exists"))
    else Pass
  }

  /** Any plan given with leading or trailing whitespace is refused, since the plan is
      lower-cased but not trimmed. */
  lemma {:induction false} PaddedPlanRefused(key: string, plan: Option<string>, taken: bool)
    requires Truthy(plan) && (IsSpace(plan.value[0]) || IsSpace(plan.value[|plan.value| - 1]))
    ensures AdminGuard(key, AdminPlan(plan), taken).Fail?
  {
    var s := plan.value;
    var p := AdminPlan(plan);
    assert |p| == |s| && p[0] == LowerChar(s[0]) && p[|p| - 1] == LowerChar(s[|s| - 1]);
    assert IsSpace(p[0]) || IsSpace(p[|p| - 1]);
    assert !IsAdminPlan(p);
  }

  /** The JSON reply of a successful creation. */
  datatype AdminReply = AdminReply(id: int, username: string, email: string, plan: string, status: string)

  /** create_user_admin: on success a new row with the normalised username, the email,
      the lower-cased plan and status active (no dates, no history), and a reply that
      echoes them; on any refusal the table is unchanged. */
  method CreateUserAdmin(users: UserTable, username: string, email: string, plan: Option<string>)
    returns (r: Result<AdminReply>)
    requires users.Valid()
    modifies users
    ensures users.Valid()
    ensures r.Ok? <==>
      AdminGuard(AdminUsername(username), AdminPlan(plan), old(users.HasUsername(AdminUsername(username)))).Pass?
    ensures r.Err? ==> users.rows == old(users.rows)
    ensures r.Err? ==>
      r.error == AdminGuard(AdminUsername(username), AdminPlan(plan), old(users.HasUsername(AdminUsername(username)))).error
    ensures r.Ok? ==> |users.rows| == |old(users.rows)| + 1 && users.rows[..|old(users.rows)|] == old(users.rows)
    ensures r.Ok? ==> var u := users.rows[|users.rows| - 1];
      fresh(u) && u.username == AdminUsername(username) &&
      u.ProfileState() == Profile(None, None, Some(email)) &&
      u.PlanState() == PlanFields(AdminPlan(plan), "active", None, None, None, None) &&
      r.value == AdminReply(u.id, u.username, email, AdminPlan(plan), "created")
    ensures r.Ok? ==> users.HasUsername(BlackLinks.UsernameKey(username))
  {
    var key := AdminUsername(username);
    var p := AdminPlan(plan);
    var existing := users.FindByUsername(key);
    var check := AdminGuard(key, p, existing != null);
    if check.Fail? {
      return Err(check.error);
    }
    var u := users.Insert(key, Profile(None, None, Some(email)), PlanFields(p, "active", None, None, None, None));
    assert users.rows[|users.rows| - 1] == u;
    return Ok(AdminReply(u.id, u.username, email, p, "created"));
  }
}
