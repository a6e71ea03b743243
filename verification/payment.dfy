/** The payment router: the stacking renewal applied after a payment, the request
    validation shared by both endpoints, the `username:plan:months` reference, the
    checkout preference and the production-safe processing chain. The Mercado Pago
    provider is represented by its answers, given as inputs. */
module Payment {
  import opened Wrappers
  import opened Text
  import opened Models
  import PlanCatalog
  import PlanManager
  import Config
  import BlackLinks

  // ---------------------------------------------------------------
  // apply_plan_upgrade
  // ---------------------------------------------------------------

  /** The renewal test, on the stored (unsynced) columns: a paid plan, active, whose
      expiry is still in the future. */
  predicate Stacks(f: PlanFields, now: int)
    ensures Stacks(f, now) <==> (PlanManager.IsPaid(f.plan) && f.status == "active" &&
      f.expiresAt.Some? && !PlanManager.IsExpired(f.expiresAt, now) && f.expiresAt.value != now)
  {
    (f.plan == "pro" || f.plan == "don") && f.status == "active" && f.expiresAt.Some? && f.expiresAt.value > now
  }

  /** Where the new period starts: at the old expiry when stacking, else now. */
  function RenewalStart(f: PlanFields, now: int): (s: int)
    ensures s >= now
    ensures s > now <==> Stacks(f, now)
  {
    if Stacks(f, now) then f.expiresAt.value else now
  }

  /** The lifecycle columns after apply_plan_upgrade(user, plan_id, months) at `now`:
      400 for a plan that is not sellable (free, and every id the catalog normalises to
      free); otherwise the catalog plan, active from the renewal start for `months`
      periods of its duration, with the previous paid plan and expiry recorded as
      history only when the previous plan was a paid one. */
  function Renewed(f: PlanFields, planId: string, months: int, now: int): (r: Result<PlanFields>)
    ensures r.Err? <==> PlanCatalog.NormalizePlan(Some(planId)) == PlanCatalog.FREE
    ensures r.Err? ==> r.error == HttpError(400, "plan_not_sellable")
    ensures r.Ok? ==> r.value.plan == PlanCatalog.NormalizePlan(Some(planId)) && r.value.status == "active"
    ensures r.Ok? ==> r.value.startedAt == Some(RenewalStart(f, now))
    ensures r.Ok? ==> (r.value.expiresAt.Some? &&
      r.value.expiresAt.value == RenewalStart(f, now) + PlanCatalog.Days(30 * PlanCatalog.MonthsFloor(Some(months))))
    ensures r.Ok? ==> r.value.expiresAt.value > now
    ensures r.Ok? && PlanManager.IsPaid(f.plan) ==>
      r.value.lastPaidPlan == Some(f.plan) && r.value.lastPaidExpiresAt == f.expiresAt
    ensures r.Ok? && !PlanManager.IsPaid(f.plan) ==>
      r.value.lastPaidPlan == f.lastPaidPlan && r.value.lastPaidExpiresAt == f.lastPaidExpiresAt
  {
    var plan := PlanCatalog.GetPlan(Some(planId));
    if !plan.isSellable then Err(HttpError(400, "plan_not_sellable"))
    else
      var start := RenewalStart(f, now);
      PlanCatalog.NormalizeCanonical(plan.id);
      var expires := PlanCatalog.CalcPlanExpiry(start, Some(months), plan.id);
      var kept := if PlanManager.IsPaid(f.plan) then f.(lastPaidPlan := Some(f.plan), lastPaidExpiresAt := f.expiresAt) else f;
      Ok(kept.(plan := plan.id, status := "active", startedAt := Some(start), expiresAt := expires))
  }

  /** A renewal while the current period runs loses no time: the new expiry is the old
      one plus the months bought. */
  lemma StackingKeepsRemainingTime(f: PlanFields, planId: string, months: int, now: int)
    requires Stacks(f, now) && Renewed(f, planId, months, now).Ok?
    ensures Renewed(f, planId, months, now).value.expiresAt.value ==
      f.expiresAt.value + PlanCatalog.Days(30 * PlanCatalog.MonthsFloor(Some(months)))
  {
  }

  /** A renewed plan survives every sync up to and including its expiry instant. */
  lemma {:induction false} RenewedSurvivesSync(f: PlanFields, planId: string, months: int, now: int, later: int)
    requires Renewed(f, planId, months, now).Ok?
    requires now <= later <= Renewed(f, planId, months, now).value.expiresAt.value
    ensures PlanManager.Synced(Renewed(f, planId, months, now).value, later) == Renewed(f, planId, months, now).value
  {
    var g := Renewed(f, planId, months, now).value;
    PlanManager.NormalizeKey(g.plan);
  }

  /** Without a running period to stack on, the renewal sets the same plan, status and
      dates as the plan manager's non-stacking apply_paid_plan; only the history
      columns differ. */
  lemma {:induction false} NonStackingAgreesWithPaidApplied(f: PlanFields, planId: string, months: int, now: int)
    requires !Stacks(f, now) && Renewed(f, planId, months, now).Ok?
    ensures Renewed(f, planId, months, now).value.plan == PlanManager.PaidApplied(f, planId, Some(months), now).plan
    ensures Renewed(f, planId, months, now).value.status == PlanManager.PaidApplied(f, planId, Some(months), now).status
    ensures Renewed(f, planId, months, now).value.startedAt == PlanManager.PaidApplied(f, planId, Some(months), now).startedAt
    ensures Renewed(f, planId, months, now).value.expiresAt == PlanManager.PaidApplied(f, planId, Some(months), now).expiresAt
  {
    SamePlanAsPaidApplied(f, planId, months, now);
    SameDatesAsPaidApplied(f, planId, months, now);
  }

  /** Without a running period, the renewal starts now and runs for the months bought,
      as apply_paid_plan's period does. */
  lemma {:induction false} SameDatesAsPaidApplied(f: PlanFields, planId: string, months: int, now: int)
    requires !Stacks(f, now) && Renewed(f, planId, months, now).Ok?
    ensures Renewed(f, planId, months, now).value.startedAt == PlanManager.PaidApplied(f, planId, Some(months), now).startedAt
    ensures Renewed(f, planId, months, now).value.expiresAt == PlanManager.PaidApplied(f, planId, Some(months), now).expiresAt
  {
    assert RenewalStart(f, now) == now;
  }

  /** A sellable renewal targets the plan the plan manager would apply. */
  lemma {:induction false} SamePlanAsPaidApplied(f: PlanFields, planId: string, months: int, now: int)
    requires Renewed(f, planId, months, now).Ok?
    ensures Renewed(f, planId, months, now).value.plan == PlanManager.PaidApplied(f, planId, Some(months), now).plan
  {
    PlanManager.NormalizeAgreesWithCatalog(Some(planId));
  }

  /** With a running period, the renewal ends strictly later than the plan manager's
      non-stacking application would. */
  lemma {:induction false} StackingOutlastsPaidApplied(f: PlanFields, planId: string, months: int, now: int)
    requires Stacks(f, now) && Renewed(f, planId, months, now).Ok?
    ensures Renewed(f, planId, months, now).value.expiresAt.value >
      PlanManager.PaidApplied(f, planId, Some(months), now).expiresAt.value
  {
    PlanManager.NormalizeAgreesWithCatalog(Some(planId));
    assert PlanManager.PaidMonths(Some(months)) == PlanCatalog.MonthsFloor(Some(months));
  }

  /** After the sync has downgraded an expired user, a renewal starts now and leaves
      the history the sync recorded untouched. */
  lemma {:induction false} RenewalAfterExpiry(f: PlanFields, planId: string, months: int, now: int)
    requires PlanManager.IsExpired(f.expiresAt, now)
    requires Renewed(PlanManager.Synced(f, now), planId, months, now).Ok?
    ensures var g := PlanManager.Synced(f, now);
      var h := Renewed(g, planId, months, now).value;
      h.startedAt == Some(now) && h.lastPaidPlan == g.lastPaidPlan && h.lastPaidExpiresAt == g.lastPaidExpiresAt
  {
    var g := PlanManager.Synced(f, now);
    assert g.plan == "free";
  }

  /** apply_plan_upgrade: updates the user's lifecycle columns in place. */
  method ApplyPlanUpgrade(user: BlackLinkUser, planId: string, months: int, now: int) returns (r: Outcome)
    modifies user
    ensures r.Fail? <==> Renewed(old(user.PlanState()), planId, months, now).Err?
    ensures r.Fail? ==> r.error == Renewed(old(user.PlanState()), planId, months, now).error
    ensures r.Fail? ==> user.PlanState() == old(user.PlanState())
    ensures r.Pass? ==> user.PlanState() == Renewed(old(user.PlanState()), planId, months, now).value
    ensures user.ProfileState() == old(user.ProfileState())
  {
    var before := user.PlanState();
    var plan := PlanCatalog.GetPlan(Some(planId));
    if !plan.isSellable {
      return Fail(HttpError(400, "plan_not_sellable"));
    }
    var startAt := RenewalStart(before, now);
    PlanCatalog.NormalizeCanonical(plan.id);
    var expiresAt := PlanCatalog.CalcPlanExpiry(startAt, Some(months), plan.id);
    var f := before;
    if before.plan == "pro" || before.plan == "don" {
      f := f.(lastPaidPlan := Some(before.plan), lastPaidExpiresAt := before.expiresAt);
    }
    f := f.(plan := plan.id, status := "active", startedAt := Some(startAt), expiresAt := expiresAt);
    assert Renewed(before, planId, months, now) == Ok(f);
    user.SetPlanState(f);
    return Pass;
  }

  // ---------------------------------------------------------------
  // The validation shared by both endpoints
  // ---------------------------------------------------------------

  /** PaymentProcessRequest */
  datatype PaymentRequest = PaymentRequest(
    username: string,
    plan: string,
    months: int,
    email: Option<string>,
    paymentId: Option<string>)

  /** The normalised request both endpoints go on with. */
  datatype Validated = Validated(username: string, planId: string, months: int)

  /** `payload.months or 1`: zero means one month; negative counts are kept (and then
      refused). */
  function RequestMonths(months: int): (m: int)
    ensures months != 0 ==> m == months
    ensures months == 0 ==> m == 1
  {
    if months == 0 then 1 else months
  }

  /** The guard chain, in order: an empty trimmed username (400), months outside 1..24
      (400), a plan the catalog normalises to free (400). */
  function Validate(req: PaymentRequest): (r: Result<Validated>)
    ensures r.Ok? <==> (BlackLinks.UsernameKey(req.username) != [] && 1 <= RequestMonths(req.months) <= 24 &&
      PlanCatalog.NormalizePlan(Some(req.plan)) != PlanCatalog.FREE)
    ensures BlackLinks.UsernameKey(req.username) == [] ==> r == Err(HttpError(400, "username_required"))
    ensures BlackLinks.UsernameKey(req.username) != [] && !(1 <= RequestMonths(req.months) <= 24) ==>
      r == Err(HttpError(400, "invalid_months"))
    ensures (BlackLinks.UsernameKey(req.username) != [] && 1 <= RequestMonths(req.months) <= 24 &&
      PlanCatalog.NormalizePlan(Some(req.plan)) == PlanCatalog.FREE) ==> r == Err(HttpError(400, "plan_not_sellable"))
    ensures r.Ok? ==> r.value.username == BlackLinks.UsernameKey(req.username)
    ensures r.Ok? ==> 1 <= r.value.months <= 24 && PlanCatalog.IsPlanId(r.value.planId) && r.value.planId != PlanCatalog.FREE
    ensures r.Ok? ==> r.value.planId == PlanCatalog.NormalizePlan(Some(req.plan))
  {
    var username := Lower(Strip(req.username));
    StripLower(req.username);
    var planId := PlanCatalog.NormalizePlan(Some(req.plan));
    var months := RequestMonths(req.months);
    PlanCatalog.NormalizeCanonical(planId);
    if username == [] then Err(HttpError(400, "username_required"))
    else if months < 1 || months > 24 then Err(HttpError(400, "invalid_months"))
    else if planId == PlanCatalog.FREE then Err(HttpError(400, "plan_not_sellable"))
    else Ok(Validated(username, planId, months))
  }

  // ---------------------------------------------------------------
  // The external reference
  // ---------------------------------------------------------------

  /** f"{username}:{plan_id}:{months}" */
  function Reference(username: string, planId: string, months: nat): (r: string)
    ensures |r| == |username| + |planId| + 2 + |Decimal(months)|
    ensures r[..|username|] == username && r[|username|] == ':'
    ensures r[|username| + 1..|username| + 1 + |planId|] == planId && r[|username| + 1 + |planId|] == ':'
    ensures forall k :: |username| + |planId| + 2 <= k < |r| ==> IsDigit(r[k])
  {
    username + ":" + planId + ":" + Decimal(months)
  }

  datatype RefParts = RefParts(username: string, planId: string, months: nat)

  /** Reading a reference back, splitting at its last two colons (a username may itself
      contain colons; a plan id and a month count cannot). */
  function ParseReference(s: string): Option<RefParts> {
    if ':' !in s then None
    else
      var i := LastIndexOf(s, ':');
      var rest := s[..i];
      if ':' !in rest then None
      else
        var j := LastIndexOf(rest, ':');
        match ParseDecimal(s[i + 1..])
        case None => None
        case Some(m) => Some(RefParts(rest[..j], rest[j + 1..], m))
  }

  /** A reference reads back as the triple it was built from. */
  lemma {:induction false} ReferenceRoundTrip(username: string, planId: string, months: nat)
    requires ':' !in planId
    ensures ParseReference(Reference(username, planId, months)) == Some(RefParts(username, planId, months))
  {
    var d := Decimal(months);
    assert ':' !in d by {
      forall k | 0 <= k < |d| ensures d[k] != ':' {
        assert IsDigit(d[k]);
      }
    }
    var rest := username + ":" + planId;
    var s := Reference(username, planId, months);
    assert s == rest + [':'] + d;
    LastIndexOfJoin(rest, ':', d);
    assert s[..|rest|] == rest;
    assert s[|rest| + 1..] == d;
    assert rest == username + [':'] + planId;
    LastIndexOfJoin(username, ':', planId);
    assert rest[..|username|] == username;
    assert rest[|username| + 1..] == planId;
    DecimalRoundTrip(months);
  }

  /** Distinct (username, plan, months) triples have distinct references, so a
      reference matches exactly one purchase. */
  lemma ReferenceInjective(u1: string, p1: string, m1: nat, u2: string, p2: string, m2: nat)
    requires ':' !in p1 && ':' !in p2
    requires Reference(u1, p1, m1) == Reference(u2, p2, m2)
    ensures u1 == u2 && p1 == p2 && m1 == m2
  {
    ReferenceRoundTrip(u1, p1, m1);
    ReferenceRoundTrip(u2, p2, m2);
  }

  /** Catalog ids hold no colon. */
  lemma PlanIdsColonFree(plan: Option<string>)
    ensures ':' !in PlanCatalog.NormalizePlan(plan)
  {
    var id := PlanCatalog.NormalizePlan(plan);
    assert id == "free" || id == "pro" || id == "don";
  }

  // ---------------------------------------------------------------
  // create_checkout_preference
  // ---------------------------------------------------------------

  /** The user columns the checkout reads. */
  datatype Account = Account(username: string, email: Option<string>)

  /** The preference the endpoint builds (amount in cents for the whole purchase). */
  datatype CheckoutReply = CheckoutReply(
    title: string,
    totalCents: int,
    payerEmail: string,
    externalReference: string,
    notificationUrl: string)

  /** `payload.email or user.email or "cliente@blacklink.app"` */
  function PayerEmail(requested: Option<string>, stored: Option<string>): (e: string)
    ensures e != []
    ensures Truthy(requested) ==> e == requested.value
    ensures !Truthy(requested) && Truthy(stored) ==> e == stored.value
    ensures !Truthy(requested) && !Truthy(stored) ==> e == "cliente@blacklink.app"
  {
    if Truthy(requested) then requested.value
    else if Truthy(stored) then stored.value
    else "cliente@blacklink.app"
  }

  /** The decision chain of create_checkout_preference after validation, given the
      account found under the normalised username (None when there is none), the
      token and webhook URL settings and the status the provider answered with. In
      order: 404, 500 without a token, 500 without a webhook URL, 500 when the
      provider's status is neither 200 nor 201. */
  function Checkout(v: Validated, email: Option<string>, account: Option<Account>, accessToken: Option<string>,
                    webhookUrl: Option<string>, providerStatus: int): (r: Result<CheckoutReply>)
    requires PlanCatalog.IsPlanId(v.planId) && v.planId != PlanCatalog.FREE && v.months >= 1
    ensures account.None? ==> r == Err(HttpError(404, "user_not_found"))
    ensures account.Some? && !Truthy(accessToken) ==> r == Err(HttpError(500, "mp_not_configured"))
    ensures account.Some? && Truthy(accessToken) && !Truthy(webhookUrl) ==> r == Err(HttpError(500, "webhook_url_missing"))
    ensures account.Some? && Truthy(accessToken) && Truthy(webhookUrl) && providerStatus != 200 && providerStatus != 201 ==>
      r == Err(HttpError(500, "preference_failed"))
    ensures r.Ok? <==> (account.Some? && Truthy(accessToken) && Truthy(webhookUrl) &&
      (providerStatus == 200 || providerStatus == 201))
    ensures r.Ok? ==> r.value.externalReference == Reference(account.value.username, v.planId, v.months)
    ensures r.Ok? ==> r.value.totalCents == PlanCatalog.Entry(v.planId).priceCents * v.months >= 1990
    ensures r.Ok? ==> r.value.payerEmail == PayerEmail(email, account.value.email)
    ensures r.Ok? ==> r.value.notificationUrl == webhookUrl.value
  {
    if account.None? then Err(HttpError(404, "user_not_found"))
    else if !Truthy(accessToken) then Err(HttpError(500, "mp_not_configured"))
    else if !Truthy(webhookUrl) then Err(HttpError(500, "webhook_url_missing"))
    else
      var plan := PlanCatalog.Entry(v.planId);
      var reply := CheckoutReply(
        "Plano " + plan.name + " — " + Decimal(v.months) + " mês(es)",
        plan.priceCents * v.months,
        PayerEmail(email, account.value.email),
        Reference(account.value.username, plan.id, v.months),
        webhookUrl.value);
      if providerStatus != 200 && providerStatus != 201 then Err(HttpError(500, "preference_failed"))
      else Ok(reply)
  }

  /** create_checkout_preference: the validation chain, then an exact lookup of the
      normalised username (no sync) and the decision chain; nothing is stored. */
  method CreateCheckoutPreference(users: UserTable, settings: Config.Settings, req: PaymentRequest, providerStatus: int)
    returns (r: Result<CheckoutReply>, ghost user: BlackLinkUser?)
    requires users.Valid()
    ensures Validate(req).Err? ==> r == Err(Validate(req).error) && user == null
    ensures Validate(req).Ok? ==> (user == null <==> !users.HasUsername(Validate(req).value.username))
    ensures user != null ==> user in users.rows && user.username == Validate(req).value.username
    ensures Validate(req).Ok? ==>
      r == Checkout(Validate(req).value, req.email, if user == null then None else Some(Account(user.username, user.email)),
                    settings.mpAccessToken, settings.mpWebhookUrl, providerStatus)
  {
    var validated := Validate(req);
    if validated.Err? {
      return Err(validated.error), null;
    }
    var v := validated.value;
    var u := users.FindByUsername(v.username);
    var account := if u == null then None else Some(Account(u.username, u.email));
    r := Checkout(v, req.email, account, settings.mpAccessToken, settings.mpWebhookUrl, providerStatus);
    return r, u;
  }

  // ---------------------------------------------------------------
  // process_payment
  // ---------------------------------------------------------------

  /** What the provider answered for the payment id: the HTTP status of the lookup and
      the payment's status and external reference (None where absent). */
  datatype ProviderPayment = ProviderPayment(httpStatus: int, status: Option<string>, externalReference: Option<string>)

  /** The production-only checks, in order: a payment id is required (400); a
      configured secret must equal the header (403); the provider must know the payment
      (400), report it approved (400) and carry exactly the expected reference (400). */
  function ProductionCheck(paymentId: Option<string>, secret: Option<string>, header: Option<string>,
                           provider: ProviderPayment, expected: string): (r: Outcome)
    ensures r.Pass? <==> (Truthy(paymentId) && (!Truthy(secret) || header == secret) &&
      provider.httpStatus == 200 && provider.status == Some("approved") && provider.externalReference == Some(expected))
    ensures !Truthy(paymentId) ==> r == Fail(HttpError(400, "payment_id_required"))
    ensures Truthy(paymentId) && Truthy(secret) && header != secret ==> r == Fail(HttpError(403, "unauthorized"))
    ensures r.Fail? ==> r.error.status == 400 || r.error.status == 403
  {
    if !Truthy(paymentId) then Fail(HttpError(400, "payment_id_required"))
    else if Truthy(secret) && header != secret then Fail(HttpError(403, "unauthorized"))
    else if provider.httpStatus != 200 then Fail(HttpError(400, "payment_not_found"))
    else if provider.status != Some("approved") then Fail(HttpError(400, "payment_not_approved"))
    else if provider.externalReference != Some(expected) then Fail(HttpError(400, "invalid_reference"))
    else Pass
  }

  /** A provider answer carrying the reference of any other purchase is refused. */
  lemma ForeignReferenceRefused(paymentId: Option<string>, secret: Option<string>, header: Option<string>,
                                provider: ProviderPayment, u1: string, p1: string, m1: nat,
                                u2: string, p2: string, m2: nat)
    requires ':' !in p1 && ':' !in p2
    requires (u1, p1, m1) != (u2, p2, m2)
    requires provider.externalReference == Some(Reference(u2, p2, m2))
    ensures ProductionCheck(paymentId, secret, header, provider, Reference(u1, p1, m1)).Fail?
  {
    if Reference(u1, p1, m1) == Reference(u2, p2, m2) {
      ReferenceInjective(u1, p1, m1, u2, p2, m2);
    }
  }

  /** PaymentProcessResponse */
  datatype ProcessReply = ProcessReply(
    status: string,
    message: string,
    username: string,
    plan: string,
    planStatus: string,
    expiresAt: Option<int>)

  /** The part of process_payment after the user is found: the production checks
      against the reference of this very purchase (only when MP_ENV is production),
      then the stacking renewal and an "approved" reply echoing the new columns. */
  method ConfirmAndApply(user: BlackLinkUser, settings: Config.Settings, req: PaymentRequest, v: Validated,
                         header: Option<string>, provider: ProviderPayment, now: int)
    returns (r: Result<ProcessReply>)
    requires PlanCatalog.NormalizePlan(Some(v.planId)) == v.planId && v.planId != PlanCatalog.FREE
    requires 1 <= v.months
    modifies user
    ensures settings.mpEnv == "production" ==>
      (r.Ok? <==> ProductionCheck(req.paymentId, settings.mpWebhookSecret, header, provider,
                                  Reference(user.username, v.planId, v.months)).Pass?)
    ensures settings.mpEnv != "production" ==> r.Ok?
    ensures r.Err? ==> unchanged(user)
    ensures r.Ok? ==> user.PlanState() == Renewed(old(user.PlanState()), v.planId, v.months, now).value
    ensures user.ProfileState() == old(user.ProfileState())
    ensures r.Ok? ==> r.value == ProcessReply("approved", "Plano ativado com sucesso", user.username,
                                              user.plan, user.planStatus, user.planExpiresAt)
  {
    if settings.mpEnv == "production" {
      var check := ProductionCheck(req.paymentId, settings.mpWebhookSecret, header, provider,
                                   Reference(user.username, v.planId, v.months));
      if check.Fail? {
        return Err(check.error);
      }
    }
    var applied := ApplyPlanUpgrade(user, v.planId, v.months, now);
    assert applied.Pass?;
    return Ok(ProcessReply("approved", "Plano ativado com sucesso", user.username, user.plan, user.planStatus,
                           user.planExpiresAt));
  }

  /** The part of process_payment after validation: 404 for an unknown normalised
      username (no sync first), then the confirmation and the renewal. */
  method ProcessValidated(users: UserTable, settings: Config.Settings, req: PaymentRequest, v: Validated,
                          header: Option<string>, provider: ProviderPayment, now: int)
    returns (r: Result<ProcessReply>, ghost user: BlackLinkUser?)
    requires users.Valid()
    requires PlanCatalog.IsPlanId(v.planId) && v.planId != PlanCatalog.FREE && 1 <= v.months
    modifies users.rows
    ensures user == null <==> !users.HasUsername(v.username)
    ensures user == null ==> r == Err(HttpError(404, "user_not_found"))
    ensures user != null ==> user in users.rows && user.username == v.username
    ensures user != null && settings.mpEnv == "production" ==>
      (r.Ok? <==> ProductionCheck(req.paymentId, settings.mpWebhookSecret, header, provider,
                                  Reference(user.username, v.planId, v.months)).Pass?)
    ensures user != null && settings.mpEnv != "production" ==> r.Ok?
    ensures r.Err? ==> forall w :: w in users.rows ==> unchanged(w)
    ensures r.Ok? ==> user != null && forall w :: w in users.rows && w != user ==> unchanged(w)
    ensures r.Ok? ==> Renewed(old(user.PlanState()), v.planId, v.months, now) == Ok(user.PlanState())
    ensures r.Ok? ==> user.ProfileState() == old(user.ProfileState())
  {
    var u := users.FindByUsername(v.username);
    if u == null {
      return Err(HttpError(404, "user_not_found")), null;
    }
    PlanCatalog.NormalizeCanonical(v.planId);
    r := ConfirmAndApply(u, settings, req, v, header, provider, now);
    return r, u;
  }

  /** process_payment: the validation chain, then the lookup, the confirmation and the
      renewal. `checked` is the outcome of the validation chain. */
  method ProcessPayment(users: UserTable, settings: Config.Settings, req: PaymentRequest, header: Option<string>,
                        provider: ProviderPayment, now: int)
    returns (r: Result<ProcessReply>, ghost checked: Result<Validated>, ghost user: BlackLinkUser?)
    requires users.Valid()
    modifies users.rows
    ensures checked == Validate(req)
    ensures checked.Err? ==> r == Err(checked.error) && user == null
    ensures checked.Ok? ==> (user == null <==> !users.HasUsername(checked.value.username))
    ensures checked.Ok? && user == null ==> r == Err(HttpError(404, "user_not_found"))
    ensures user != null ==> checked.Ok? && user in users.rows && user.username == checked.value.username
    ensures user != null && settings.mpEnv == "production" ==>
      (r.Ok? <==> ProductionCheck(req.paymentId, settings.mpWebhookSecret, header, provider,
                                  Reference(user.username, checked.value.planId, checked.value.months)).Pass?)
    ensures user != null && settings.mpEnv != "production" ==> r.Ok?
    ensures r.Err? ==> forall w :: w in users.rows ==> unchanged(w)
    ensures r.Ok? ==> user != null && forall w :: w in users.rows && w != user ==> unchanged(w)
    ensures r.Ok? ==> Renewed(old(user.PlanState()), checked.value.planId, checked.value.months, now) == Ok(user.PlanState())
    ensures r.Ok? ==> user.ProfileState() == old(user.ProfileState())
  {
    var validated := Validate(req);
    checked := validated;
    if validated.Err? {
      return Err(validated.error), checked, null;
    }
    r, user := ProcessValidated(users, settings, req, validated.value, header, provider, now);
  }
}
