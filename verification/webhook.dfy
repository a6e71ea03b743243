/** The Mercado Pago webhook: a placeholder signature check, a filter on the event
    type, and the stacking renewal granted to the user named in the payload. The
    provider lookup is mocked in the handler: every payment event counts as approved. */
module Webhook {
  import opened Wrappers
  import opened Models
  import PlanCatalog
  import Payment

  /** The parts of the JSON body the handler reads; None for a key that is absent or
      null. `dataId` is `data.id`, absent as well when `data` itself is. */
  datatype WebhookPayload = WebhookPayload(
    eventType: Option<string>,
    dataId: Option<string>,
    username: Option<string>,
    plan: Option<string>,
    months: Option<int>,
    email: Option<string>)

  datatype WebhookReply =
    | Ignored(reason: string)
    | Processed(username: string, plan: string, expiresAt: Option<int>)

  /** verify_signature: a placeholder that accepts every delivery, so the handler's
      401 branch is never taken. */
  function VerifySignature(headers: map<string, string>, body: WebhookPayload): (r: bool)
    ensures r
  {
    true
  }

  /** `int(metadata.get("months") or 1)`: absent or zero means one month; any other
      count, negative ones included, is passed on (and floored to one by the expiry
      computation). */
  function WebhookMonths(months: Option<int>): (m: int)
    ensures months.None? || months.value == 0 ==> m == 1
    ensures months.Some? && months.value != 0 ==> m == months.value
  {
    if months.None? || months.value == 0 then 1 else months.value
  }

  /** The profile after the handler: a truthy payload email replaces the stored one,
      anything else keeps it. */
  function WithEmail(p: Profile, email: Option<string>): (r: Profile)
    ensures r.displayName == p.displayName && r.bio == p.bio
    ensures Truthy(email) ==> r.email == email
    ensures !Truthy(email) ==> r == p
  {
    if Truthy(email) then p.(email := email) else p
  }

  /** The guard chain before the lookup, in order: a non-payment event is ignored, a
      missing payment id is 400, a missing username or a plan the catalog normalises to
      free is 400. Ok carries the username and the normalised plan id. */
  function Admit(payload: WebhookPayload): (r: Result<Option<(string, string)>>)
    ensures payload.eventType != Some("payment") ==> r == Ok(None)
    ensures payload.eventType == Some("payment") && !Truthy(payload.dataId) ==>
      r == Err(HttpError(400, "payment_id_missing"))
    ensures r == Ok(None) <==> payload.eventType != Some("payment")
    ensures (r.Ok? && r.value.Some?) <==> (payload.eventType == Some("payment") && Truthy(payload.dataId) &&
      Truthy(payload.username) && PlanCatalog.NormalizePlan(payload.plan) != PlanCatalog.FREE)
    ensures r.Err? ==> r.error.status == 400
    ensures r.Ok? && r.value.Some? ==> (r.value.value.0 == payload.username.value &&
      r.value.value.1 == PlanCatalog.NormalizePlan(payload.plan) && PlanCatalog.IsPlanId(r.value.value.1))
  {
    if payload.eventType != Some("payment") then Ok(None)
    else if !Truthy(payload.dataId) then Err(HttpError(400, "payment_id_missing"))
    else
      var planId := PlanCatalog.NormalizePlan(payload.plan);
      PlanCatalog.NormalizeCanonical(planId);
      if !Truthy(payload.username) || planId == PlanCatalog.FREE then Err(HttpError(400, "invalid_payment_data"))
      else Ok(Some((payload.username.value, planId)))
  }

  /** A redelivered webhook is applied again: the second renewal stacks on the first,
      so the same payment buys its months twice. */
  lemma {:induction false} RedeliveryStacks(f: PlanFields, planId: string, months: int, now: int)
    requires Payment.Renewed(f, planId, months, now).Ok?
    ensures var g := Payment.Renewed(f, planId, months, now).value;
      Payment.Renewed(g, planId, months, now).Ok? &&
      Payment.Renewed(g, planId, months, now).value.expiresAt.value ==
        g.expiresAt.value + PlanCatalog.Days(30 * PlanCatalog.MonthsFloor(Some(months)))
  {
    var g := Payment.Renewed(f, planId, months, now).value;
    PlanCatalog.NormalizeCanonical(PlanCatalog.NormalizePlan(Some(planId)));
    assert Payment.Stacks(g, now);
  }

  /** mercadopago_webhook: the guard chain, an exact lookup of the payload's username
      (no normalisation, no sync, no creation; 404 when absent), the stacking renewal
      for the plan and month count, the email overwrite, and a "processed" reply
      echoing the new columns. */
  method MercadopagoWebhook(users: UserTable, headers: map<string, string>, payload: WebhookPayload, now: int)
    returns (r: Result<WebhookReply>, ghost user: BlackLinkUser?)
    requires users.Valid()
    modifies users.rows
    ensures Admit(payload).Err? ==> r == Err(Admit(payload).error) && user == null
    ensures Admit(payload) == Ok(None) ==> r.Ok? && r.value.Ignored? && user == null
    ensures Admit(payload).Ok? && Admit(payload).value.Some? ==>
      (user == null <==> !users.HasUsername(Admit(payload).value.value.0))
    ensures Admit(payload).Ok? && Admit(payload).value.Some? && user == null ==>
      r == Err(HttpError(404, "user_not_found"))
    ensures user == null ==> forall w :: w in users.rows ==> unchanged(w)
    ensures user != null ==> (Admit(payload).Ok? && Admit(payload).value.Some? &&
      user in users.rows && user.username == Admit(payload).value.value.0)
    ensures user != null ==> forall w :: w in users.rows && w != user ==> unchanged(w)
    ensures user != null ==> (Payment.Renewed(old(user.PlanState()), Admit(payload).value.value.1,
      WebhookMonths(payload.months), now) == Ok(user.PlanState()))
    ensures user != null ==> user.ProfileState() == WithEmail(old(user.ProfileState()), payload.email)
    ensures user != null ==> r == Ok(Processed(user.username, user.plan, user.planExpiresAt))
  {
    if !VerifySignature(headers, payload) {
      return Err(HttpError(401, "invalid_signature")), null;
    }
    var admitted := Admit(payload);
    if admitted.Err? {
      return Err(admitted.error), null;
    }
    if admitted.value.None? {
      return Ok(Ignored("not_a_payment")), null;
    }
    var (username, planId) := admitted.value.value;
    var u := users.FindByUsername(username);
    if u == null {
      return Err(HttpError(404, "user_not_found")), null;
    }
    PlanCatalog.NormalizeCanonical(planId);
    var applied := Payment.ApplyPlanUpgrade(u, planId, WebhookMonths(payload.months), now);
    assert applied.Pass?;
    u.SetProfile(WithEmail(u.ProfileState(), payload.email));
    return Ok(Processed(u.username, u.plan, u.planExpiresAt)), u;
  }
}
