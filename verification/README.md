# BlackLink subscription-plan engine in Dafny

BlackLink is a link-in-bio and affiliate-shop service. Each user has a shop of
products and is on one of three plans: `free`, `pro` or `don`. This project
models the plan engine at its core, with the routers and services around it,
and proves properties of the model. The parts modelled:

- **The plan catalog** (`PlanCatalog`). A fixed table of the three plans with
  prices in cents and 30-day periods. It provides normalisation of any input to
  a plan id, lookup, ordered listing, per-plan limits and the expiry
  arithmetic.
- **The lifecycle columns of a user.** These are plan, status, start, expiry,
  last paid plan and last paid expiry. Four different rules change them, each
  modelled separately:
  - the lazy expiry of the plan manager (`PlanManager.Synced`,
    `PlanManager.SyncUserPlan`);
  - the plan manager's non-stacking paid application
    (`PlanManager.PaidApplied`, `PlanManager.ApplyPaidPlan`);
  - the stacking renewal of the payment router, which the webhook copies
    line for line (`Payment.Renewed`, `Payment.ApplyPlanUpgrade`);
  - the direct upgrade of the plan router, which sets no expiry
    (`PlanRouter.UpgradePlan`).

  Each rule is a value-level function from the old columns to the new ones,
  and a method on the `Models.BlackLinkUser` class updates the object in place
  to match it. Lemmas relate the rules:
  - a renewal or a paid application survives every sync up to its expiry;
  - a sync is idempotent;
  - without a running period, the stacking and non-stacking rules agree on
    plan and dates;
  - with a running period, stacking ends strictly later.
- **The payment decision chains** (`Payment`, `Webhook`). These cover request
  validation, the `username:plan:months` external reference with its
  round-trip and injectivity, the checkout preference and the production-only
  confirmation. The Mercado Pago provider's answers are inputs. The webhook
  covers its placeholder signature check, the event filter and the guard
  chain.
- **Entitlements** over three distinct limit tables, kept distinct:
  - the catalog's limits: pro 30, don 200;
  - the plan manager's policies: pro 20, don unlimited;
  - the settings module's legacy `PLAN_LIMITS`: pro 20, don unlimited.

  The dependency guards read the legacy table and the product router reads the
  policies. A lemma shows the two refuse exactly the same requests.
- **In-memory tables** for users and products. These are classes holding a
  sequence of row objects, with unique usernames and increasing ids. On them
  run the user router (create, get with sync, partial update, list, delete with
  the products cascade) and the product router (list newest first, create
  under the plan ceiling, partial update, delete). They also serve the admin
  bootstrap endpoint, the catalog's get-or-create shop owner and product
  detail page, and one pass of the link-guardian sweep.
- **String helpers.**
  - `_join_url` with the `Settings` post-initialisation.
  - A hand-written scanner for the badge-price regular expression
    `(\d{1,3}(?:[.\s]\d{3})*(?:[.,]\d{2})|\d+(?:[.,]\d{2})?)`. It follows the
    leftmost match, trying the alternatives and quantifiers in backtracking
    order.
  - The short-link slug of the standalone engine.

Instants are integer UTC seconds and a day is 86400 of them. Money is in
integer cents. Python's `str.strip()`, `str.lower()`, truthiness and `or` are
written out in `Text` and `Wrappers`.

Two behaviours of the source that the model exposes rather than corrects:

- `_join_url` keeps "http://" or "https://" only when the base names a host.
  For the bare base "http://" the trailing-slash removal also eats the
  scheme's slashes, so "http://" joined with "p" gives "http:/p"
  (`Config.JoinUrlBareSchemeDropsSlash`).
- The webhook has no record of processed payments. A redelivered notification
  is applied again and stacks a second period (`Webhook.RedeliveryStacks`).

## Model

| member | source | states |
|---|---|---|
| PlanCatalog.Entry | backend/app/services/plan_catalog.py:45-120 | the catalog entry of a plan id carries that id |
| PlanCatalog.CatalogKeyed | backend/app/services/plan_catalog.py:45-120 | the catalog holds three plans under distinct ids, each the entry of its own id, and a plan is sellable exactly when its price is positive |
| PlanCatalog.NormalizePlan | backend/app/services/plan_catalog.py:126-130 | the result is always free, pro or don; None or "" gives free; a stripped, lower-cased input naming a plan gives that plan; any non-free result is the stripped, lower-cased input |
| PlanCatalog.CanonicalIds | backend/app/services/plan_catalog.py:11-15 | the three plan ids are already stripped and lower-cased |
| PlanCatalog.NormalizeCanonical | backend/app/services/plan_catalog.py:126-130 | each plan id normalises to itself |
| PlanCatalog.NormalizeIdempotent | backend/app/services/plan_catalog.py:126-130 | normalising a normalised plan changes nothing |
| PlanCatalog.GetPlan | backend/app/services/plan_catalog.py:133-135 | the entry's id is the normalised input, for every input; only free is not sellable; free costs 0 with duration 0, pro 1990 cents and don 4990 cents with 30 days each |
| PlanCatalog.ListPlans | backend/app/services/plan_catalog.py:138-147 | exactly the catalog plans kept by the two switches (free dropped unless include_free, only sellable ones when sellable_only), in the display order free, pro, don |
| PlanCatalog.MonthsFloor | backend/app/services/plan_catalog.py:166-168 | a month count below 1 or absent counts as 1, and any other count is kept |
| PlanCatalog.CalcPlanExpiry | backend/app/services/plan_catalog.py:155-175 | None exactly for an id normalising to free; otherwise start plus the plan's duration times the floored months, in days, so at least 30 days after start |
| PlanCatalog.LimitsFor | backend/app/services/plan_catalog.py:178-179 | the limits of the plan's catalog entry |
| PlanCatalog.IsMlIngestEnabled | backend/app/services/plan_catalog.py:182-183 | true exactly for inputs that do not normalise to free |
| PlanCatalog.MaxProducts | backend/app/services/plan_catalog.py:186-187 | free (and every unknown input) 3, pro 30, don 200 |
| PlanManager.NormalizePlan | backend/app/services/plan_manager.py:30-32 | the result is always a key of PLAN_POLICIES, and free for a missing input |
| PlanManager.NormalizeAgreesWithCatalog | backend/app/services/plan_manager.py:30-32 | the plan manager's normalisation equals the catalog's on every input |
| PlanManager.NormalizeKey | backend/app/services/plan_manager.py:30-32 | a policy key normalises to itself |
| PlanManager.Policies | backend/app/services/plan_manager.py:19-23 | free 3 products, pro 20, don unlimited; ingestion for every plan but free; 0 default days for free, 30 otherwise |
| PlanManager.PolicyOfKey | backend/app/services/plan_manager.py:19-23 | the policy of a key is that key's row of PLAN_POLICIES |
| PlanManager.GetPolicy | backend/app/services/plan_manager.py:35-36 | the row of the normalised plan: unlimited products exactly for don, ingestion exactly for pro and don |
| PlanManager.IsExpired | backend/app/services/plan_manager.py:45-49 | no expiry never expires; otherwise expired iff the expiry is strictly before now, so an equal instant is not expired |
| PlanManager.Synced | backend/app/services/plan_manager.py:52-86 | afterwards the expiry is absent or not before now. On expiry: free, expired, no dates. Otherwise dates and history are kept. A non-free result is the old plan, paid and active. The status is never empty. Not expired: a pro or don plan stays as it is and becomes active; any other plan becomes free, keeping a non-empty status and otherwise active |
| PlanManager.SyncExpiryHistory | backend/app/services/plan_manager.py:61-64 | on expiry the last paid plan keeps a truthy earlier value, else becomes the normalised current plan; the last paid expiry keeps an earlier value, else becomes the old expiry |
| PlanManager.SyncIdempotent | backend/app/services/plan_manager.py:52-86 | a second sync at the same instant changes nothing |
| PlanManager.ExpiredProDowngrades | backend/tests/test_plan_lifecycle.py:10-32 | a pro user whose expiry is two days past becomes free and expired with no dates, remembering pro and that expiry |
| PlanManager.SyncUserPlan | backend/app/services/plan_manager.py:52-86 | the user's lifecycle columns become Synced of the old ones; the profile columns are untouched |
| PlanManager.PaidMonths | backend/app/services/plan_manager.py:98 | `max(int(months or 1), 1)` is the catalog's month floor |
| PlanManager.PaidTarget | backend/app/services/plan_manager.py:94-96 | the granted plan is always pro or don: the normalised input, with free and unknown inputs made pro |
| PlanManager.PaidApplied | backend/app/services/plan_manager.py:89-112 | the target plan, active, started now, expiring now plus 30 days per floored month (strictly after now), with the history set to the new plan and expiry |
| PlanManager.PaidAppliedIgnoresHistory | backend/app/services/plan_manager.py:100-107 | no stacking: the result does not depend on the previous columns |
| PlanManager.PaidAppliedSurvivesSync | backend/app/services/plan_manager.py:89-112 | a paid application is left unchanged by every sync from now up to its expiry instant |
| PlanManager.ApplyPaidPlan | backend/app/services/plan_manager.py:89-112 | the user's lifecycle columns become PaidApplied of the old ones; the profile is untouched |
| Payment.Stacks | backend/app/routers/payment.py:51-56 | a renewal stacks exactly when the stored plan is pro or don, active, and has an expiry strictly after now |
| Payment.RenewalStart | backend/app/routers/payment.py:51-60 | the new period starts at or after now, and strictly after now iff the stored plan is pro or don, active, with an expiry after now |
| Payment.Renewed | backend/app/routers/payment.py:29-75 | 400 iff the plan normalises to free; otherwise the catalog plan, active, from the renewal start for 30 days per floored month (strictly after now), with the old plan and expiry as history exactly when the old plan was paid, else the history untouched |
| Payment.StackingKeepsRemainingTime | backend/app/routers/payment.py:51-62 | renewing a running period adds the months to the old expiry |
| Payment.RenewedSurvivesSync | backend/app/routers/payment.py:62-73 | a renewal is left unchanged by every sync up to its expiry instant |
| Payment.NonStackingAgreesWithPaidApplied | backend/app/routers/payment.py:51-73 | without a running period the renewal sets the same plan, status, start and expiry as the plan manager's apply_paid_plan |
| Payment.StackingOutlastsPaidApplied | backend/app/routers/payment.py:51-62 | with a running period the renewal expires strictly later than apply_paid_plan would |
| Payment.RenewalAfterExpiry | backend/app/routers/payment.py:51-67 | after a sync has downgraded an expired user, a renewal starts now and keeps the history the sync recorded |
| Payment.ApplyPlanUpgrade | backend/app/routers/payment.py:29-75 | fails exactly as Renewed does, leaving the user unchanged; otherwise the lifecycle columns become Renewed of the old ones; the profile is untouched |
| Payment.RequestMonths | backend/app/routers/payment.py:98 | `months or 1`: zero means one, any other count is kept |
| Payment.Validate | backend/app/routers/payment.py:96-107 | passes iff the trimmed lower-cased username is non-empty, the months lie in 1..24 and the plan does not normalise to free; the 400 of each guard in order; the passed values are the normalised ones |
| Payment.Reference | backend/app/routers/payment.py:154 | the username, a colon, the plan id, a colon and the months in decimal digits, each part in its place |
| Payment.ReferenceRoundTrip | backend/app/routers/payment.py:154 | a `username:plan:months` reference reads back as its triple |
| Payment.ReferenceInjective | backend/app/routers/payment.py:265-270 | distinct purchases have distinct references |
| Payment.PlanIdsColonFree | backend/app/services/plan_catalog.py:126-130 | no normalised plan id contains a colon |
| Payment.PayerEmail | backend/app/routers/payment.py:150-152 | the payload email when truthy, else the stored email when truthy, else the fixed fallback; never empty |
| Payment.Checkout | backend/app/routers/payment.py:109-181 | 404 without the user, 500 without a token, 500 without a webhook URL, 500 unless the provider answers 200 or 201; on success the reference of this purchase, the price times the months (at least 1990 cents), the payer email and the webhook URL |
| Payment.CreateCheckoutPreference | backend/app/routers/payment.py:82-181 | the validation errors first, then an exact lookup of the normalised username and the Checkout decision on what it found |
| Payment.ProductionCheck | backend/app/routers/payment.py:237-270 | passes iff a payment id is given, a configured secret equals the header, the provider knows the payment, reports it approved and carries exactly the expected reference; 400 or 403 in that order otherwise |
| Payment.ForeignReferenceRefused | backend/app/routers/payment.py:265-270 | a provider answer with the reference of any other purchase is refused |
| Payment.ConfirmAndApply | backend/app/routers/payment.py:237-292 | in production succeeds iff the production checks pass on this purchase's reference, elsewhere always; on success the columns are Renewed and the reply echoes them; on failure the user is untouched |
| Payment.ProcessValidated | backend/app/routers/payment.py:220-292 | 404 iff no user has the username; otherwise as ConfirmAndApply on that user, no other user changing |
| Payment.ProcessPayment | backend/app/routers/payment.py:188-292 | the validation chain, the lookup, the production checks and the renewal, in that order, with no user changed on any failure |
| Webhook.VerifySignature | backend/app/routers/webhook.py:25-32 | every delivery is accepted |
| Webhook.WebhookMonths | backend/app/routers/webhook.py:134 | absent or zero months mean one; any other count is passed on, with no upper bound |
| Webhook.WithEmail | backend/app/routers/webhook.py:154-155 | a truthy payload email overwrites the stored one; anything else keeps the profile |
| Webhook.Admit | backend/app/routers/webhook.py:105-137 | ignored iff the event type is not payment; 400 without a payment id; admitted iff the username is truthy and the plan does not normalise to free, carrying the username and the normalised plan |
| Webhook.RedeliveryStacks | backend/app/routers/webhook.py:38-72 | applying the same notification twice stacks a second period on the first |
| Webhook.MercadopagoWebhook | backend/app/routers/webhook.py:99-165 | the Admit outcome; 404 and no user created for an unknown exact username; otherwise the stacking renewal of that user only, the email overwrite and a processed reply with the new plan and expiry |
| Dependencies.PlanKey | backend/app/dependencies.py:12 | a missing or empty plan is the key free; otherwise the trimmed, lower-cased plan |
| Dependencies.GetPlanLimits | backend/app/dependencies.py:7-13 | the PLAN_LIMITS row of the plan manager's normalisation, for every input (lower-case-then-strip selects the same row as strip-then-lower-case) |
| Dependencies.CheckProductLimit | backend/app/dependencies.py:16-33 | 403 iff the row has a maximum and the count reaches it; never for an unlimited plan |
| Dependencies.ProductLimitByPlan | backend/app/dependencies.py:16-33 | free refuses from 3 products, pro from 20, don never |
| Dependencies.RequireAutoIngest | backend/app/dependencies.py:36-45 | 403 exactly for inputs normalising to free |
| Dependencies.RequireFeaturedAllowed | backend/app/dependencies.py:48-57 | 403 exactly for inputs normalising to free |
| Dependencies.LimitsAgreeWithPolicies | backend/app/config.py:22-41 | PLAN_LIMITS and PLAN_POLICIES agree on the product ceiling and on ingestion for every input |
| Config.PlanLimits | backend/app/config.py:22-41 | unlimited products exactly for don; ingestion, guardian and featured flags all on exactly for pro and don |
| Config.NormalizedBase | backend/app/config.py:48-55 | always starts with http:// or https://; a blank base gives http://localhost; a trimmed base with a scheme is kept; any other trimmed base gets http:// in front |
| Config.NormalizedPath | backend/app/config.py:49-58 | always starts with "/"; the trimmed path when it already starts with "/", else "/" followed by it |
| Config.JoinUrl | backend/app/config.py:47-60 | the normalised base with its trailing slashes removed, followed by the normalised path; so it starts with "http:" or "https:" and ends with the normalised path |
| Config.JoinUrlPlainBase | backend/app/config.py:47-60 | a trimmed base with a scheme and no trailing slash is kept whole in front of the normalised path |
| Config.JoinUrlKeepsScheme | backend/app/config.py:54-60 | when the base names a host, the result keeps the full scheme |
| Config.JoinUrlEmptyBase | backend/app/config.py:51-52 | a blank base gives http://localhost followed by the path |
| Config.JoinUrlBareScheme | backend/app/config.py:60 | the bare base "http://" keeps only "http:" before the path |
| Config.JoinUrlBareSchemeDropsSlash | backend/app/config.py:54-60 | so "http://" joined with a relative path does not start with "http://" |
| Config.ResolveUrl | backend/app/config.py:120-138 | an explicit non-empty URL wins, else the joined URL; never empty |
| Config.ResolveUrlStable | backend/app/config.py:120-138 | resolving a resolved URL again changes nothing |
| Config.ProdCheck | backend/app/config.py:141-145 | ready iff not prod, or a token is set and the Mercado Pago environment is production; the token is checked first |
| Config.Settings.constructor | backend/app/config.py:80-114 | the declared defaults |
| Config.Settings.PostInit | backend/app/config.py:119-145 | each of the four URLs becomes its resolved value and is non-empty; the result is ProdCheck of the settings |
| BlackLinks.ParseDt | backend/app/routers/blacklinks.py:27-32 | an instant given as an instant is kept, and an absent one stays absent |
| BlackLinks.UsernameKey | backend/app/routers/blacklinks.py:36 | the trimmed, lower-cased username, never longer than the input |
| BlackLinks.UsernameKeyIdempotent | backend/app/routers/blacklinks.py:36 | a normalised username is its own key |
| BlackLinks.GetUserByUsername | backend/app/routers/blacklinks.py:35-40 | 404 iff no user has the normalised username; otherwise that user, synced, no other row changing |
| BlackLinks.CreateUser | backend/app/routers/blacklinks.py:46-64 | 400 iff the normalised username is taken; otherwise one new row under it with the payload stored verbatim, found again by its own key |
| BlackLinks.PatchedPlan | backend/app/routers/blacklinks.py:75-86 | each of the six lifecycle columns takes the sent value (dates through ParseDt) when sent, and keeps its value when not |
| BlackLinks.PatchedProfile | backend/app/routers/blacklinks.py:85-86 | display name, bio and email each take the sent value when sent, and keep their value when not |
| BlackLinks.PatchNothing | backend/app/routers/blacklinks.py:75-86 | an update that sends nothing changes nothing |
| BlackLinks.PatchIdempotent | backend/app/routers/blacklinks.py:85-86 | sending the same update twice equals sending it once |
| BlackLinks.PatchAfterSync | backend/app/routers/blacklinks.py:72-86 | a sent plan is stored as sent, after the sync and bypassing it |
| BlackLinks.PatchUser | backend/app/routers/blacklinks.py:72-91 | 404 iff unknown; otherwise the synced columns with the sent fields written over them, no other row changing |
| BlackLinks.ListUsers | backend/app/routers/blacklinks.py:94-99 | all rows without a filter; otherwise exactly the rows whose stored plan equals the raw filter; either way in table order |
| BlackLinks.DeleteUser | backend/app/routers/blacklinks.py:102-107 | 404 iff unknown; otherwise exactly that user's row goes, and exactly its products with it; the remaining users' objects are unchanged |
| ProductRouter.EnforceProductLimit | backend/app/routers/product.py:30-39 | 403 iff the policy has a ceiling and the count reaches it; never for don |
| ProductRouter.EnforceAgreesWithDependencies | backend/app/routers/product.py:30-39 | the router's guard and the dependency guard refuse the same requests |
| ProductRouter.FreePlanFourthRefused | backend/tests/test_free_plan_limits.py:16-44 | on free, creation is refused exactly from the fourth product |
| ProductRouter.ListProducts | backend/app/routers/product.py:15-50 | 404 iff unknown; otherwise exactly the owner's products, ids descending; the owner is synced with its profile kept, and every other user is unchanged |
| ProductRouter.AddProduct | backend/app/routers/product.py:56-64 | the user is synced with its profile kept; then 403 iff the synced plan's ceiling is reached, with no product change; otherwise exactly one new product owned by the user, holding the payload |
| ProductRouter.CreateProduct | backend/app/routers/product.py:15-64 | 404 iff unknown; the owner is synced before the ceiling is checked, so an expired paid user is held to free's ceiling; the owner's profile and every other user are unchanged |
| ProductRouter.Patched | backend/app/routers/product.py:71-73 | each of the eleven columns takes the sent value when sent, and keeps its value when not |
| ProductRouter.PatchNothing | backend/app/routers/product.py:71-73 | an update that sends nothing changes nothing |
| ProductRouter.PatchIdempotent | backend/app/routers/product.py:71-73 | sending the same update twice equals sending it once |
| ProductRouter.UpdateProduct | backend/app/routers/product.py:67-78 | 404 iff the id is unknown; otherwise that product with the sent fields written over it, no other product changing |
| ProductRouter.DeleteProduct | backend/app/routers/product.py:81-86 | 404 iff the id is unknown; otherwise exactly that row goes |
| Admin.AdminUsername | backend/app/routers/admin.py:27 | strip-then-lower-case gives the same key as the user router's lower-case-then-strip |
| Admin.AdminPlan | backend/app/routers/admin.py:28 | a missing or empty plan is free; a given plan is its lower-cased self, not trimmed |
| Admin.AdminGuard | backend/app/routers/admin.py:31-49 | passes iff the username is non-empty, the plan is free, pro or don and the username is free; 400, 400, 409 in that order |
| Admin.PaddedPlanRefused | backend/app/routers/admin.py:28-38 | every plan with a blank at its start or end is refused, whatever the username |
| Admin.CreateUserAdmin | backend/app/routers/admin.py:19-69 | succeeds iff the guard passes; then one new row with the key, the email, the lower-cased plan, active, no dates, and a reply echoing them; on refusal the table is unchanged |
| PlanRouter.UpgradeGuard | backend/app/routers/plan.py:41-79 | passes iff the lower-cased plan is pro or don, the user exists, is not on don and not already on the target; 400, 404, 403, 400 in that order |
| PlanRouter.DirectUpgraded | backend/app/routers/plan.py:84-91 | the plan, active, started now, an expiry that never passes, history the plan with no expiry |
| PlanRouter.DirectUpgradeNeverExpires | backend/app/routers/plan.py:84-91 | a directly upgraded user is left unchanged by every later sync |
| PlanRouter.UpgradeNotRepeatable | backend/app/routers/plan.py:62-79 | the same upgrade request is refused once it has succeeded |
| PlanRouter.UpgradeOnlyUpwards | backend/app/routers/plan.py:62-79 | pro may move to don; don may not move to pro (403) |
| PlanRouter.UpgradePlan | backend/app/routers/plan.py:35-96 | exact username lookup; succeeds iff the guard passes; then plan, active, started now, no expiry, history the plan and no expiry; no other user changes |
| LinkGuardian.IsLinkAlive | backend/app/services/link_guardian.py:20-39 | dead for an empty URL; alive without a probe outside Mercado Livre; otherwise dead iff the final answer (GET after a 405 to HEAD) is 404 or 410; a request error counts as alive |
| LinkGuardian.GetOnlyAfter405 | backend/app/services/link_guardian.py:29-31 | the GET answer matters only after a 405 to HEAD |
| LinkGuardian.GuardianEnabledForPlan | backend/app/services/link_guardian.py:42-44 | the guardian runs iff the plan normalises to pro or don, ignoring case and whitespace; never for a missing plan |
| LinkGuardian.GuardianPlans | backend/app/services/link_guardian.py:42-44 | on for pro and don, off for free |
| LinkGuardian.OwnerPlan | backend/app/services/link_guardian.py:66-70 | no plan iff no row has the id |
| LinkGuardian.OwnerPlanFound | backend/app/services/link_guardian.py:66-70 | with distinct ids the lookup returns the plan of the very row carrying the id |
| LinkGuardian.Swept | backend/app/services/link_guardian.py:58-83 | a product changes only by being switched off and unfeatured, and exactly when it is active, its owner exists with the guardian on, and its link is dead |
| LinkGuardian.SweptIdempotent | backend/app/services/link_guardian.py:78-83 | a second pass with the same answers changes nothing |
| LinkGuardian.SweptOnlySwitchesOff | backend/app/services/link_guardian.py:78-83 | a pass never activates or features a product |
| LinkGuardian.CheckProduct | backend/app/services/link_guardian.py:64-83 | one product's columns become Swept of its old columns, its owner's stored plan and its URL's answer |
| LinkGuardian.SweepOnce | backend/app/services/link_guardian.py:58-86 | every product of the table ends as Swept prescribes for it |
| CatalogRouter.GetOrCreateUser | backend/app/routers/catalog.py:24-46 | 400 iff the key is empty; otherwise the user under the key, created free and active with the key as display name and the fixed bio when absent; the table changes only by that creation |
| CatalogRouter.GetOrCreateTwice | backend/app/routers/catalog.py:24-46 | a second visit finds the user the first one returned, and at most one row is created |
| CatalogRouter.MatchEnd | backend/app/routers/catalog.py:59 | a match starting at a digit ends after a digit and consists of digits and separators only |
| CatalogRouter.PriceMatch | backend/app/routers/catalog.py:58-61 | the match starts at the first digit, begins and ends with a digit, and holds only digits and separators |
| CatalogRouter.TryLeadOnDigits | backend/app/routers/catalog.py:59 | on a run of digits the first alternative never matches |
| CatalogRouter.ParsePriceFromBadge | backend/app/routers/catalog.py:53-65 | "" iff the badge is missing or empty or holds no digit once trimmed; otherwise no ' ', starts and ends with a digit, starts with the first digit of the badge |
| CatalogRouter.RemoveSpacesKeepsPriceChars | backend/app/routers/catalog.py:65 | removing blanks from a match leaves only digits and separators |
| CatalogRouter.WholeNumberBadge | backend/app/routers/catalog.py:53-65 | a badge that is a whole number is returned as it is |
| CatalogRouter.SafeImageUrl | backend/app/routers/catalog.py:68-72 | the source image when non-empty, else the fallback icon |
| CatalogRouter.UrlOrEmpty | backend/app/routers/catalog.py:133 | the URL when truthy, else "" |
| CatalogRouter.ProductToViewModel | backend/app/routers/catalog.py:127-134 | id and title as stored, the parsed price, the safe image and the link or "" |
| CatalogRouter.IsLinkAlive | backend/app/routers/catalog.py:75-97 | decides exactly as the guardian's check does on the same URL and answers |
| CatalogRouter.Candidates | backend/app/routers/catalog.py:207-220 | exactly the rows owned by the user, other than the product shown, with a live link |
| CatalogRouter.CandidatesDescending | backend/app/routers/catalog.py:207-221 | filtering keeps decreasing id order |
| CatalogRouter.Others | backend/app/routers/catalog.py:207-221 | at most three of the owner's other live products, newest first |
| CatalogRouter.OthersNewestFirst | backend/app/routers/catalog.py:207-221 | a related product is left out only when three newer ones are shown |
| CatalogRouter.ViewModels | backend/app/routers/catalog.py:217-221 | the view model of each row, in order |
| CatalogRouter.ProductDetail | backend/app/routers/catalog.py:185-229 | the get-or-create owner: on a first visit exactly one new free, active row is appended under the key; 404 iff the product is missing, someone else's or dead; otherwise its view model and up to three others |
| BlackLinkEngine.Slug | system/blacklink_engine.py:14 | same length as the name, no space, each character the lower-cased one or "-" for a space |
| BlackLinkEngine.SlugIdempotent | system/blacklink_engine.py:14 | slugging a slug changes nothing |
| BlackLinkEngine.SlugIgnoresCase | system/blacklink_engine.py:14 | names differing only in letter case share a slug |
| BlackLinkEngine.ShortLink | system/blacklink_engine.py:13-15 | the fixed base followed by the slug |
| BlackLinkEngine.ShortLinkInjectiveOnSlugs | system/blacklink_engine.py:13-15 | two names share a short link iff they share a slug |
| Models.SameUsernameSameRow | backend/app/models.py:16 | usernames are unique, so two rows with one username are the same row |
| Models.UserTable.FindByUsername | backend/app/routers/blacklinks.py:37 | null iff no row has the exact username; otherwise a row with it |
| Models.UserTable.FindById | backend/app/services/link_guardian.py:66-70 | null iff no row has the id; otherwise a row with it |
| Models.UserTable.Insert | backend/app/routers/blacklinks.py:60-63 | one new row at the end with the next id, the given columns, keeping ids increasing and usernames unique |
| Models.UserTable.Delete | backend/app/routers/blacklinks.py:105-106 | exactly that row goes |
| Models.ProductTable.FindById | backend/app/routers/product.py:23-27 | null iff no row has the id; otherwise a row with it |
| Models.ProductTable.Insert | backend/app/routers/product.py:59-63 | one new row at the end with the next id, the owner and the payload |
| Models.ProductTable.Delete | backend/app/routers/product.py:84-85 | exactly that row goes |
| Models.ProductTable.DeleteOwnedBy | backend/app/models.py:56 | the delete-orphan cascade: exactly the owner's products go |
| Models.Owned | backend/app/routers/product.py:45-47 | exactly the rows of the owner |
| Models.OwnedAscending | backend/app/routers/product.py:45-49 | filtering by owner keeps increasing id order |
| Models.ReverseDescending | backend/app/routers/product.py:48 | reversing increasing ids gives the descending order |

## Left out

- The Mercado Pago SDK calls (preference creation, payment lookup) are not modelled. The provider's answer is an input: the HTTP status of the preference, and the status and external reference of the payment. The preference's back URLs and the `init_point` fields of the reply are left out.
- The httpx probes of the liveness checks are not modelled. A URL's HEAD and GET answers are given by a function from URL to answer. The catalog's extra `resp.history` test is subsumed: it repeats the 404/410 test before it.
- The guardian's endless loop, its 30-minute sleep, the daemon thread and its error logging are left out. One pass of the sweep is modelled.
- Float arithmetic (`unit_price`, `price_brl`) is left out. Amounts are integer cents, and the checkout states the total in cents.
- Timezone normalisation is left out; instants are integer UTC seconds.
- BlackLinks.ParseDt: ISO-8601 parsing of date strings is not modelled. The parameter is the already parsed instant, so the function is the identity.
- Text.Lower and BlackLinkEngine.Slug lower-case ASCII letters only. Python's `str.lower()` also folds other Unicode letters.
- The regular expression's `\d` is taken as ASCII digits. Python also matches other Unicode decimal digits.
- PlanCatalog.LimitsFor: its contract states only that the result is the catalog entry's limits. The figures are stated by MaxProducts and IsMlIngestEnabled.
- Webhook.WebhookMonths: `int(months or 1)` raises on a non-numeric string, a 500 before the 400 check, and truncates a float. The payload's months are an optional integer here, so neither path is modelled.
- BlackLinks.UserUpdate: a JSON null sent for `plan` or `plan_status` fails at commit against the NOT NULL columns. A sent field is `Some` of a string here, so that null cannot be sent.
- BlackLinks.UserCreate: the same holds for an explicit null `plan` or `plan_status` at creation. Both are plain strings here, so that null cannot be sent either.
- ProductRouter.ProductUpdate: a JSON null for `title` fails at commit in the same way and cannot be sent here. A null `is_active` or `is_featured` would be stored, but both columns are integers here.
- Dependencies.CheckProductLimit: the default of 3 for a missing `max_products` key is not modelled, since every PLAN_LIMITS row has the key.
- The avatar URL, the three main call-to-action fields and the nine social URLs are stored as sent by user creation and by the partial update. Nothing else in the core reads them, so they are left out of BlackLinks.UserCreate, BlackLinks.UserUpdate and the user rows.
- The Mercado Pago id columns, which the core never reads or writes, are left out. So is the unique constraint on email, which the core never checks.
- Jinja template rendering is left out, covering the public page of blacklinks.py:113-146 and the shop page `user_products_page`. The JSON product list and the `product_out` redirect are also out, as they add no logic beyond the liveness check and the owner filter modelled here.
- Exception messages are represented by short reason tags rather than the Portuguese texts.
- plan.py imports a `User` model that models.py does not define, and neither plan.py nor webhook.py is mounted by the application. The model treats `User` as the user table and models both routers as written.
- `load_config` and `criar_blacklink` in system/blacklink_engine.py read and write JSON files. Only `gerar_link_curto` is modelled.
- Database transactions, commit and refresh, and concurrent requests are not modelled. Each request runs alone on the tables.
