/** The link guardian: a liveness check for affiliate links and one pass of the
    background sweep that switches off the products of pro and don owners whose
    Mercado Livre link has gone dead. The HTTP probes are represented by their answers. */
module LinkGuardian {
  import opened Wrappers
  import opened Text
  import opened Models
  import PlanManager
  import Dependencies

  /** What one probe of a URL gave: a response with its final status code (redirects
      already followed), or a request error (timeout, connection refused, ...). */
  datatype Probe = Answered(status: int) | RequestError

  /** The answers a URL gives to a HEAD probe and to the GET probe that follows it. */
  datatype LinkAnswer = LinkAnswer(head: Probe, get: Probe)

  /** The answer the check decides on: the HEAD answer, or the GET answer when HEAD
      was refused with 405. */
  function FinalProbe(a: LinkAnswer): Probe {
    if a.head == Answered(405) then a.get else a.head
  }

  /** A link is gone when the final answer is 404 or 410. */
  predicate Gone(p: Probe) {
    p.Answered? && (p.status == 404 || p.status == 410)
  }

  /** _is_link_alive: an empty URL is dead; a URL outside Mercado Livre is alive
      without any probe; otherwise only a 404 or 410 answer makes it dead, and a
      request error counts as alive. */
  function IsLinkAlive(url: Option<string>, a: LinkAnswer): (r: bool)
    ensures !Truthy(url) ==> !r
    ensures Truthy(url) && !Contains(url.value, "mercadolivre.com") ==> r
    ensures !r <==> (!Truthy(url) || (Contains(url.value, "mercadolivre.com") && Gone(FinalProbe(a))))
    ensures FinalProbe(a) == RequestError ==> (r <==> Truthy(url))
  {
    if !Truthy(url) then false
    else if !Contains(url.value, "mercadolivre.com") then true
    else
      var resp := if a.head.Answered? && a.head.status == 405 then a.get else a.head;
      match resp
      case RequestError => true
      case Answered(status) => !(status == 404 || status == 410)
  }

  /** The GET answer matters only after a 405 to HEAD. */
  lemma GetOnlyAfter405(url: Option<string>, head: Probe, get1: Probe, get2: Probe)
    requires head != Answered(405)
    ensures IsLinkAlive(url, LinkAnswer(head, get1)) == IsLinkAlive(url, LinkAnswer(head, get2))
  {
  }

  /** _guardian_enabled_for_plan: the link_guardian flag of the legacy PLAN_LIMITS row
      for `(plan or "free").lower().strip()`, free for an unknown key. It is on exactly
      for the plans that normalise to pro or don, whatever their case and surrounding
      whitespace; never for free, a missing plan or an unknown one. */
  function GuardianEnabledForPlan(plan: Option<string>): (r: bool)
    ensures r <==> PlanManager.NormalizePlan(plan) != "free"
    ensures plan.None? ==> !r
  {
    Dependencies.GetPlanLimits(plan).linkGuardian
  }

  /** The plan keys themselves: on for pro and don, off for free. */
  lemma GuardianPlans()
    ensures GuardianEnabledForPlan(Some("pro")) && GuardianEnabledForPlan(Some("don"))
    ensures !GuardianEnabledForPlan(Some("free"))
  {
    PlanManager.NormalizeKey("pro");
    PlanManager.NormalizeKey("don");
    PlanManager.NormalizeKey("free");
  }

  /** The plan of the first user row with the given id (None when there is none):
      the owner lookup of the sweep, on the stored, unsynced plan. */
  function OwnerPlan(rows: seq<BlackLinkUser>, id: int): (r: Option<string>)
    reads rows
    ensures r.None? <==> forall i :: 0 <= i < |rows| ==> rows[i].id != id
  {
    if rows == [] then None
    else if rows[0].id == id then Some(rows[0].plan)
    else OwnerPlan(rows[1..], id)
  }

  /** With distinct ids, the owner lookup finds the very row carrying the id. */
  lemma {:induction false} OwnerPlanFound(rows: seq<BlackLinkUser>, k: int)
    requires 0 <= k < |rows|
    requires forall i, j :: 0 <= i < j < |rows| ==> rows[i].id < rows[j].id
    ensures OwnerPlan(rows, rows[k].id) == Some(rows[k].plan)
  {
    if k > 0 {
      assert rows[0].id < rows[k].id;
      assert rows[1..][k - 1] == rows[k];
      OwnerPlanFound(rows[1..], k - 1);
    }
  }

  /** The columns of one product after a sweep pass: an active product whose owner
      exists, has the guardian enabled and whose link is dead is switched off and
      unfeatured; every other product is left as it was. */
  function Swept(d: ProductData, ownerPlan: Option<string>, a: LinkAnswer): (r: ProductData)
    ensures r == d || r == d.(isActive := 0, isFeatured := 0)
    ensures r != d ==> d.isActive == 1 && ownerPlan.Some? && GuardianEnabledForPlan(ownerPlan) && !IsLinkAlive(d.url, a)
    ensures d.isActive == 1 && ownerPlan.Some? && GuardianEnabledForPlan(ownerPlan) && !IsLinkAlive(d.url, a) ==>
      r.isActive == 0 && r.isFeatured == 0
  {
    if d.isActive == 1 && ownerPlan.Some? && GuardianEnabledForPlan(ownerPlan) && !IsLinkAlive(d.url, a)
    then d.(isActive := 0, isFeatured := 0)
    else d
  }

  /** A second pass with the same answers changes nothing more. */
  lemma SweptIdempotent(d: ProductData, ownerPlan: Option<string>, a: LinkAnswer)
    ensures Swept(Swept(d, ownerPlan, a), ownerPlan, a) == Swept(d, ownerPlan, a)
  {
  }

  /** A sweep never activates or features a product. */
  lemma SweptOnlySwitchesOff(d: ProductData, ownerPlan: Option<string>, a: LinkAnswer)
    ensures Swept(d, ownerPlan, a).isActive == d.isActive || Swept(d, ownerPlan, a).isActive == 0
    ensures Swept(d, ownerPlan, a).isFeatured == d.isFeatured || Swept(d, ownerPlan, a).isFeatured == 0
  {
  }

  /** The answer a URL gives; an absent URL is never probed. */
  function AnswerFor(url: Option<string>, answers: string -> LinkAnswer): LinkAnswer {
    if url.Some? then answers(url.value) else LinkAnswer(RequestError, RequestError)
  }

  /** The body of the sweep loop for one product: the owner lookup by id, the plan
      gate and the liveness check, switching the product off when its link is dead. */
  method CheckProduct(users: UserTable, p: BlackLinkProduct, answers: string -> LinkAnswer)
    requires users.Valid()
    modifies p
    ensures p.Data() == Swept(old(p.Data()), old(OwnerPlan(users.rows, p.ownerId)), AnswerFor(old(p.url), answers))
  {
    var before := p.Data();
    if p.isActive != 1 {
      return;
    }
    var owner := users.FindById(p.ownerId);
    if owner == null {
      assert OwnerPlan(users.rows, p.ownerId).None?;
      return;
    }
    var k :| 0 <= k < |users.rows| && users.rows[k] == owner;
    OwnerPlanFound(users.rows, k);
    ghost var ownerPlan := OwnerPlan(users.rows, p.ownerId);
    assert ownerPlan == Some(owner.plan);
    if !GuardianEnabledForPlan(Some(owner.plan)) {
      return;
    }
    var alive := IsLinkAlive(p.url, AnswerFor(p.url, answers));
    if !alive {
      p.SetData(before.(isActive := 0, isFeatured := 0));
    }
  }

  /** One pass of run_link_guardian over the products table, each URL answering as
      `answers` says: every product ends as Swept prescribes for its owner's stored
      plan. The users are not synced and not changed. */
  method SweepOnce(users: UserTable, products: ProductTable, answers: string -> LinkAnswer)
    requires users.Valid() && products.Valid()
    modifies products.rows
    ensures forall i :: 0 <= i < |products.rows| ==>
      products.rows[i].Data() == Swept(old(products.rows[i].Data()), old(OwnerPlan(users.rows, products.rows[i].ownerId)),
                                       AnswerFor(old(products.rows[i].url), answers))
  {
    var i := 0;
    while i < |products.rows|
      invariant 0 <= i <= |products.rows|
      invariant forall j :: 0 <= j < i ==>
        products.rows[j].Data() == Swept(old(products.rows[j].Data()), old(OwnerPlan(users.rows, products.rows[j].ownerId)),
                                         AnswerFor(old(products.rows[j].url), answers))
      invariant forall j :: i <= j < |products.rows| ==> products.rows[j].Data() == old(products.rows[j].Data())
    {
      var p := products.rows[i];
      ghost var ownerPlan := OwnerPlan(users.rows, p.ownerId);
      assert ownerPlan == old(OwnerPlan(users.rows, p.ownerId));
      assert p.Data() == old(p.Data()) && p.url == old(p.url);
      forall j | 0 <= j < |products.rows| && j != i
        ensures products.rows[j] != p
      {
        assert products.rows[i].id != products.rows[j].id;
      }
      CheckProduct(users, p, answers);
      assert p.Data() == Swept(old(p.Data()), ownerPlan, AnswerFor(old(p.url), answers));
      i := i + 1;
    }
  }
}
