/** The product router: listing, creation under the plan manager's product ceiling,
    partial update and deletion. */
module ProductRouter {
  import opened Wrappers
  import opened Models
  import PlanManager
  import Dependencies
  import BlackLinks

  /** _enforce_product_limit on the owner's stored plan and product count: 403 once the
      count reaches the policy's ceiling; an unlimited plan is never refused. */
  function EnforceProductLimit(plan: string, count: int): (r: Outcome)
    ensures r.Fail? <==>
      PlanManager.GetPolicy(Some(plan)).productLimit.Some? &&
      count >= PlanManager.GetPolicy(Some(plan)).productLimit.value
    ensures r.Fail? ==> r.error.status == 403
  {
    var p := PlanManager.NormalizePlan(Some(plan));
    var policy := PlanManager.GetPolicy(Some(p));
    PlanManager.PolicyOfKey(p);
    if policy.productLimit.None? then Pass
    else if count >= policy.productLimit.value then Fail(HttpError(403, "product_limit"))
    else Pass
  }

  /** The router's guard and the dependency guard, though they read different tables,
      refuse exactly the same requests. */
  lemma EnforceAgreesWithDependencies(plan: string, count: int)
    ensures EnforceProductLimit(plan, count).Fail? == Dependencies.CheckProductLimit(Some(plan), count).Fail?
  {
    Dependencies.LimitsAgreeWithPolicies(Some(plan));
  }

  /** The free-plan test: with zero, one or two products a free user may add one more;
      with three the fourth is refused with 403. */
  lemma FreePlanFourthRefused(count: int)
    requires 0 <= count
    ensures EnforceProductLimit("free", count).Fail? <==> count >= 3
  {
    PlanManager.NormalizeKey("free");
  }

  /** list_products_for_user: 404 for an unknown username; otherwise exactly the user's
      products, newest (highest id) first. */
  method ListProducts(users: UserTable, products: ProductTable, username: string, now: int)
    returns (r: Result<seq<BlackLinkProduct>>, ghost owner: BlackLinkUser?)
    requires users.Valid() && products.Valid()
    modifies users.rows
    ensures owner == null <==> !users.HasUsername(BlackLinks.UsernameKey(username))
    ensures owner == null ==> r.Err? && r.error.status == 404
    ensures owner != null ==> owner in users.rows && owner.username == BlackLinks.UsernameKey(username)
    ensures owner != null ==> owner.PlanState() == PlanManager.Synced(old(owner.PlanState()), now)
    ensures owner != null ==> owner.ProfileState() == old(owner.ProfileState())
    ensures owner != null ==> r == Ok(Reverse(Owned(products.rows, owner.id)))
    ensures r.Ok? ==> IdsDescending(r.value)
    ensures forall i :: 0 <= i < |users.rows| && users.rows[i] != owner ==> unchanged(users.rows[i])
  {
    var found := BlackLinks.GetUserByUsername(users, username, now);
    if found.Err? {
      return Err(found.error), null;
    }
    owner := found.value;
    var owned := Owned(products.rows, found.value.id);
    OwnedAscending(products.rows, found.value.id);
    ReverseDescending(owned);
    return Ok(Reverse(owned)), found.value;
  }

  /** The second half of create_product_for_user, for a user already found: the
      user's plan is synced, then 403 when the synced plan's ceiling is reached,
      otherwise a new product owned by the user holding the payload. */
  method AddProduct(products: ProductTable, owner: BlackLinkUser, data: ProductData, now: int)
    returns (r: Result<BlackLinkProduct>)
    requires products.Valid()
    modifies owner, products
    ensures products.Valid()
    ensures owner.PlanState() == PlanManager.Synced(old(owner.PlanState()), now)
    ensures owner.ProfileState() == old(owner.ProfileState())
    ensures r.Err? <==> EnforceProductLimit(owner.plan, |Owned(old(products.rows), owner.id)|).Fail?
    ensures r.Err? ==> r.error.status == 403 && products.rows == old(products.rows)
    ensures r.Ok? ==> fresh(r.value) && products.rows == old(products.rows) + [r.value]
    ensures r.Ok? ==> r.value.ownerId == owner.id && r.value.Data() == data
  {
    PlanManager.SyncUserPlan(owner, now);
    var check := EnforceProductLimit(owner.plan, |Owned(products.rows, owner.id)|);
    if check.Fail? {
      return Err(check.error);
    }
    assert check == Pass;
    var p := products.Insert(owner.id, data);
    return Ok(p);
  }

  /** create_product_for_user: 404 for an unknown username; otherwise the user is
      synced and the product is added under the synced plan's ceiling. */
  method CreateProduct(users: UserTable, products: ProductTable, username: string, data: ProductData, now: int)
    returns (r: Result<BlackLinkProduct>, ghost owner: BlackLinkUser?)
    requires users.Valid() && products.Valid()
    modifies users.rows, products
    ensures products.Valid()
    ensures owner == null <==> !users.HasUsername(BlackLinks.UsernameKey(username))
    ensures owner == null ==> r.Err? && r.error.status == 404 && products.rows == old(products.rows)
    ensures owner != null ==> owner in users.rows && owner.username == BlackLinks.UsernameKey(username)
    ensures owner != null ==> owner.PlanState() == PlanManager.Synced(old(owner.PlanState()), now)
    ensures owner != null ==> owner.ProfileState() == old(owner.ProfileState())
    ensures forall i :: 0 <= i < |users.rows| && users.rows[i] != owner ==> unchanged(users.rows[i])
    ensures owner != null ==>
      (r.Err? <==> EnforceProductLimit(owner.plan, |Owned(old(products.rows), owner.id)|).Fail?)
    ensures r.Err? ==> products.rows == old(products.rows)
    ensures r.Ok? ==> fresh(r.value) && products.rows == old(products.rows) + [r.value]
    ensures r.Ok? ==> owner != null && r.value.ownerId == owner.id && r.value.Data() == data
  {
    // product.py's own _get_user_by_username: exact lookup of the key (the sync follows)
    var u := users.FindByUsername(BlackLinks.UsernameKey(username));
    if u == null {
      return Err(HttpError(404, "user_not_found")), null;
    }
    owner := u;
    r := AddProduct(products, u, data, now);
  }

  /** The ProductUpdate payload with exclude_unset: None for a field the request did
      not send, Some(v) for one it sent. */
  datatype ProductUpdate = ProductUpdate(
    title: Option<string>,
    description: Option<Option<string>>,
    url: Option<Option<string>>,
    imageUrl: Option<Option<string>>,
    sourceImageUrl: Option<Option<string>>,
    price: Option<Option<string>>,
    tag: Option<Option<string>>,
    badge: Option<Option<string>>,
    ctaLabel: Option<Option<string>>,
    isFeatured: Option<int>,
    isActive: Option<int>)

  const NoChanges: ProductUpdate :=
    ProductUpdate(None, None, None, None, None, None, None, None, None, None, None)

  /** The columns after the setattr loop: a sent field takes the sent value, every
      other column keeps its value. */
  function Patched(d: ProductData, u: ProductUpdate): (r: ProductData)
    ensures u.title.Some? ==> r.title == u.title.value
    ensures u.title.None? ==> r.title == d.title
    ensures u.description.Some? ==> r.description == u.description.value
    ensures u.description.None? ==> r.description == d.description
    ensures u.url.Some? ==> r.url == u.url.value
    ensures u.url.None? ==> r.url == d.url
    ensures u.imageUrl.Some? ==> r.imageUrl == u.imageUrl.value
    ensures u.imageUrl.None? ==> r.imageUrl == d.imageUrl
    ensures u.sourceImageUrl.Some? ==> r.sourceImageUrl == u.sourceImageUrl.value
    ensures u.sourceImageUrl.None? ==> r.sourceImageUrl == d.sourceImageUrl
    ensures u.price.Some? ==> r.price == u.price.value
    ensures u.price.None? ==> r.price == d.price
    ensures u.tag.Some? ==> r.tag == u.tag.value
    ensures u.tag.None? ==> r.tag == d.tag
    ensures u.badge.Some? ==> r.badge == u.badge.value
    ensures u.badge.None? ==> r.badge == d.badge
    ensures u.ctaLabel.Some? ==> r.ctaLabel == u.ctaLabel.value
    ensures u.ctaLabel.None? ==> r.ctaLabel == d.ctaLabel
    ensures u.isFeatured.Some? ==> r.isFeatured == u.isFeatured.value
    ensures u.isFeatured.None? ==> r.isFeatured == d.isFeatured
    ensures u.isActive.Some? ==> r.isActive == u.isActive.value
    ensures u.isActive.None? ==> r.isActive == d.isActive
  {
    ProductData(Pick(u.title, d.title), Pick(u.description, d.description), Pick(u.url, d.url),
                Pick(u.imageUrl, d.imageUrl), Pick(u.sourceImageUrl, d.sourceImageUrl),
                Pick(u.price, d.price), Pick(u.tag, d.tag), Pick(u.badge, d.badge),
                Pick(u.ctaLabel, d.ctaLabel), Pick(u.isFeatured, d.isFeatured),
                Pick(u.isActive, d.isActive))
  }

  /** An update that sends nothing changes nothing. */
  lemma PatchNothing(d: ProductData)
    ensures Patched(d, NoChanges) == d
  {
  }

  /** Sending the same update twice is the same as sending it once. */
  lemma PatchIdempotent(d: ProductData, u: ProductUpdate)
    ensures Patched(Patched(d, u), u) == Patched(d, u)
  {
  }

  /** update_product: 404 for an unknown id; otherwise the product with the sent fields
      written over it. Neither the owner nor the plan is consulted. */
  method UpdateProduct(products: ProductTable, productId: int, u: ProductUpdate) returns (r: Result<BlackLinkProduct>)
    modifies products.rows
    ensures r.Err? <==> !products.HasId(productId)
    ensures r.Err? ==> r.error.status == 404
    ensures r.Ok? ==> r.value in products.rows && r.value.id == productId
    ensures r.Ok? ==> r.value.Data() == Patched(old(r.value.Data()), u)
    ensures forall q :: q in products.rows && (r.Err? || q != r.value) ==> unchanged(q)
  {
    var p := products.FindById(productId);
    if p == null {
      return Err(HttpError(404, "product_not_found"));
    }
    p.SetData(Patched(p.Data(), u));
    return Ok(p);
  }

  /** delete_product: 404 for an unknown id; otherwise that row goes. */
  method DeleteProduct(products: ProductTable, productId: int) returns (r: Outcome)
    requires products.Valid()
    modifies products
    ensures products.Valid()
    ensures r.Fail? <==> !old(products.HasId(productId))
    ensures r.Fail? ==> r.error.status == 404 && products.rows == old(products.rows)
    ensures r.Pass? ==> forall q :: q in products.rows <==> q in old(products.rows) && q.id != productId
  {
    var p := products.FindById(productId);
    if p == null {
      return Fail(HttpError(404, "product_not_found"));
    }
    products.Delete(p);
    forall q | q in products.rows
      ensures q.id != productId
    {
      var i :| 0 <= i < |old(products.rows)| && old(products.rows)[i] == p;
      var j :| 0 <= j < |old(products.rows)| && old(products.rows)[j] == q;
    }
    return Pass;
  }
}
