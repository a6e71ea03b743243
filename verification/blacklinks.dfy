/** The user CRUD router: lookup by normalised username with a lazy plan sync,
    creation, partial update, listing and deletion with the products cascade. */
module BlackLinks {
  import opened Wrappers
  import opened Text
  import opened Models
  import PlanManager

  /** _parse_dt on a value the request schema has already turned into an instant:
      no value stays absent and an instant is kept as it is. */
  function ParseDt(v: Option<int>): (r: Option<int>)
    ensures r == v
  {
    if v.None? then None else v
  }

  /** `username.lower().strip()` */
  function UsernameKey(username: string): (k: string)
    ensures k == Lower(Strip(username))
    ensures |k| <= |username|
  {
    StripLower(username);
    Strip(Lower(username))
  }

  /** A stored username is its own key, so it is found again by the same lookup. */
  lemma UsernameKeyIdempotent(username: string)
    ensures UsernameKey(UsernameKey(username)) == UsernameKey(username)
  {
    var t := UsernameKey(username);
    StripLower(Lower(username));
    LowerIdempotent(username);
    assert Lower(t) == t;
    StripIdempotent(Lower(username));
  }

  /** _get_user_by_username: 404 for an unknown username; otherwise the user, synced
      at `now` (the sync is committed). */
  method GetUserByUsername(users: UserTable, username: string, now: int) returns (r: Result<BlackLinkUser>)
    requires users.Valid()
    modifies users.rows
    ensures r.Err? <==> !users.HasUsername(UsernameKey(username))
    ensures r.Err? ==> r.error.status == 404
    ensures r.Ok? ==> r.value in users.rows && r.value.username == UsernameKey(username)
    ensures r.Ok? ==> r.value.PlanState() == PlanManager.Synced(old(r.value.PlanState()), now)
    ensures r.Ok? ==> r.value.ProfileState() == old(r.value.ProfileState())
    ensures forall i :: 0 <= i < |users.rows| && (r.Err? || users.rows[i] != r.value) ==> unchanged(users.rows[i])
  {
    var u := users.FindByUsername(UsernameKey(username));
    if u == null {
      return Err(HttpError(404, "user_not_found"));
    }
    PlanManager.SyncUserPlan(u, now);
    return Ok(u);
  }

  /** The UserCreate payload (the profile columns the core reads, and the lifecycle
      columns with their schema defaults already applied). */
  datatype UserCreate = UserCreate(
    username: string,
    profile: Profile,
    plan: string,
    status: string,
    startedAt: Option<int>,
    expiresAt: Option<int>,
    lastPaidPlan: Option<string>,
    lastPaidExpiresAt: Option<int>)

  /** The lifecycle columns a created user starts with: the payload's, dates through
      _parse_dt. No normalisation of the plan and no sync. */
  function CreatedFields(u: UserCreate): PlanFields {
    PlanFields(u.plan, u.status, ParseDt(u.startedAt), ParseDt(u.expiresAt), u.lastPaidPlan,
               ParseDt(u.lastPaidExpiresAt))
  }

  /** create_blacklink_user: 400 when the normalised username is taken; otherwise a new
      row under that username with the payload stored verbatim, found again by a
      lookup of its own username. */
  method CreateUser(users: UserTable, userIn: UserCreate) returns (r: Result<BlackLinkUser>)
    requires users.Valid()
    modifies users
    ensures users.Valid()
    ensures r.Err? <==> old(users.HasUsername(UsernameKey(userIn.username)))
    ensures r.Err? ==> r.error.status == 400 && users.rows == old(users.rows)
    ensures r.Ok? ==> fresh(r.value) && users.rows == old(users.rows) + [r.value]
    ensures r.Ok? ==> r.value.username == UsernameKey(userIn.username)
    ensures r.Ok? ==> r.value.ProfileState() == userIn.profile && r.value.PlanState() == CreatedFields(userIn)
    ensures r.Ok? ==> users.HasUsername(UsernameKey(r.value.username))
  {
    var key := UsernameKey(userIn.username);
    var existing := users.FindByUsername(key);
    if existing != null {
      return Err(HttpError(400, "username_taken"));
    }
    var u := users.Insert(key, userIn.profile, CreatedFields(userIn));
    UsernameKeyIdempotent(userIn.username);
    assert users.rows[|users.rows| - 1] == u;
    return Ok(u);
  }

  /** The UserUpdate payload with exclude_unset: None for a field the request did not
      send, Some(v) for one it sent (v itself may be null for nullable columns). */
  datatype UserUpdate = UserUpdate(
    displayName: Option<Option<string>>,
    bio: Option<Option<string>>,
    email: Option<Option<string>>,
    plan: Option<string>,
    status: Option<string>,
    startedAt: Option<Option<int>>,
    expiresAt: Option<Option<int>>,
    lastPaidPlan: Option<Option<string>>,
    lastPaidExpiresAt: Option<Option<int>>)

  const NoChanges: UserUpdate := UserUpdate(None, None, None, None, None, None, None, None, None)

  /** The lifecycle columns after the setattr loop: a sent field takes the sent value
      (dates through _parse_dt), every other column keeps its value. */
  function PatchedPlan(f: PlanFields, u: UserUpdate): (r: PlanFields)
    ensures u.plan.Some? ==> r.plan == u.plan.value
    ensures u.plan.None? ==> r.plan == f.plan
    ensures u.status.Some? ==> r.status == u.status.value
    ensures u.status.None? ==> r.status == f.status
    ensures u.startedAt.Some? ==> r.startedAt == ParseDt(u.startedAt.value)
    ensures u.startedAt.None? ==> r.startedAt == f.startedAt
    ensures u.expiresAt.Some? ==> r.expiresAt == ParseDt(u.expiresAt.value)
    ensures u.expiresAt.None? ==> r.expiresAt == f.expiresAt
    ensures u.lastPaidPlan.Some? ==> r.lastPaidPlan == u.lastPaidPlan.value
    ensures u.lastPaidPlan.None? ==> r.lastPaidPlan == f.lastPaidPlan
    ensures u.lastPaidExpiresAt.Some? ==> r.lastPaidExpiresAt == ParseDt(u.lastPaidExpiresAt.value)
    ensures u.lastPaidExpiresAt.None? ==> r.lastPaidExpiresAt == f.lastPaidExpiresAt
  {
    PlanFields(Pick(u.plan, f.plan), Pick(u.status, f.status),
               if u.startedAt.Some? then ParseDt(u.startedAt.value) else f.startedAt,
               if u.expiresAt.Some? then ParseDt(u.expiresAt.value) else f.expiresAt,
               Pick(u.lastPaidPlan, f.lastPaidPlan),
               if u.lastPaidExpiresAt.Some? then ParseDt(u.lastPaidExpiresAt.value) else f.lastPaidExpiresAt)
  }

  /** The profile columns after the same loop: a sent field takes the sent value (null
      included), every other column keeps its value. */
  function PatchedProfile(p: Profile, u: UserUpdate): (r: Profile)
    ensures u.displayName.Some? ==> r.displayName == u.displayName.value
    ensures u.displayName.None? ==> r.displayName == p.displayName
    ensures u.bio.Some? ==> r.bio == u.bio.value
    ensures u.bio.None? ==> r.bio == p.bio
    ensures u.email.Some? ==> r.email == u.email.value
    ensures u.email.None? ==> r.email == p.email
  {
    Profile(Pick(u.displayName, p.displayName), Pick(u.bio, p.bio), Pick(u.email, p.email))
  }

  /** An update that sends nothing changes nothing. */
  lemma PatchNothing(f: PlanFields, p: Profile)
    ensures PatchedPlan(f, NoChanges) == f && PatchedProfile(p, NoChanges) == p
  {
  }

  /** Sending the same update twice is the same as sending it once. */
  lemma PatchIdempotent(f: PlanFields, p: Profile, u: UserUpdate)
    ensures PatchedPlan(PatchedPlan(f, u), u) == PatchedPlan(f, u)
    ensures PatchedProfile(PatchedProfile(p, u), u) == PatchedProfile(p, u)
  {
  }

  /** The update is applied after the sync and is not synced again: a sent plan is
      stored as sent, even one the sync would have rewritten. */
  lemma PatchAfterSync(f: PlanFields, u: UserUpdate, now: int)
    requires u.plan.Some?
    ensures PatchedPlan(PlanManager.Synced(f, now), u).plan == u.plan.value
  {
  }

  /** update_blacklink_user: 404 for an unknown username; otherwise the synced user
      with the sent fields written over it. */
  method PatchUser(users: UserTable, username: string, upd: UserUpdate, now: int) returns (r: Result<BlackLinkUser>)
    requires users.Valid()
    modifies users.rows
    ensures r.Err? <==> !users.HasUsername(UsernameKey(username))
    ensures r.Err? ==> r.error.status == 404
    ensures r.Ok? ==> r.value in users.rows && r.value.username == UsernameKey(username)
    ensures r.Ok? ==> r.value.PlanState() == PatchedPlan(PlanManager.Synced(old(r.value.PlanState()), now), upd)
    ensures r.Ok? ==> r.value.ProfileState() == PatchedProfile(old(r.value.ProfileState()), upd)
    ensures forall i :: 0 <= i < |users.rows| && (r.Err? || users.rows[i] != r.value) ==> unchanged(users.rows[i])
  {
    r := GetUserByUsername(users, username, now);
    if r.Err? {
      return;
    }
    var u := r.value;
    u.SetPlanState(PatchedPlan(u.PlanState(), upd));
    u.SetProfile(PatchedProfile(u.ProfileState(), upd));
  }

  /** `a` is `b` with some rows dropped and the rest kept in their order. */
  ghost predicate InOrder(a: seq<BlackLinkUser>, b: seq<BlackLinkUser>)
    decreases |b|
  {
    a == [] || (b != [] && if a[0] == b[0] then InOrder(a[1..], b[1..]) else InOrder(a, b[1..]))
  }

  lemma {:induction false} InOrderRefl(a: seq<BlackLinkUser>)
    ensures InOrder(a, a)
    decreases |a|
  {
    if a != [] {
      InOrderRefl(a[1..]);
    }
  }

  /** list_blacklink_users: all rows, or, for a non-empty filter, the rows whose stored
      plan equals it exactly (no normalisation and no sync), in table order. */
  function ListUsers(rows: seq<BlackLinkUser>, plan: Option<string>): (r: seq<BlackLinkUser>)
    reads rows
    ensures !Truthy(plan) ==> r == rows
    ensures |r| <= |rows|
    ensures forall i :: 0 <= i < |r| ==> r[i] in rows && (!Truthy(plan) || r[i].plan == plan.value)
    ensures forall i :: 0 <= i < |rows| && (!Truthy(plan) || rows[i].plan == plan.value) ==> rows[i] in r
    ensures InOrder(r, rows)
  {
    if !Truthy(plan) || rows == [] then InOrderRefl(rows); rows
    else if rows[0].plan == plan.value then [rows[0]] + ListUsers(rows[1..], plan)
    else ListUsers(rows[1..], plan)
  }

  /** delete_blacklink_user: 404 for an unknown username; otherwise the user's row goes,
      and with it every product it owns. */
  method DeleteUser(users: UserTable, products: ProductTable, username: string, now: int)
    returns (r: Outcome, ghost deleted: BlackLinkUser?)
    requires users.Valid() && products.Valid()
    modifies users, users.rows, products
    ensures users.Valid() && products.Valid()
    ensures r.Fail? <==> !old(users.HasUsername(UsernameKey(username)))
    ensures r.Fail? ==> r.error.status == 404 && users.rows == old(users.rows) && products.rows == old(products.rows)
    ensures r.Pass? ==> deleted != null && deleted in old(users.rows) && deleted.username == UsernameKey(username)
    ensures r.Pass? ==> forall v :: v in users.rows <==> v in old(users.rows) && v.username != UsernameKey(username)
    ensures r.Pass? ==> forall q :: q in products.rows <==> q in old(products.rows) && q.ownerId != deleted.id
    ensures forall v :: v in users.rows ==> unchanged(v)
  {
    var found := GetUserByUsername(users, username, now);
    if found.Err? {
      return Fail(found.error), null;
    }
    var u := found.value;
    products.DeleteOwnedBy(u.id);
    users.Delete(u);
    forall v | v in users.rows
      ensures v.username != UsernameKey(username)
    {
      var i :| 0 <= i < |old(users.rows)| && old(users.rows)[i] == u;
      var j :| 0 <= j < |old(users.rows)| && old(users.rows)[j] == v;
    }
    return Pass, u;
  }
}
