/** The two persisted entities (BlackLinkUser, BlackLinkProduct) and the in-memory
    tables that stand for the relational store. Primary keys, usernames and
    owner ids are never reassigned by the core, so they are constants. */
module Models {
  import opened Wrappers

  /** The lifecycle columns of a user row. */
  datatype PlanFields = PlanFields(
    plan: string,
    status: string,
    startedAt: Option<int>,
    expiresAt: Option<int>,
    lastPaidPlan: Option<string>,
    lastPaidExpiresAt: Option<int>)

  /** The profile columns the core reads or writes besides the lifecycle ones. */
  datatype Profile = Profile(displayName: Option<string>, bio: Option<string>, email: Option<string>)

  class BlackLinkUser {
    const id: int
    const username: string
    var displayName: Option<string>
    var bio: Option<string>
    var email: Option<string>
    var plan: string
    var planStatus: string
    var planStartedAt: Option<int>
    var planExpiresAt: Option<int>
    var lastPaidPlan: Option<string>
    var lastPaidExpiresAt: Option<int>

    constructor (id: int, username: string, profile: Profile, fields: PlanFields)
      ensures this.id == id && this.username == username
      ensures ProfileState() == profile && PlanState() == fields
    {
      this.id := id;
      this.username := username;
      displayName, bio, email := profile.displayName, profile.bio, profile.email;
      plan, planStatus := fields.plan, fields.status;
      planStartedAt, planExpiresAt := fields.startedAt, fields.expiresAt;
      lastPaidPlan, lastPaidExpiresAt := fields.lastPaidPlan, fields.lastPaidExpiresAt;
    }

    function PlanState(): PlanFields
      reads this
    {
      PlanFields(plan, planStatus, planStartedAt, planExpiresAt, lastPaidPlan, lastPaidExpiresAt)
    }

    function ProfileState(): Profile
      reads this
    {
      Profile(displayName, bio, email)
    }

    /** Writes the six lifecycle columns, as the services do one attribute at a time. */
    method SetPlanState(f: PlanFields)
      modifies this
      ensures PlanState() == f
      ensures ProfileState() == old(ProfileState())
    {
      plan := f.plan;
      planStatus := f.status;
      planStartedAt := f.startedAt;
      planExpiresAt := f.expiresAt;
      lastPaidPlan := f.lastPaidPlan;
      lastPaidExpiresAt := f.lastPaidExpiresAt;
    }

    /** Writes the three profile columns. */
    method SetProfile(p: Profile)
      modifies this
      ensures ProfileState() == p
      ensures PlanState() == old(PlanState())
    {
      displayName, bio, email := p.displayName, p.bio, p.email;
    }
  }

  /** The columns of a product row other than its id and owner (the ProductCreate payload). */
  datatype ProductData = ProductData(
    title: string,
    description: Option<string>,
    url: Option<string>,
    imageUrl: Option<string>,
    sourceImageUrl: Option<string>,
    price: Option<string>,
    tag: Option<string>,
    badge: Option<string>,
    ctaLabel: Option<string>,
    isFeatured: int,
    isActive: int)

  class BlackLinkProduct {
    const id: int
    const ownerId: int
    var title: string
    var description: Option<string>
    var url: Option<string>
    var imageUrl: Option<string>
    var sourceImageUrl: Option<string>
    var price: Option<string>
    var tag: Option<string>
    var badge: Option<string>
    var ctaLabel: Option<string>
    var isFeatured: int
    var isActive: int

    constructor (id: int, ownerId: int, data: ProductData)
      ensures this.id == id && this.ownerId == ownerId && Data() == data
    {
      this.id := id;
      this.ownerId := ownerId;
      title, description, url := data.title, data.description, data.url;
      imageUrl, sourceImageUrl, price := data.imageUrl, data.sourceImageUrl, data.price;
      tag, badge, ctaLabel := data.tag, data.badge, data.ctaLabel;
      isFeatured, isActive := data.isFeatured, data.isActive;
    }

    function Data(): ProductData
      reads this
    {
      ProductData(title, description, url, imageUrl, sourceImageUrl, price, tag, badge,
                  ctaLabel, isFeatured, isActive)
    }

    /** Writes every column other than the id and the owner. */
    method SetData(d: ProductData)
      modifies this
      ensures Data() == d
    {
      title, description, url := d.title, d.description, d.url;
      imageUrl, sourceImageUrl, price := d.imageUrl, d.sourceImageUrl, d.price;
      tag, badge, ctaLabel := d.tag, d.badge, d.ctaLabel;
      isFeatured, isActive := d.isFeatured, d.isActive;
    }
  }

  /** The blacklink_users table: rows in insertion order, so in increasing id order;
      usernames are unique (the column's unique constraint). */
  class UserTable {
    var rows: seq<BlackLinkUser>
    var nextId: int

    ghost predicate Valid()
      reads this
    {
      (forall i, j :: 0 <= i < j < |rows| ==> rows[i].id < rows[j].id) &&
      (forall i, j :: 0 <= i < j < |rows| ==> rows[i].username != rows[j].username) &&
      (forall i :: 0 <= i < |rows| ==> rows[i].id < nextId)
    }

    constructor ()
      ensures Valid() && rows == []
    {
      rows, nextId := [], 1;
    }

    predicate HasUsername(name: string)
      reads this
    {
      exists i :: 0 <= i < |rows| && rows[i].username == name
    }

    predicate HasId(id: int)
      reads this
    {
      exists i :: 0 <= i < |rows| && rows[i].id == id
    }

    /** query(...).filter(username == name).first() */
    method FindByUsername(name: string) returns (u: BlackLinkUser?)
      ensures u == null <==> !HasUsername(name)
      ensures u != null ==> u in rows && u.username == name
    {
      var i := 0;
      while i < |rows|
        invariant 0 <= i <= |rows|
        invariant forall k :: 0 <= k < i ==> rows[k].username != name
      {
        if rows[i].username == name {
          return rows[i];
        }
        i := i + 1;
      }
      return null;
    }

    /** query(...).filter(id == id).first() */
    method FindById(id: int) returns (u: BlackLinkUser?)
      ensures u == null <==> !HasId(id)
      ensures u != null ==> u in rows && u.id == id
    {
      var i := 0;
      while i < |rows|
        invariant 0 <= i <= |rows|
        invariant forall k :: 0 <= k < i ==> rows[k].id != id
      {
        if rows[i].id == id {
          return rows[i];
        }
        i := i + 1;
      }
      return null;
    }

    /** db.add(user); db.commit(): the new row gets the next primary key. */
    method Insert(username: string, profile: Profile, fields: PlanFields) returns (u: BlackLinkUser)
      requires Valid() && !HasUsername(username)
      modifies this
      ensures Valid() && fresh(u)
      ensures rows == old(rows) + [u] && u.id == old(nextId)
      ensures u.username == username && u.ProfileState() == profile && u.PlanState() == fields
    {
      u := new BlackLinkUser(nextId, username, profile, fields);
      rows := rows + [u];
      nextId := nextId + 1;
    }

    /** db.delete(user); db.commit() */
    method Delete(u: BlackLinkUser)
      requires Valid() && u in rows
      modifies this
      ensures Valid() && nextId == old(nextId)
      ensures forall v :: v in rows <==> v in old(rows) && v != u
    {
      var i := 0;
      while rows[i] != u
        invariant 0 <= i < |rows| && u in rows[i..]
        decreases |rows| - i
      {
        i := i + 1;
      }
      rows := rows[..i] + rows[i + 1..];
    }
  }

  /** Usernames are unique, so a username names at most one row. */
  lemma SameUsernameSameRow(t: UserTable, u: BlackLinkUser, v: BlackLinkUser)
    requires t.Valid() && u in t.rows && v in t.rows && u.username == v.username
    ensures u == v
  {
    var i :| 0 <= i < |t.rows| && t.rows[i] == u;
    var j :| 0 <= j < |t.rows| && t.rows[j] == v;
  }

  /** The products owned by `ownerId`, in table order. */
  function Owned(rows: seq<BlackLinkProduct>, ownerId: int): (r: seq<BlackLinkProduct>)
    ensures |r| <= |rows|
    ensures forall i :: 0 <= i < |r| ==> r[i] in rows && r[i].ownerId == ownerId
    ensures forall i :: 0 <= i < |rows| && rows[i].ownerId == ownerId ==> rows[i] in r
  {
    if rows == [] then []
    else if rows[0].ownerId == ownerId then [rows[0]] + Owned(rows[1..], ownerId)
    else Owned(rows[1..], ownerId)
  }

  lemma {:induction false} OwnedAscending(rows: seq<BlackLinkProduct>, ownerId: int)
    requires IdsAscending(rows)
    ensures IdsAscending(Owned(rows, ownerId))
  {
    if rows != [] {
      var rest := Owned(rows[1..], ownerId);
      assert IdsAscending(rows[1..]);
      OwnedAscending(rows[1..], ownerId);
      forall k | 0 <= k < |rest|
        ensures rows[0].id < rest[k].id
      {
        var m :| 0 <= m < |rows[1..]| && rows[1..][m] == rest[k];
      }
    }
  }

  predicate IdsAscending(rows: seq<BlackLinkProduct>) {
    forall i, j :: 0 <= i < j < |rows| ==> rows[i].id < rows[j].id
  }

  predicate IdsDescending(rows: seq<BlackLinkProduct>) {
    forall i, j :: 0 <= i < j < |rows| ==> rows[i].id > rows[j].id
  }

  function Reverse<T>(s: seq<T>): (r: seq<T>)
    ensures |r| == |s| && forall i :: 0 <= i < |s| ==> r[i] == s[|s| - 1 - i]
  {
    if s == [] then [] else Reverse(s[1..]) + [s[0]]
  }

  /** Reversing a list in increasing id order gives decreasing id order. */
  lemma {:induction false} ReverseDescending(s: seq<BlackLinkProduct>)
    requires IdsAscending(s)
    ensures IdsDescending(Reverse(s))
  {
    var r := Reverse(s);
    forall i, j | 0 <= i < j < |r|
      ensures r[i].id > r[j].id
    {
      assert r[i] == s[|s| - 1 - i] && r[j] == s[|s| - 1 - j];
    }
  }

  /** The blacklink_products table, in increasing id order. */
  class ProductTable {
    var rows: seq<BlackLinkProduct>
    var nextId: int

    ghost predicate Valid()
      reads this
    {
      IdsAscending(rows) && (forall i :: 0 <= i < |rows| ==> rows[i].id < nextId)
    }

    constructor ()
      ensures Valid() && rows == []
    {
      rows, nextId := [], 1;
    }

    predicate HasId(id: int)
      reads this
    {
      exists i :: 0 <= i < |rows| && rows[i].id == id
    }

    method FindById(id: int) returns (p: BlackLinkProduct?)
      ensures p == null <==> !HasId(id)
      ensures p != null ==> p in rows && p.id == id
    {
      var i := 0;
      while i < |rows|
        invariant 0 <= i <= |rows|
        invariant forall k :: 0 <= k < i ==> rows[k].id != id
      {
        if rows[i].id == id {
          return rows[i];
        }
        i := i + 1;
      }
      return null;
    }

    method Insert(ownerId: int, data: ProductData) returns (p: BlackLinkProduct)
      requires Valid()
      modifies this
      ensures Valid() && fresh(p)
      ensures rows == old(rows) + [p] && p.id == old(nextId)
      ensures p.ownerId == ownerId && p.Data() == data
    {
      p := new BlackLinkProduct(nextId, ownerId, data);
      rows := rows + [p];
      nextId := nextId + 1;
    }

    method Delete(p: BlackLinkProduct)
      requires Valid() && p in rows
      modifies this
      ensures Valid() && nextId == old(nextId)
      ensures forall q :: q in rows <==> q in old(rows) && q != p
    {
      var i := 0;
      while rows[i] != p
        invariant 0 <= i < |rows| && p in rows[i..]
        decreases |rows| - i
      {
        i := i + 1;
      }
      rows := rows[..i] + rows[i + 1..];
    }

    /** The cascade of deleting a user: every product of that owner goes. */
    method DeleteOwnedBy(ownerId: int)
      requires Valid()
      modifies this
      ensures Valid() && nextId == old(nextId)
      ensures forall q :: q in rows <==> q in old(rows) && q.ownerId != ownerId
    {
      var kept: seq<BlackLinkProduct> := [];
      var i := 0;
      while i < |rows|
        invariant 0 <= i <= |rows|
        invariant forall q :: q in kept <==> q in rows[..i] && q.ownerId != ownerId
        invariant IdsAscending(kept)
        invariant forall k :: 0 <= k < |kept| ==> exists m :: 0 <= m < i && kept[k] == rows[m]
      {
        if rows[i].ownerId != ownerId {
          kept := kept + [rows[i]];
        }
        assert rows[..i + 1] == rows[..i] + [rows[i]];
        i := i + 1;
      }
      assert rows[..i] == rows;
      rows := kept;
    }
  }
}
