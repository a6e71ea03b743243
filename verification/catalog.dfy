/** The public catalog pages: the auto-created shop owner, the price scanned out of a
    product's badge, the view model of a product, the catalog's own liveness check and
    the product detail page with up to three related products. */
module CatalogRouter {
  import opened Wrappers
  import opened Text
  import opened Models
  import BlackLinks
  import LinkGuardian

  // ---------------------------------------------------------------
  // _get_or_create_user
  // ---------------------------------------------------------------

  /** The columns of a shop owner created on first visit: the display name is the
      username, the bio a fixed greeting, the plan free and active with no dates. */
  function CreatedProfile(key: string): Profile {
    Profile(Some(key), Some("Loja BlackLink"), None)
  }

  const CreatedPlan: PlanFields := PlanFields("free", "active", None, None, None, None)

  /** _get_or_create_user: 400 for a username that is empty once lower-cased and
      trimmed; otherwise the user stored under that key, created (free, with the
      username as display name) when there is none. The user is not synced. */
  method GetOrCreateUser(users: UserTable, username: string) returns (r: Result<BlackLinkUser>)
    requires users.Valid()
    modifies users
    ensures users.Valid()
    ensures r.Err? <==> BlackLinks.UsernameKey(username) == []
    ensures r.Err? ==> r.error.status == 400
    ensures old(users.HasUsername(BlackLinks.UsernameKey(username))) || r.Err? ==> users.rows == old(users.rows)
    ensures r.Ok? ==> r.value in users.rows && r.value.username == BlackLinks.UsernameKey(username)
    ensures r.Ok? && !old(users.HasUsername(BlackLinks.UsernameKey(username))) ==>
      (fresh(r.value) && users.rows == old(users.rows) + [r.value] &&
       r.value.ProfileState() == CreatedProfile(r.value.username) && r.value.PlanState() == CreatedPlan)
  {
    var key := BlackLinks.UsernameKey(username);
    if key == [] {
      return Err(HttpError(400, "invalid_username"));
    }
    var u := users.FindByUsername(key);
    if u == null {
      u := users.Insert(key, CreatedProfile(key), CreatedPlan);
    }
    return Ok(u);
  }

  /** A second visit under the same username finds the user the first one created. */
  method GetOrCreateTwice(users: UserTable, username: string) returns (first: Result<BlackLinkUser>, second: Result<BlackLinkUser>)
    requires users.Valid()
    modifies users
    ensures first.Ok? <==> second.Ok?
    ensures first.Ok? ==> second.value == first.value
    ensures |users.rows| <= |old(users.rows)| + 1
  {
    first := GetOrCreateUser(users, username);
    if first.Err? {
      second := GetOrCreateUser(users, username);
      return;
    }
    ghost var rowsAfterFirst := users.rows;
    assert users.HasUsername(BlackLinks.UsernameKey(username)) by {
      var k :| 0 <= k < |users.rows| && users.rows[k] == first.value;
    }
    second := GetOrCreateUser(users, username);
    assert users.rows == rowsAfterFirst;
    var i :| 0 <= i < |users.rows| && users.rows[i] == first.value;
    var j :| 0 <= j < |users.rows| && users.rows[j] == second.value;
  }

  // ---------------------------------------------------------------
  // _parse_price_from_badge: a scanner for the regular expression
  //   (\d{1,3}(?:[.\s]\d{3})*(?:[.,]\d{2})|\d+(?:[.,]\d{2})?)
  // searched (leftmost match, alternatives and quantifiers in backtracking order)
  // in the trimmed badge.
  // ---------------------------------------------------------------

  /** `[.\s]`, the thousands separator of the first alternative. */
  predicate IsGroupSep(c: char) {
    c == '.' || IsSpace(c)
  }

  /** `[.,]`, the decimal separator. */
  predicate IsCentsSep(c: char) {
    c == '.' || c == ','
  }

  /** The characters a match can consist of. */
  predicate IsPriceChar(c: char) {
    IsDigit(c) || IsGroupSep(c) || IsCentsSep(c)
  }

  predicate HasDigit(s: string) {
    exists k :: 0 <= k < |s| && IsDigit(s[k])
  }

  /** The length of the run of digits starting at i. */
  function DigitsFrom(s: string, i: nat): (n: nat)
    requires i <= |s|
    ensures i + n <= |s|
    ensures forall k :: i <= k < i + n ==> IsDigit(s[k])
    ensures i + n == |s| || !IsDigit(s[i + n])
    decreases |s| - i
  {
    if i < |s| && IsDigit(s[i]) then 1 + DigitsFrom(s, i + 1) else 0
  }

  /** `[.\s]\d{3}` at j */
  predicate GroupAt(s: string, j: nat) {
    j + 4 <= |s| && IsGroupSep(s[j]) && IsDigit(s[j + 1]) && IsDigit(s[j + 2]) && IsDigit(s[j + 3])
  }

  /** `[.,]\d{2}` at j */
  predicate CentsAt(s: string, j: nat) {
    j + 3 <= |s| && IsCentsSep(s[j]) && IsDigit(s[j + 1]) && IsDigit(s[j + 2])
  }

  /** How many times the greedy `(?:[.\s]\d{3})*` repeats from j. */
  function Groups(s: string, j: nat): (k: nat)
    requires j <= |s|
    ensures j + 4 * k <= |s|
    ensures forall m :: j <= m < j + 4 * k ==> IsPriceChar(s[m])
    decreases |s| - j
  {
    if GroupAt(s, j) then 1 + Groups(s, j + 4) else 0
  }

  /** The end of a first-alternative match whose leading digits end at j, trying k
      groups first and then fewer (the backtracking of the greedy star). */
  function TryGroups(s: string, j: nat, k: nat): (e: Option<nat>)
    requires j + 4 * k <= |s|
    requires forall m :: j <= m < j + 4 * k ==> IsPriceChar(s[m])
    ensures e.Some? ==> j + 3 <= e.value <= |s| && IsDigit(s[e.value - 1])
    ensures e.Some? ==> forall m :: j <= m < e.value ==> IsPriceChar(s[m])
    decreases k
  {
    if CentsAt(s, j + 4 * k) then Some(j + 4 * k + 3)
    else if k == 0 then None
    else TryGroups(s, j, k - 1)
  }

  /** The end of a first-alternative match at i, trying n leading digits first and
      then fewer (the backtracking of `\d{1,3}`). */
  function TryLead(s: string, i: nat, n: nat): (e: Option<nat>)
    requires i + n <= |s|
    requires forall m :: i <= m < i + n ==> IsDigit(s[m])
    ensures e.Some? ==> i < e.value <= |s| && IsDigit(s[e.value - 1])
    ensures e.Some? ==> forall m :: i <= m < e.value ==> IsPriceChar(s[m])
    decreases n
  {
    if n == 0 then None
    else
      match TryGroups(s, i + n, Groups(s, i + n))
      case Some(e) => Some(e)
      case None => TryLead(s, i, n - 1)
  }

  /** The end of the match at a digit: the first alternative when it matches, else
      the whole digit run with its cents when present. */
  function MatchEnd(s: string, i: nat): (e: nat)
    requires i < |s| && IsDigit(s[i])
    ensures i < e <= |s| && IsDigit(s[e - 1])
    ensures forall m :: i <= m < e ==> IsPriceChar(s[m])
  {
    var run := DigitsFrom(s, i);
    match TryLead(s, i, if run < 3 then run else 3)
    case Some(e) => e
    case None => RunEnd(s, i, run)
  }

  /** The end of a second-alternative match: the digit run [i, i + run), then `[.,]\d{2}`
      when it follows. */
  function RunEnd(s: string, i: nat, run: nat): (e: nat)
    requires 0 < run && i + run <= |s|
    requires forall k :: i <= k < i + run ==> IsDigit(s[k])
    ensures i < e <= |s| && IsDigit(s[e - 1])
    ensures forall m :: i <= m < e ==> IsPriceChar(s[m])
  {
    i + run + (if CentsAt(s, i + run) then 3 else 0)
  }

  /** Where the search finds its match: the first digit (both alternatives begin with
      a digit, and the second matches at every digit). */
  function FirstDigit(s: string): (i: nat)
    requires HasDigit(s)
    ensures i < |s| && IsDigit(s[i])
    ensures forall k :: 0 <= k < i ==> !IsDigit(s[k])
  {
    if IsDigit(s[0]) then 0
    else
      assert HasDigit(s[1..]) by {
        var k :| 0 <= k < |s| && IsDigit(s[k]);
        assert s[1..][k - 1] == s[k];
      }
      1 + FirstDigit(s[1..])
  }

  /** The text the search matches in s: from the first digit to the end of the
      match there. */
  function PriceMatch(s: string): (m: string)
    requires HasDigit(s)
    ensures m != [] && IsDigit(m[0]) && IsDigit(m[|m| - 1]) && m[0] == s[FirstDigit(s)]
    ensures forall k :: 0 <= k < |m| ==> IsPriceChar(m[k])
  {
    var i := FirstDigit(s);
    var e := MatchEnd(s, i);
    PriceSlice(s, i, e);
    s[i..e]
  }

  /** A slice of price characters consists of price characters. */
  lemma PriceSlice(s: string, i: nat, e: nat)
    requires i < e <= |s| && IsDigit(s[i]) && IsDigit(s[e - 1])
    requires forall m :: i <= m < e ==> IsPriceChar(s[m])
    ensures s[i..e] != [] && IsDigit(s[i..e][0]) && IsDigit(s[i..e][|s[i..e]| - 1]) && s[i..e][0] == s[i]
    ensures forall k :: 0 <= k < |s[i..e]| ==> IsPriceChar(s[i..e][k])
  {
    forall k | 0 <= k < e - i
      ensures IsPriceChar(s[i..e][k])
    {
      assert s[i..e][k] == s[i + k];
    }
  }

  /** _parse_price_from_badge: "" for a missing or empty badge and for a badge without
      any number; otherwise the matched number with its ' ' characters removed. */
  function ParsePriceFromBadge(badge: Option<string>): (r: string)
    ensures r == "" <==> !Truthy(badge) || !HasDigit(Strip(badge.value))
    ensures r != "" ==> ' ' !in r && IsDigit(r[0]) && IsDigit(r[|r| - 1])
    ensures r != "" ==> r[0] == Strip(badge.value)[FirstDigit(Strip(badge.value))]
    ensures forall k :: 0 <= k < |r| ==> IsPriceChar(r[k])
  {
    if !Truthy(badge) then ""
    else
      var s := Strip(badge.value);
      if !HasDigit(s) then ""
      else
        var m := PriceMatch(s);
        RemoveSpacesKeepsPriceChars(m);
        RemoveChar(m, ' ')
  }

  /** Removing ' ' from a run of price characters leaves price characters. */
  lemma RemoveSpacesKeepsPriceChars(m: string)
    requires forall k :: 0 <= k < |m| ==> IsPriceChar(m[k])
    ensures forall k :: 0 <= k < |RemoveChar(m, ' ')| ==> IsPriceChar(RemoveChar(m, ' ')[k])
  {
    var r := RemoveChar(m, ' ');
    forall k | 0 <= k < |r|
      ensures IsPriceChar(r[k])
    {
      assert r[k] in r;
      var j :| 0 <= j < |m| && m[j] == r[k];
    }
  }

  /** On a run of digits no first-alternative match exists: there is neither a
      thousands group nor a cents part after any prefix. */
  lemma {:induction false} TryLeadOnDigits(s: string, n: nat)
    requires n <= |s|
    requires forall k :: 0 <= k < |s| ==> IsDigit(s[k])
    ensures TryLead(s, 0, n) == None
    decreases n
  {
    if n > 0 {
      assert Groups(s, n) == 0 by {
        assert !GroupAt(s, n);
      }
      assert !CentsAt(s, n);
      TryLeadOnDigits(s, n - 1);
    }
  }

  /** On a run of digits the search matches the whole run. */
  lemma {:induction false} DigitsMatchWhole(s: string)
    requires s != [] && forall k :: 0 <= k < |s| ==> IsDigit(s[k])
    ensures HasDigit(s) && PriceMatch(s) == s
  {
    assert IsDigit(s[0]);
    assert FirstDigit(s) == 0;
    assert DigitsFrom(s, 0) == |s|;
    TryLeadOnDigits(s, if |s| < 3 then |s| else 3);
    assert MatchEnd(s, 0) == |s|;
  }

  /** A badge that is just a whole number is returned as it is. */
  lemma {:induction false} WholeNumberBadge(s: string)
    requires s != [] && forall k :: 0 <= k < |s| ==> IsDigit(s[k])
    ensures ParsePriceFromBadge(Some(s)) == s
  {
    assert IsDigit(s[0]) && IsDigit(s[|s| - 1]);
    StripUnpadded(s);
    DigitsMatchWhole(s);
    assert ' ' !in s by {
      forall k | 0 <= k < |s|
        ensures s[k] != ' '
      {
        assert IsDigit(s[k]);
      }
    }
    RemoveCharAbsent(s, ' ');
  }

  // ---------------------------------------------------------------
  // View model, image fallback and the catalog's liveness check
  // ---------------------------------------------------------------

  const FallbackImage := "/assets/CosaNostraAI.ico"

  /** _safe_image_url: the source image when it is non-empty, else the fallback icon. */
  function SafeImageUrl(sourceImageUrl: Option<string>): (r: string)
    ensures Truthy(sourceImageUrl) ==> r == sourceImageUrl.value
    ensures !Truthy(sourceImageUrl) ==> r == FallbackImage
    ensures r != ""
  {
    if Truthy(sourceImageUrl) then sourceImageUrl.value else FallbackImage
  }

  /** `product.url or ""` */
  function UrlOrEmpty(url: Option<string>): (r: string)
    ensures Truthy(url) ==> r == url.value
    ensures !Truthy(url) ==> r == ""
  {
    if url.Some? then url.value else ""
  }

  datatype ViewModel = ViewModel(id: int, name: string, price: string, imageUrl: string, link: string)

  /** _product_to_viewmodel */
  function ProductToViewModel(id: int, d: ProductData): (r: ViewModel)
    ensures r.id == id && r.name == d.title
    ensures r.price == ParsePriceFromBadge(d.badge) && r.imageUrl == SafeImageUrl(d.sourceImageUrl)
    ensures Truthy(d.url) ==> r.link == d.url.value
    ensures !Truthy(d.url) ==> r.link == ""
  {
    ViewModel(id, d.title, ParsePriceFromBadge(d.badge), SafeImageUrl(d.sourceImageUrl), UrlOrEmpty(d.url))
  }

  /** The catalog's _is_link_alive, on `url or ""`: it also tests for
      "mercadolivre.com.br", a string that already contains "mercadolivre.com", so
      it decides exactly as the guardian's check does. */
  function IsLinkAlive(url: string, a: LinkGuardian.LinkAnswer): (r: bool)
    ensures r == LinkGuardian.IsLinkAlive(Some(url), a)
  {
    if url == "" then false
    else if !Contains(url, "mercadolivre.com") && !Contains(url, "mercadolivre.com.br") then true
    else
      assert Contains(url, "mercadolivre.com.br") ==> Contains(url, "mercadolivre.com") by {
        if Contains(url, "mercadolivre.com.br") {
          assert "mercadolivre.com.br" == "mercadolivre.com" + ".br";
          ContainsPrefix(url, "mercadolivre.com", ".br");
        }
      }
      var resp := if a.head == LinkGuardian.Answered(405) then a.get else a.head;
      !LinkGuardian.Gone(resp)
  }

  // ---------------------------------------------------------------
  // product_detail_page
  // ---------------------------------------------------------------

  /** Whether a row is a related product: the owner's, not the product shown, and
      alive. */
  predicate Related(p: BlackLinkProduct, ownerId: int, productId: int, answers: string -> LinkGuardian.LinkAnswer)
    reads p
  {
    p.ownerId == ownerId && p.id != productId && IsLinkAlive(UrlOrEmpty(p.url), answers(UrlOrEmpty(p.url)))
  }

  /** The related rows, in the order given. */
  function Candidates(rows: seq<BlackLinkProduct>, ownerId: int, productId: int,
                      answers: string -> LinkGuardian.LinkAnswer): (r: seq<BlackLinkProduct>)
    reads rows
    ensures |r| <= |rows|
    ensures forall k :: 0 <= k < |r| ==> r[k] in rows && Related(r[k], ownerId, productId, answers)
    ensures forall k :: 0 <= k < |rows| && Related(rows[k], ownerId, productId, answers) ==> rows[k] in r
  {
    if rows == [] then []
    else
      var rest := Candidates(rows[1..], ownerId, productId, answers);
      if Related(rows[0], ownerId, productId, answers) then [rows[0]] + rest else rest
  }

  /** Filtering keeps decreasing id order. */
  lemma {:induction false} CandidatesDescending(rows: seq<BlackLinkProduct>, ownerId: int, productId: int,
                                                answers: string -> LinkGuardian.LinkAnswer)
    requires IdsDescending(rows)
    ensures IdsDescending(Candidates(rows, ownerId, productId, answers))
  {
    if rows != [] {
      var rest := Candidates(rows[1..], ownerId, productId, answers);
      CandidatesDescending(rows[1..], ownerId, productId, answers);
      forall k | 0 <= k < |rest|
        ensures rows[0].id > rest[k].id
      {
        var m :| 0 <= m < |rows[1..]| && rows[1..][m] == rest[k];
        assert rows[m + 1] == rest[k];
      }
      DescendingCons(rows[0], rest);
    }
  }

  /** A row with a larger id than every row of a descending sequence may lead it. */
  lemma DescendingCons(x: BlackLinkProduct, rest: seq<BlackLinkProduct>)
    requires IdsDescending(rest)
    requires forall k :: 0 <= k < |rest| ==> x.id > rest[k].id
    ensures IdsDescending([x] + rest)
  {
    var c := [x] + rest;
    forall i, j | 0 <= i < j < |c|
      ensures c[i].id > c[j].id
    {
      assert c[j] == rest[j - 1];
      if i > 0 {
        assert c[i] == rest[i - 1];
      }
    }
  }

  /** The "others" of the detail page: the owner's other live products, newest first,
      at most three. */
  function Others(rows: seq<BlackLinkProduct>, ownerId: int, productId: int,
                  answers: string -> LinkGuardian.LinkAnswer): (r: seq<BlackLinkProduct>)
    reads rows
    requires IdsAscending(rows)
    ensures |r| <= 3
    ensures forall k :: 0 <= k < |r| ==> (r[k] in rows && r[k].ownerId == ownerId && r[k].id != productId &&
      IsLinkAlive(UrlOrEmpty(r[k].url), answers(UrlOrEmpty(r[k].url))))
    ensures IdsDescending(r)
  {
    ReverseDescending(rows);
    var c := Candidates(Reverse(rows), ownerId, productId, answers);
    CandidatesDescending(Reverse(rows), ownerId, productId, answers);
    if |c| <= 3 then c else c[..3]
  }

  /** A related product is left out only when three newer ones are shown. */
  lemma {:induction false} OthersNewestFirst(rows: seq<BlackLinkProduct>, ownerId: int, productId: int,
                                             answers: string -> LinkGuardian.LinkAnswer, q: BlackLinkProduct)
    requires IdsAscending(rows)
    requires q in rows && Related(q, ownerId, productId, answers)
    ensures var r := Others(rows, ownerId, productId, answers);
      q in r || (|r| == 3 && forall k :: 0 <= k < 3 ==> r[k].id > q.id)
  {
    var rev := Reverse(rows);
    ReverseDescending(rows);
    var c := Candidates(rev, ownerId, productId, answers);
    CandidatesDescending(rev, ownerId, productId, answers);
    var i :| 0 <= i < |rows| && rows[i] == q;
    assert rev[|rows| - 1 - i] == q;
    assert q in c;
    var j :| 0 <= j < |c| && c[j] == q;
    if j >= 3 {
      forall k | 0 <= k < 3
        ensures c[k].id > q.id
      {
      }
    }
  }

  function ViewModels(ps: seq<BlackLinkProduct>): (r: seq<ViewModel>)
    reads ps
    ensures |r| == |ps|
    ensures forall k :: 0 <= k < |ps| ==> r[k] == ProductToViewModel(ps[k].id, ps[k].Data())
  {
    if ps == [] then [] else [ProductToViewModel(ps[0].id, ps[0].Data())] + ViewModels(ps[1..])
  }

  datatype Detail = Detail(username: string, product: ViewModel, others: seq<ViewModel>)

  /** product_detail_page: the shop owner (created on first visit), 404 when the
      product is missing, belongs to someone else or has a dead link; otherwise its view
      model with up to three related ones. */
  method ProductDetail(users: UserTable, products: ProductTable, username: string, productId: int,
                       answers: string -> LinkGuardian.LinkAnswer)
    returns (r: Result<Detail>, ghost owner: BlackLinkUser?, ghost product: BlackLinkProduct?)
    requires users.Valid() && products.Valid()
    modifies users
    ensures users.Valid()
    ensures owner == null <==> BlackLinks.UsernameKey(username) == []
    ensures owner == null ==> r.Err? && r.error.status == 400 && users.rows == old(users.rows)
    ensures owner != null ==> owner in users.rows && owner.username == BlackLinks.UsernameKey(username)
    ensures owner != null && old(users.HasUsername(BlackLinks.UsernameKey(username))) ==> users.rows == old(users.rows)
    ensures owner != null && !old(users.HasUsername(BlackLinks.UsernameKey(username))) ==>
      (fresh(owner) && users.rows == old(users.rows) + [owner] &&
       owner.ProfileState() == CreatedProfile(owner.username) && owner.PlanState() == CreatedPlan)
    ensures owner != null ==> (product == null <==> !products.HasId(productId))
    ensures product != null ==> product in products.rows && product.id == productId
    ensures owner != null ==> (r.Ok? <==> (product != null && product.ownerId == owner.id &&
      IsLinkAlive(UrlOrEmpty(product.url), answers(UrlOrEmpty(product.url)))))
    ensures owner != null && r.Err? ==> r.error.status == 404
    ensures r.Ok? ==> owner != null && product != null && r.value == Detail(owner.username,
      ProductToViewModel(product.id, product.Data()), ViewModels(Others(products.rows, owner.id, productId, answers)))
  {
    var found := GetOrCreateUser(users, username);
    if found.Err? {
      return Err(found.error), null, null;
    }
    var u := found.value;
    var p := products.FindById(productId);
    if p == null || p.ownerId != u.id {
      return Err(HttpError(404, "product_not_found")), u, p;
    }
    var url := UrlOrEmpty(p.url);
    if !IsLinkAlive(url, answers(url)) {
      return Err(HttpError(404, "product_unavailable")), u, p;
    }
    var vm := ProductToViewModel(p.id, p.Data());
    var others := Others(products.rows, u.id, productId, answers);
    return Ok(Detail(u.username, vm, ViewModels(others))), u, p;
  }
}
