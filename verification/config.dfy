/** Application settings: the legacy per-plan feature table, public-URL assembly and
    the post-initialisation step that fills in the Mercado Pago URLs and refuses a
    bad production configuration. */
module Config {
  import opened Wrappers
  import opened Text

  // ---------------------------------------------------------------
  // PLAN_LIMITS (the legacy feature table; distinct from the catalog's limits
  // and from the plan manager's policies)
  // ---------------------------------------------------------------

  datatype FeatureLimits = FeatureLimits(
    maxProducts: Option<int>,
    autoIngest: bool,
    linkGuardian: bool,
    featuredAllowed: bool)

  /** The keys of PLAN_LIMITS. */
  predicate IsLimitsKey(p: string) {
    p == "free" || p == "pro" || p == "don"
  }

  /** PLAN_LIMITS[p]: None as maximum means unlimited. */
  function PlanLimits(p: string): (r: FeatureLimits)
    requires IsLimitsKey(p)
    ensures r.maxProducts.None? <==> p == "don"
    ensures r.autoIngest == r.linkGuardian == r.featuredAllowed == (p != "free")
  {
    if p == "free" then FeatureLimits(Some(3), false, false, false)
    else if p == "pro" then FeatureLimits(Some(20), true, true, true)
    else FeatureLimits(None, true, true, true)
  }

  // ---------------------------------------------------------------
  // _join_url
  // ---------------------------------------------------------------

  /** The base after trimming, defaulting and scheme prefixing: it always carries a scheme. */
  function NormalizedBase(base: string): (b: string)
    ensures StartsWith(b, "http://") || StartsWith(b, "https://")
    ensures Strip(base) == [] ==> b == "http://localhost"
    ensures Strip(base) != [] && (StartsWith(Strip(base), "http://") || StartsWith(Strip(base), "https://")) ==>
      b == Strip(base)
    ensures Strip(base) != [] && !(StartsWith(Strip(base), "http://") || StartsWith(Strip(base), "https://")) ==>
      b == "http://" + Strip(base)
  {
    var s := Strip(base);
    if s == [] then
      assert "http://localhost"[..7] == "http://";
      "http://localhost"
    else if StartsWith(s, "http://") || StartsWith(s, "https://") then s
    else
      var b := "http://" + s;
      assert b[..7] == "http://";
      b
  }

  /** The path after trimming, with a leading slash added when missing. */
  function NormalizedPath(path: string): (p: string)
    ensures StartsWith(p, "/")
    ensures StartsWith(Strip(path), "/") ==> p == Strip(path)
    ensures !StartsWith(Strip(path), "/") ==> p == "/" + Strip(path)
  {
    var p := Strip(path);
    if StartsWith(p, "/") then p else "/" + p
  }

  /** _join_url(base, path): the normalised base without trailing slashes, then the
      normalised path. The result always begins with a scheme name and a colon. */
  function JoinUrl(base: string, path: string): (r: string)
    ensures StartsWith(r, "http:") || StartsWith(r, "https:")
    ensures EndsWith(r, NormalizedPath(path))
    ensures r == RStripChar(NormalizedBase(base), '/') + NormalizedPath(path)
  {
    var b := NormalizedBase(base);
    SchemeColon(b);
    var r := RStripChar(b, '/') + NormalizedPath(path);
    assert r[|r| - |NormalizedPath(path)|..] == NormalizedPath(path);
    r
  }

  /** Removing trailing slashes keeps every character up to the last one that is not
      a slash. */
  lemma {:induction false} RStripKeepsPrefix(s: string, k: nat)
    requires k < |s| && s[k] != '/'
    ensures k < |RStripChar(s, '/')| && RStripChar(s, '/')[..k + 1] == s[..k + 1]
  {
    var r := RStripChar(s, '/');
    assert r == s[..|r|];
  }

  /** A string with a scheme keeps "http:" or "https:" once trailing slashes are removed,
      whatever follows it. */
  lemma SchemeColon(b: string)
    requires StartsWith(b, "http://") || StartsWith(b, "https://")
    ensures forall t :: StartsWith(RStripChar(b, '/') + t, "http:") || StartsWith(RStripChar(b, '/') + t, "https:")
  {
    var stem := RStripChar(b, '/');
    if StartsWith(b, "https://") {
      assert b[..8] == "https://";
      assert b[5] == ':';
      RStripKeepsPrefix(b, 5);
      assert stem[..6] == b[..6] == "https:";
      forall t ensures StartsWith(stem + t, "https:") {
        assert (stem + t)[..6] == stem[..6];
      }
    } else {
      assert b[..7] == "http://";
      assert b[4] == ':';
      RStripKeepsPrefix(b, 4);
      assert stem[..5] == b[..5] == "http:";
      forall t ensures StartsWith(stem + t, "http:") {
        assert (stem + t)[..5] == stem[..5];
      }
    }
  }

  /** The scheme prefix the normalised base starts with. */
  function Scheme(b: string): string {
    if StartsWith(b, "https://") then "https://" else "http://"
  }

  /** The normalised base names something after its scheme other than slashes. */
  predicate HasHost(base: string) {
    var b := NormalizedBase(base);
    exists i :: |Scheme(b)| <= i < |b| && b[i] != '/'
  }

  /** Removing trailing slashes from a schemed string that names something after its
      scheme keeps the full scheme, whatever is appended afterwards. */
  lemma {:induction false} StemKeepsScheme(b: string, i: nat, t: string)
    requires StartsWith(b, "http://") || StartsWith(b, "https://")
    requires |Scheme(b)| <= i < |b| && b[i] != '/'
    ensures StartsWith(RStripChar(b, '/') + t, Scheme(b))
  {
    var stem := RStripChar(b, '/');
    RStripKeepsPrefix(b, i);
    var n := |Scheme(b)|;
    assert b[..n] == Scheme(b);
    assert stem[..n] == stem[..i + 1][..n];
    assert (stem + t)[..n] == stem[..n];
  }

  /** When the base names a host, the joined URL keeps the full scheme ("http://" or
      "https://"). */
  lemma JoinUrlKeepsScheme(base: string, path: string)
    requires HasHost(base)
    ensures StartsWith(JoinUrl(base, path), Scheme(NormalizedBase(base)))
  {
    var b := NormalizedBase(base);
    var i :| |Scheme(b)| <= i < |b| && b[i] != '/';
    StemKeepsScheme(b, i, NormalizedPath(path));
  }

  /** An empty (or blank) base is replaced by http://localhost. */
  lemma JoinUrlEmptyBase(base: string, path: string)
    requires Strip(base) == []
    ensures JoinUrl(base, path) == "http://localhost" + NormalizedPath(path)
  {
    var b := "http://localhost";
    assert b[|b| - 1] == 't';
    assert RStripChar(b, '/') == b;
  }

  /** A trimmed base with a scheme and no trailing slash is kept whole, host included,
      and the path follows it. */
  lemma JoinUrlPlainBase(base: string, path: string)
    requires base != [] && !IsSpace(base[0]) && !IsSpace(base[|base| - 1]) && base[|base| - 1] != '/'
    requires StartsWith(base, "http://") || StartsWith(base, "https://")
    ensures JoinUrl(base, path) == base + NormalizedPath(path)
  {
    SchemedBase(base);
    assert RStripChar(base, '/') == base;
  }

  /** A base that is a bare scheme loses its slashes to the trailing-slash removal:
      only "http:" is kept in front of the path. */
  lemma JoinUrlBareScheme(path: string)
    ensures JoinUrl("http://", path) == "http:" + NormalizedPath(path)
  {
    SchemedBase("http://");
    BareSchemeStem();
  }

  /** So "http://" joined with a relative path p gives "http:/p": the full scheme
      "http://" is only kept when a host is named. */
  lemma JoinUrlBareSchemeDropsSlash(path: string)
    requires !StartsWith(Strip(path), "/")
    ensures !StartsWith(JoinUrl("http://", path), "http://")
  {
    JoinUrlBareScheme(path);
    var p := Strip(path);
    var r := "http:" + ("/" + p);
    assert JoinUrl("http://", path) == r;
    if |r| > 6 {
      assert r[6] == p[0];
      assert p[..1] != "/";
    }
  }

  /** A trimmed base that already carries a scheme is used as it is. */
  lemma SchemedBase(base: string)
    requires base != [] && !IsSpace(base[0]) && !IsSpace(base[|base| - 1])
    requires StartsWith(base, "http://") || StartsWith(base, "https://")
    ensures NormalizedBase(base) == base
  {
    StripUnpadded(base);
  }

  /** rstrip("/") takes both slashes of a bare scheme. */
  lemma BareSchemeStem()
    ensures RStripChar("http://", '/') == "http:"
  {
    var s := "http://";
    assert RStripChar(s[..6], '/') == RStripChar("http:", '/');
    assert "http:"[4] != '/';
  }

  // ---------------------------------------------------------------
  // Settings.model_post_init
  // ---------------------------------------------------------------

  /** `explicit or _join_url(base, path)`: an explicit non-empty URL wins. */
  function ResolveUrl(explicit: Option<string>, base: string, path: string): (r: string)
    ensures Truthy(explicit) ==> r == explicit.value
    ensures !Truthy(explicit) ==> r == JoinUrl(base, path)
    ensures r != []
  {
    if Truthy(explicit) then explicit.value else JoinUrl(base, path)
  }

  /** Resolving an already resolved URL changes nothing. */
  lemma ResolveUrlStable(explicit: Option<string>, base: string, path: string)
    ensures ResolveUrl(Some(ResolveUrl(explicit, base, path)), base, path) == ResolveUrl(explicit, base, path)
  {
  }

  /** What model_post_init does after filling the URLs: nothing, or raise RuntimeError. */
  datatype StartupCheck = Ready | RuntimeError(message: string)

  /** The production hard-fail checks, token first. */
  function ProdCheck(env: string, accessToken: Option<string>, mpEnv: string): (r: StartupCheck)
    ensures r.Ready? <==> env != "prod" || (Truthy(accessToken) && mpEnv == "production")
    ensures env == "prod" && !Truthy(accessToken) ==> r == RuntimeError("MP_ACCESS_TOKEN missing in production")
    ensures env == "prod" && Truthy(accessToken) && mpEnv != "production" ==>
      r == RuntimeError("MP_ENV must be production in production")
  {
    if env == "prod" then
      if !Truthy(accessToken) then RuntimeError("MP_ACCESS_TOKEN missing in production")
      else if mpEnv != "production" then RuntimeError("MP_ENV must be production in production")
      else Ready
    else Ready
  }

  /** The settings object; the environment's overrides are assignments to its fields. */
  class Settings {
    var env: string
    var appBaseUrl: string
    var mpEnv: string
    var mpAccessToken: Option<string>
    var mpPublicKey: Option<string>
    var mpWebhookSecret: Option<string>
    var mpWebhookPath: string
    var mpSuccessPath: string
    var mpFailurePath: string
    var mpPendingPath: string
    var mpWebhookUrl: Option<string>
    var mpSuccessUrl: Option<string>
    var mpFailureUrl: Option<string>
    var mpPendingUrl: Option<string>

    /** The declared defaults. */
    constructor ()
      ensures env == "dev" && appBaseUrl == "http://localhost" && mpEnv == "test"
      ensures mpAccessToken.None? && mpPublicKey.None? && mpWebhookSecret.None?
      ensures mpWebhookPath == "/webhook/mercadopago" && mpSuccessPath == "/payment/success"
      ensures mpFailurePath == "/payment/failure" && mpPendingPath == "/payment/pending"
      ensures mpWebhookUrl.None? && mpSuccessUrl.None? && mpFailureUrl.None? && mpPendingUrl.None?
    {
      env := "dev";
      appBaseUrl := "http://localhost";
      mpEnv := "test";
      mpAccessToken, mpPublicKey, mpWebhookSecret := None, None, None;
      mpWebhookPath := "/webhook/mercadopago";
      mpSuccessPath := "/payment/success";
      mpFailurePath := "/payment/failure";
      mpPendingPath := "/payment/pending";
      mpWebhookUrl, mpSuccessUrl, mpFailureUrl, mpPendingUrl := None, None, None, None;
    }

    /** model_post_init: each URL keeps an explicit value or is derived from the base
        URL and its path; then, in prod, a missing token or a non-production Mercado
        Pago environment is an error. The URLs are assigned before the checks run, and
        are all non-empty afterwards. */
    method PostInit() returns (r: StartupCheck)
      modifies this`mpWebhookUrl, this`mpSuccessUrl, this`mpFailureUrl, this`mpPendingUrl
      ensures mpWebhookUrl == Some(ResolveUrl(old(mpWebhookUrl), old(appBaseUrl), old(mpWebhookPath)))
      ensures mpSuccessUrl == Some(ResolveUrl(old(mpSuccessUrl), old(appBaseUrl), old(mpSuccessPath)))
      ensures mpFailureUrl == Some(ResolveUrl(old(mpFailureUrl), old(appBaseUrl), old(mpFailurePath)))
      ensures mpPendingUrl == Some(ResolveUrl(old(mpPendingUrl), old(appBaseUrl), old(mpPendingPath)))
      ensures Truthy(mpWebhookUrl) && Truthy(mpSuccessUrl) && Truthy(mpFailureUrl) && Truthy(mpPendingUrl)
      ensures r == ProdCheck(old(env), old(mpAccessToken), old(mpEnv))
    {
      mpWebhookUrl := Some(ResolveUrl(mpWebhookUrl, appBaseUrl, mpWebhookPath));
      mpSuccessUrl := Some(ResolveUrl(mpSuccessUrl, appBaseUrl, mpSuccessPath));
      mpFailureUrl := Some(ResolveUrl(mpFailureUrl, appBaseUrl, mpFailurePath));
      mpPendingUrl := Some(ResolveUrl(mpPendingUrl, appBaseUrl, mpPendingPath));
      if env == "prod" {
        if !Truthy(mpAccessToken) {
          return RuntimeError("MP_ACCESS_TOKEN missing in production");
        }
        if mpEnv != "production" {
          return RuntimeError("MP_ENV must be production in production");
        }
      }
      return Ready;
    }
  }
}
