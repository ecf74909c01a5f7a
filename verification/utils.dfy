/** Base-URL normalisation and the environment-derived configuration of the
    coordinator connection. An environment variable is an `Option<string>`:
    `None` when it is unset. */
module Utils {
  import opened Wrappers

  /** Python truthiness of a `str | None`: present and non-empty. */
  predicate Truthy(s: Option<string>) {
    s.Some? && s.value != ""
  }

  /** Python's `a or b` on two `str | None` values. */
  function Or(a: Option<string>, b: Option<string>): (r: Option<string>)
    ensures Truthy(a) ==> r == a
    ensures !Truthy(a) ==> r == b
  {
    if Truthy(a) then a else b
  }

  predicate EndsWith(s: string, suffix: string) {
    |suffix| <= |s| && s[|s| - |suffix|..] == suffix
  }

  predicate AllSlashes(s: string) {
    forall i | 0 <= i < |s| :: s[i] == '/'
  }

  /** `url.rstrip("/")`: the longest prefix of `s` after which only
      slashes follow and which does not itself end with a slash. */
  function StripTrailingSlashes(s: string): (r: string)
    ensures r <= s
    ensures AllSlashes(s[|r|..])
    ensures r == [] || r[|r| - 1] != '/'
    decreases |s|
  {
    if s != [] && s[|s| - 1] == '/' then StripTrailingSlashes(s[..|s| - 1]) else s
  }

  /** The three properties of `StripTrailingSlashes` determine its result. */
  lemma {:induction false} StripTrailingSlashesUnique(s: string, t: string)
    requires t <= s
    requires AllSlashes(s[|t|..])
    requires t == [] || t[|t| - 1] != '/'
    ensures t == StripTrailingSlashes(s)
  {
  }

  const VersionSuffix := "/v1"

  /** `r` is `url` with only its trailing slashes removed, and there was no
      `/v1` segment before them. */
  predicate OnlySlashesRemoved(url: string, r: string) {
    && r <= url
    && AllSlashes(url[|r|..])
    && (r == [] || r[|r| - 1] != '/')
    && !EndsWith(r, VersionSuffix)
  }

  /** `r` is `url` with one `/v1` segment and the slashes after it removed. */
  predicate VersionSegmentRemoved(url: string, r: string) {
    && r <= url
    && |r| + 3 <= |url|
    && url[|r|..|r| + 3] == VersionSuffix
    && AllSlashes(url[|r| + 3..])
  }

  /** `normalize_base_url`: strip every trailing slash, then one trailing
      `/v1` segment if there is one. */
  function NormalizeBaseUrl(url: string): (r: string)
    ensures r <= url
    ensures !EndsWith(url, "/") && !EndsWith(url, VersionSuffix) ==> r == url
    ensures OnlySlashesRemoved(url, r) || VersionSegmentRemoved(url, r)
  {
    var stripped := StripTrailingSlashes(url);
    if EndsWith(stripped, VersionSuffix) then
      var r := stripped[..|stripped| - 3];
      assert url[|r|..|r| + 3] == stripped[|stripped| - 3..];
      assert url[|r| + 3..] == url[|stripped|..];
      assert VersionSegmentRemoved(url, r);
      r
    else
      assert OnlySlashesRemoved(url, stripped);
      stripped
  }

  /** The two cases of the contract leave no freedom: any prefix that fits
      one of them is the normalised URL. */
  lemma NormalizeBaseUrlUnique(url: string, r: string)
    requires OnlySlashesRemoved(url, r) || VersionSegmentRemoved(url, r)
    ensures NormalizeBaseUrl(url) == r
  {
    if OnlySlashesRemoved(url, r) {
      StripTrailingSlashesUnique(url, r);
    } else {
      var t := url[..|r| + 3];
      assert t[|r|..] == VersionSuffix;
      assert url[|t|..] == url[|r| + 3..];
      StripTrailingSlashesUnique(url, t);
      assert t[|t| - 3..] == VersionSuffix;
      assert t[..|t| - 3] == r;
    }
  }

  /** Exactly one `/v1` segment (and any slashes after it) is removed from a
      URL that ends with one. */
  lemma NormalizeRemovesOneVersionSegment(base: string, slashes: string)
    requires AllSlashes(slashes)
    ensures NormalizeBaseUrl(base + VersionSuffix + slashes) == base
  {
    var url := base + VersionSuffix + slashes;
    var t := base + VersionSuffix;
    assert url[..|t|] == t;
    assert url[|t|..] == slashes;
    StripTrailingSlashesUnique(url, t);
    assert t[|t| - 3..] == VersionSuffix;
    assert t[..|t| - 3] == base;
  }

  /** A URL without a trailing `/v1` segment loses exactly its trailing
      slashes. */
  lemma NormalizeStripsSlashes(base: string, slashes: string)
    requires AllSlashes(slashes)
    requires base == [] || base[|base| - 1] != '/'
    requires !EndsWith(base, VersionSuffix)
    ensures NormalizeBaseUrl(base + slashes) == base
  {
    var url := base + slashes;
    assert url[..|base|] == base;
    assert url[|base|..] == slashes;
    StripTrailingSlashesUnique(url, base);
  }

  /** Only one segment: a doubled `/v1/v1` keeps one of them, so the
      normalisation is not idempotent. */
  lemma NormalizeIsNotIdempotent()
    ensures NormalizeBaseUrl("http://c/v1/v1") == "http://c/v1"
    ensures NormalizeBaseUrl(NormalizeBaseUrl("http://c/v1/v1")) == "http://c"
  {
  }

  /** `run_coordinator_url_from_env`, given the value of
      `ARP_RUN_COORDINATOR_URL`. */
  function RunCoordinatorUrlFromEnv(env: Option<string>): (r: Option<string>)
    ensures r.None? <==> !Truthy(env)
    ensures r.Some? ==> r.value == NormalizeBaseUrl(env.value) && r.value <= env.value
  {
    if !Truthy(env) then None else Some(NormalizeBaseUrl(env.value))
  }

  /** `run_coordinator_bearer_token_from_env`, given the value of
      `ARP_RUN_COORDINATOR_BEARER_TOKEN`: the token itself, never altered. */
  function RunCoordinatorBearerTokenFromEnv(env: Option<string>): (r: Option<string>)
    ensures r.None? <==> !Truthy(env)
    ensures r.Some? ==> r == env
  {
    if !Truthy(env) then None else env
  }
}
