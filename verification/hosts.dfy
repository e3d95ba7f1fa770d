/**
 Which backend URLs each ship-it environment may talk to. URLs are opaque
 strings; the only normalisation is dropping trailing '/' characters.
 */
module Hosts {
  import opened Scopes

  /** The staging backend: reserved for staging scopes. */
  const StagingRoot: string := "https://ship-it-dev.allizom.org"

  /** The production backend: reserved for production scopes. */
  const ProductionRoot: string := "https://ship-it.mozilla.org"

  predicate EndsWithSlash(url: string)
  {
    |url| > 0 && url[|url| - 1] == '/'
  }

  /** `url` without any of its trailing '/' characters. */
  function StripTrailingSlash(url: string): (r: string)
    ensures r <= url && !EndsWithSlash(r)
    ensures forall k :: |r| <= k < |url| ==> url[k] == '/'
    decreases |url|
  {
    if EndsWithSlash(url) then StripTrailingSlash(url[..|url| - 1]) else url
  }

  /** Appending a '/' never changes the normal form, and normalising twice is normalising once. */
  lemma StripIgnoresAppendedSlash(url: string)
    ensures StripTrailingSlash(url + "/") == StripTrailingSlash(url)
    ensures StripTrailingSlash(StripTrailingSlash(url)) == StripTrailingSlash(url)
    ensures !EndsWithSlash(url) ==> StripTrailingSlash(url) == url
  {
    var u := url + "/";
    assert EndsWithSlash(u);
    assert u[..|u| - 1] == url;
  }

  /**
   The allow-list of each environment: staging and production accept only
   their own backend, dev accepts any URL that is neither of those.
   */
  predicate HostAllowed(e: Env, apiRoot: string)
    ensures HostAllowed(e, apiRoot) <==>
      && (StripTrailingSlash(apiRoot) == StagingRoot ==> e == Staging)
      && (StripTrailingSlash(apiRoot) == ProductionRoot ==> e == Production)
      && (StripTrailingSlash(apiRoot) != StagingRoot && StripTrailingSlash(apiRoot) != ProductionRoot ==> e == Dev)
  {
    var root := StripTrailingSlash(apiRoot);
    match e
    case Dev => root != StagingRoot && root != ProductionRoot
    case Staging => root == StagingRoot
    case Production => root == ProductionRoot
  }

  /** The environment a backend URL belongs to: a reserved root's owner, dev otherwise. */
  function EnvOfRoot(apiRoot: string): Env
  {
    var root := StripTrailingSlash(apiRoot);
    if root == StagingRoot then Staging
    else if root == ProductionRoot then Production
    else Dev
  }

  /** Every URL is allowed for exactly one environment: the one it belongs to. */
  lemma HostAllowedIffOwner(e: Env, apiRoot: string)
    ensures HostAllowed(e, apiRoot) <==> e == EnvOfRoot(apiRoot)
  {
  }

  /** A trailing '/' on a URL never changes which environments accept it. */
  lemma TrailingSlashIgnored(e: Env, apiRoot: string)
    ensures HostAllowed(e, apiRoot + "/") <==> HostAllowed(e, apiRoot)
  {
  }
}
