/**
 The base path under which every API route is grouped, derived from the
 BASE_URL_PATH configuration value.
 */
module Routes {
  import opened Text

  /** The group prefix for a configured base path: the root for an empty or "/"
      setting, otherwise the setting with one leading slash guaranteed. */
  function NormalizeBasePath(configured: string): (base: string)
    ensures |base| >= 1 && base[0] == '/'
    ensures base == "/" <==> configured == "" || configured == "/"
    ensures configured != "" && configured[0] == '/' && configured != "/" ==> base == configured
    ensures configured != "" && configured[0] != '/' ==> base == "/" + configured
  {
    if configured == "" || configured == "/" then "/"
    else "/" + TrimPrefix(configured, "/")
  }

  /** A normalised base path is a fixed point of normalisation. */
  lemma NormalizeIdempotent(configured: string)
    ensures NormalizeBasePath(NormalizeBasePath(configured)) == NormalizeBasePath(configured)
  {
  }

  /** At most one leading slash is removed before the slash is put back. */
  lemma NormalizeExamples()
    ensures NormalizeBasePath("") == "/"
    ensures NormalizeBasePath("/") == "/"
    ensures NormalizeBasePath("api") == "/api"
    ensures NormalizeBasePath("/api") == "/api"
    ensures NormalizeBasePath("//api") == "//api"
  {
  }
}
