/**
 * `formatUrl`: a link shown on the resume is made absolute by putting
 * `https://` in front of it, unless it already names `http` or `https`.
 */
module UrlFormat {
  /** The link already starts with one of the two schemes the function accepts. */
  predicate HasScheme(url: string) {
    "http://" <= url || "https://" <= url
  }

  /**
   * `formatUrl` (src/lib/utils.ts:17-23). The link is never shortened: it is
   * the end of the result, after at most the `https://` the function adds.
   */
  function FormatUrl(url: string): (r: string)
    ensures r == "" <==> url == ""
    ensures r != "" ==> HasScheme(r)
    ensures r == url || r == "https://" + url
    ensures |r| >= |url| && r[|r| - |url|..] == url
  {
    if url == "" then ""
    else if HasScheme(url) then url
    else "https://" + url
  }

  /** A link that already has a scheme is left exactly as it is. */
  lemma FormatUrlKeepsScheme(url: string)
    requires HasScheme(url)
    ensures FormatUrl(url) == url
  {
  }

  /** A link without a scheme gains `https://`, and nothing else changes. */
  lemma FormatUrlAddsHttps(url: string)
    requires url != "" && !HasScheme(url)
    ensures FormatUrl(url) == "https://" + url
  {
  }

  /** Formatting twice is formatting once. */
  lemma FormatUrlIdempotent(url: string)
    ensures FormatUrl(FormatUrl(url)) == FormatUrl(url)
  {
    if url != "" {
      FormatUrlKeepsScheme(FormatUrl(url));
    }
  }
}
