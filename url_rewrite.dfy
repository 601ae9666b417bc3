/**
 * The CDN host rewrite applied to a flavor's download URL before it is
 * handed to the transcriber: `re.sub('^https?://vod-cache', 'https://streaming', url, count=1)`.
 * The pattern is anchored at the start of the string, so it matches at most once,
 * and only a URL that begins with one of the two cache prefixes.
 */
module UrlRewrite {

  const HttpCache: string := "http://vod-cache"
  const HttpsCache: string := "https://vod-cache"
  const Streaming: string := "https://streaming"

  /** True when the anchored pattern `^https?://vod-cache` matches url. */
  predicate HasCachePrefix(url: string) {
    HttpCache <= url || HttpsCache <= url
  }

  /** The URL after the substitution; `<=` on strings is "is a prefix of". */
  function RewriteHost(url: string): (r: string)
    ensures !HasCachePrefix(url) ==> r == url
    ensures HasCachePrefix(url) ==> Streaming <= r && |r| <= |url| + 1
  {
    if HttpCache <= url then Streaming + url[|HttpCache|..]
    else if HttpsCache <= url then Streaming + url[|HttpsCache|..]
    else url
  }

  /** Both cache prefixes become the streaming host and the rest of the URL is kept. */
  lemma RewriteReplacesPrefix(rest: string)
    ensures RewriteHost(HttpCache + rest) == Streaming + rest
    ensures RewriteHost(HttpsCache + rest) == Streaming + rest
  {
    assert HttpCache <= HttpCache + rest;
    assert (HttpCache + rest)[|HttpCache|..] == rest;
    assert !(HttpCache <= HttpsCache + rest) by {
      assert (HttpsCache + rest)[4] == 's' != HttpCache[4];
    }
    assert HttpsCache <= HttpsCache + rest;
    assert (HttpsCache + rest)[|HttpsCache|..] == rest;
  }

  /** Every URL that does not start with a cache prefix is left exactly as it was. */
  lemma RewriteKeepsOtherUrls(url: string)
    ensures !HasCachePrefix(url) <==> RewriteHost(url) == url
  {
    if HttpCache <= url {
      NoCachePrefixAfterRewrite(url);
    } else if HttpsCache <= url {
      NoCachePrefixAfterRewrite(url);
    }
  }

  /** What the rewrite returns never matches the pattern again. */
  lemma NoCachePrefixAfterRewrite(url: string)
    ensures HasCachePrefix(url) ==> Streaming <= RewriteHost(url)
    ensures HasCachePrefix(url) ==> !HasCachePrefix(RewriteHost(url))
  {
    if HasCachePrefix(url) {
      var r := RewriteHost(url);
      assert r[..|Streaming|] == Streaming;
      assert !(HttpCache <= r) by {
        assert r[4] == 's' != HttpCache[4];
      }
      assert !(HttpsCache <= r) by {
        assert r[8] == 's' != HttpsCache[8];
      }
    }
  }

  /** Rewriting twice is the same as rewriting once. */
  lemma RewriteIdempotent(url: string)
    ensures RewriteHost(RewriteHost(url)) == RewriteHost(url)
  {
    NoCachePrefixAfterRewrite(url);
    RewriteKeepsOtherUrls(RewriteHost(url));
  }
}
