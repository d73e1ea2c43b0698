/**
 * utils/imageLoader.ts: the custom loader handed to Next.js' `Image`
 * component. It leaves absolute `http://` and `https://` URLs alone and
 * otherwise prefixes the deployment's base path exactly as `getAssetPath`
 * does. The requested width and quality are accepted and ignored.
 */
module ImageLoader {
  import opened Wrappers
  import opened Text
  import opened AssetPath

  /** `src.startsWith('http://') || src.startsWith('https://')`. */
  predicate IsAbsoluteUrl(src: string) {
    StartsWith(src, "http://") || StartsWith(src, "https://")
  }

  /** A site-rooted path is never taken for an absolute URL. */
  lemma RootedNotAbsolute(src: string)
    requires StartsWith(src, "/")
    ensures !IsAbsoluteUrl(src)
  {
    if |src| >= 7 { assert src[..7][0] == '/'; }
    if |src| >= 8 { assert src[..8][0] == '/'; }
  }

  /**
   * `customImageLoader({ src, width, quality })` under the base path
   * `basePath` (already defaulted to `''`); the loader repeats the
   * slash handling of `getAssetPath` in its own code.
   */
  function CustomImageLoader(basePath: string, src: string, width: int, quality: Option<int>): (r: string)
    // absolute URLs are returned as they are
    ensures IsAbsoluteUrl(src) ==> r == src
    // every other source gets the same URL that getAssetPath gives it
    ensures !IsAbsoluteUrl(src) ==> r == GetAssetPath(basePath, src)
  {
    if IsAbsoluteUrl(src) then
      src
    else
      var cleanSrc := if StartsWith(src, "/") then src[1..] else src;
      if basePath != "" then basePath + "/" + cleanSrc else "/" + cleanSrc
  }

  /** The requested width and quality never change the URL. */
  lemma SizeIndependent(basePath: string, src: string, w1: int, w2: int, q1: Option<int>, q2: Option<int>)
    ensures CustomImageLoader(basePath, src, w1, q1) == CustomImageLoader(basePath, src, w2, q2)
  {
  }

  /** A URL the loader produced for an absolute URL is fixed by a second pass, whatever the base path. */
  lemma IdempotentOnUrls(basePath: string, src: string, w: int, q: Option<int>)
    requires IsAbsoluteUrl(src)
    ensures CustomImageLoader(basePath, CustomImageLoader(basePath, src, w, q), w, q) == src
  {
  }

  /** With no base path every produced URL is fixed by a second pass. */
  lemma IdempotentWithoutBase(src: string, w: int, q: Option<int>)
    ensures var r := CustomImageLoader("", src, w, q);
      CustomImageLoader("", r, w, q) == r
  {
    var r := CustomImageLoader("", src, w, q);
    if !IsAbsoluteUrl(src) {
      AssetPath.IdempotentWithoutBase(src);
      assert StartsWith(r, "/");
      RootedNotAbsolute(r);
    }
  }

  /** A site-rooted source is served under the base path. */
  lemma RootedUnderBase(basePath: string, src: string, w: int, q: Option<int>)
    requires StartsWith(src, "/")
    ensures CustomImageLoader(basePath, src, w, q) == basePath + src
  {
    RootedNotAbsolute(src);
  }

  /**
   * With a site-rooted base path, a second pass over the loader's own output
   * prefixes the base path again.
   */
  lemma NotIdempotentWithBase(basePath: string, src: string, w: int, q: Option<int>)
    requires StartsWith(basePath, "/") && StartsWith(src, "/")
    ensures var once := CustomImageLoader(basePath, src, w, q);
      CustomImageLoader(basePath, once, w, q) == basePath + basePath + src && once == basePath + src
  {
    RootedUnderBase(basePath, src, w, q);
    var once := basePath + src;
    assert once[..1] == basePath[..1];
    RootedUnderBase(basePath, once, w, q);
    assert basePath + once == basePath + basePath + src;
  }
}
