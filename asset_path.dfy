/**
 * utils/path.ts: `getAssetPath`, which turns a site-rooted asset path such as
 * `/images/x.png` into the URL under which the deployed site serves it, by
 * putting the deployment's base path (`NEXT_PUBLIC_BASE_PATH`) in front.
 *
 * The environment variable is read at build time; here it is a parameter,
 * `None` when unset.
 */
module AssetPath {
  import opened Wrappers
  import opened Text

  /** `process.env.NEXT_PUBLIC_BASE_PATH || ''`: an unset and an empty variable both give no base path. */
  function BasePath(env: Option<string>): (b: string)
    ensures b == "" <==> env.None? || env.value == ""
    ensures b != "" ==> env == Some(b)
  {
    if env.Some? && env.value != "" then env.value else ""
  }

  /** `path.startsWith('/') ? path.slice(1) : path`: at most one leading slash is removed. */
  function CleanPath(path: string): (r: string)
    ensures StartsWith(path, "/") ==> "/" + r == path
    ensures !StartsWith(path, "/") ==> r == path
  {
    if StartsWith(path, "/") then path[1..] else path
  }

  /** `getAssetPath(path)` under the base path `basePath` (already defaulted to `''`). */
  function GetAssetPath(basePath: string, path: string): (r: string)
    // a site-rooted path is served under the base path, unchanged otherwise
    ensures StartsWith(path, "/") ==> r == basePath + path
    // a relative path is made site-rooted first
    ensures !StartsWith(path, "/") ==> r == basePath + "/" + path
  {
    if basePath != "" then basePath + "/" + CleanPath(path) else "/" + CleanPath(path)
  }

  /** Every result lies under the base path, with a slash after it. */
  lemma UnderBasePath(basePath: string, path: string)
    ensures StartsWith(GetAssetPath(basePath, path), basePath + "/")
  {
    var r := GetAssetPath(basePath, path);
    var p := basePath + "/";
    if StartsWith(path, "/") {
      assert r == p + path[1..];
    } else {
      assert r == p + path;
    }
    assert r[..|p|] == p;
  }

  /** The part after the base path and its slash is exactly the cleaned path: nothing of `path` is lost. */
  lemma RecoversCleanPath(basePath: string, path: string)
    ensures GetAssetPath(basePath, path)[|basePath| + 1..] == CleanPath(path)
  {
    var r := GetAssetPath(basePath, path);
    assert r == (basePath + "/") + CleanPath(path);
  }

  /** For a relative path, writing one leading slash or leaving it out gives the same URL. */
  lemma LeadingSlashInsensitive(basePath: string, path: string)
    requires !StartsWith(path, "/")
    ensures GetAssetPath(basePath, "/" + path) == GetAssetPath(basePath, path)
  {
    var q := "/" + path;
    assert StartsWith(q, "/") && q[1..] == path;
  }

  /** Only one slash is stripped: a doubled leading slash survives into the URL. */
  lemma DoubleSlashKept(basePath: string, rest: string)
    ensures GetAssetPath(basePath, "//" + rest) == basePath + "//" + rest
  {
    var p := "//" + rest;
    assert p[..1] == "/";
  }

  /** With no base path the result is site-rooted, and applying the function again changes nothing. */
  lemma {:induction false} IdempotentWithoutBase(path: string)
    ensures StartsWith(GetAssetPath("", path), "/")
    ensures GetAssetPath("", GetAssetPath("", path)) == GetAssetPath("", path)
  {
    UnderBasePath("", path);
  }

  /**
   * With a site-rooted base path, applying the function to its own result
   * prefixes the base path a second time, so the URL changes.
   */
  lemma NotIdempotentWithBase(basePath: string, path: string)
    requires StartsWith(basePath, "/") && StartsWith(path, "/")
    ensures GetAssetPath(basePath, GetAssetPath(basePath, path)) == basePath + basePath + path
    ensures GetAssetPath(basePath, GetAssetPath(basePath, path)) != GetAssetPath(basePath, path)
  {
    var once := basePath + path;
    assert once[..1] == basePath[..1];
  }

  /** An absolute URL is not passed through: it is treated as a relative path. */
  lemma AbsoluteUrlNotPassedThrough(basePath: string, url: string)
    requires StartsWith(url, "http://") || StartsWith(url, "https://")
    ensures GetAssetPath(basePath, url) == basePath + "/" + url
  {
    if StartsWith(url, "http://") {
      assert url[..7][0] == 'h';
    } else {
      assert url[..8][0] == 'h';
    }
    assert url[..1] != "/";
  }
}
