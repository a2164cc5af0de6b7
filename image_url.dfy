/**
 * `getFullImageUrl`, which the profile editor and the profile screen each
 * define with the same three cases: a placeholder for a missing URL, an
 * absolute URL as it is, and a relative path appended to the asset URL.
 */
module ImageUrl {
  import opened Js
  import Config

  const Placeholder150: string := "https://via.placeholder.com/150"

  function FullImageUrl(assetUrl: string, url: Option<string>): (r: string)
    ensures r != ""
    ensures Truthy(url) ==> |url.value| <= |r| && r[|r| - |url.value|..] == url.value
  {
    if !Truthy(url) then Placeholder150
    else if StartsWith(url.value, "http") then url.value
    else assetUrl + url.value
  }

  /** Exactly one of the three cases applies, and each gives its own result. */
  lemma ThreeCases(assetUrl: string, url: Option<string>)
    ensures !Truthy(url) ==> FullImageUrl(assetUrl, url) == Placeholder150
    ensures Truthy(url) && StartsWith(url.value, "http") ==> FullImageUrl(assetUrl, url) == url.value
    ensures Truthy(url) && !StartsWith(url.value, "http") ==> FullImageUrl(assetUrl, url) == assetUrl + url.value
  {
  }

  /** A relative path keeps its text, after the asset URL and with no separator added. */
  lemma RelativeKeepsPath(assetUrl: string, url: Option<string>)
    requires Truthy(url) && !StartsWith(url.value, "http")
    ensures var r := FullImageUrl(assetUrl, url);
      |r| == |assetUrl| + |url.value| && StartsWith(r, assetUrl) && r[|assetUrl|..] == url.value
  {
    var r := FullImageUrl(assetUrl, url);
    assert r[..|assetUrl|] == assetUrl;
  }

  /** With an `http` asset URL every result is an absolute URL. */
  lemma AlwaysAbsolute(assetUrl: string, url: Option<string>)
    requires StartsWith(assetUrl, "http")
    ensures StartsWith(FullImageUrl(assetUrl, url), "http")
  {
    var r := FullImageUrl(assetUrl, url);
    if !Truthy(url) {
      assert r[..4] == "http";
    } else if !StartsWith(url.value, "http") {
      assert r[..4] == assetUrl[..4];
    }
  }

  /** With an `http` asset URL, applying the helper to its own result changes nothing. */
  lemma {:induction false} Idempotent(assetUrl: string, url: Option<string>)
    requires StartsWith(assetUrl, "http")
    ensures FullImageUrl(assetUrl, Some(FullImageUrl(assetUrl, url))) == FullImageUrl(assetUrl, url)
  {
    AlwaysAbsolute(assetUrl, url);
  }

  /** With the default configuration a stored path resolves against the backend host. */
  lemma DefaultHostPath(path: string)
    requires path != "" && !StartsWith(path, "http")
    ensures FullImageUrl(Config.AssetUrl(Config.ApiBaseUrl(None)), Some(path))
      == "http://192.168.18.27:8000" + path
  {
    Config.DefaultAssetUrl();
  }
}
