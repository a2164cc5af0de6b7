/**
 * Where the backend lives: the API base URL with its build-time fallback, and
 * the asset URL the screens prefix relative image paths with.
 */
module Config {
  import opened Js

  const DefaultApiBaseUrl: string := "http://192.168.18.27:8000/api"

  /** `ENV_API_URL || default`; `env` is the build environment's value, if any. */
  function ApiBaseUrl(env: Option<string>): (r: string)
    ensures Truthy(env) ==> r == env.value
    ensures !Truthy(env) ==> r == DefaultApiBaseUrl
  {
    OrElse(env, DefaultApiBaseUrl)
  }

  /** `API_URL`: the base itself. */
  function ApiUrl(env: Option<string>): string {
    ApiBaseUrl(env)
  }

  /** The API is addressed at the base URL, whichever source it came from. */
  lemma ApiUrlIsBase(env: Option<string>)
    ensures Truthy(env) ==> ApiUrl(env) == env.value
    ensures !Truthy(env) ==> ApiUrl(env) == DefaultApiBaseUrl
  {
  }

  /**
   * `ASSET_URL`: the base with its leftmost `/api` removed. Later occurrences
   * stay, since a string pattern makes `replace` stop at the first match.
   */
  function AssetUrl(base: string): (r: string)
    ensures !Contains(base, "/api") ==> r == base
    ensures Contains(base, "/api") ==> |r| == |base| - 4
    ensures Contains(base, "/api") ==>
      exists k: nat :: FirstOccurrence(base, "/api", k) && r == base[..k] + base[k + 4..]
  {
    RemoveFirst(base, "/api")
  }

  /** With no environment value the assets are served from the default host's root. */
  lemma DefaultAssetUrl()
    ensures AssetUrl(ApiBaseUrl(None)) == "http://192.168.18.27:8000"
  {
    var s := DefaultApiBaseUrl;
    assert OccursAt(s, "/api", 25);
    forall j: nat | j < 25 ensures !OccursAt(s, "/api", j) {
      assert s[j..j + 4][0] == s[j] && s[j..j + 4][1] == s[j + 1] && s[j..j + 4][2] == s[j + 2];
      assert s[j] != '/' || s[j + 1] != 'a' || s[j + 2] != 'p';
    }
    assert FirstOccurrence(s, "/api", 25);
  }
}
