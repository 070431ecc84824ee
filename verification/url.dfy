/**
 * The self-hosted backend's target URL: the configured base with every
 * trailing slash removed (`rstrip('/')`), followed by `/generate`.
 */
module Url {

  const GeneratePath: string := "/generate"
  const DefaultBaseUrl: string := "http://localhost:8000"

  /** `k` slashes. */
  function Slashes(k: nat): (r: string)
    ensures |r| == k && forall i :: 0 <= i < k ==> r[i] == '/'
  {
    seq(k, i => '/')
  }

  /**
   * `s.rstrip('/')`: the longest prefix of `s` that does not end in a slash
   * and after which `s` holds only slashes.
   */
  function TrimTrailingSlashes(s: string): (r: string)
    ensures r <= s
    ensures |r| == 0 || r[|r| - 1] != '/'
    ensures forall i :: |r| <= i < |s| ==> s[i] == '/'
    decreases |s|
  {
    if |s| > 0 && s[|s| - 1] == '/' then TrimTrailingSlashes(s[..|s| - 1]) else s
  }

  /** The three properties of `TrimTrailingSlashes` determine its result. */
  lemma TrimIsUnique(s: string, r: string)
    requires r <= s
    requires |r| == 0 || r[|r| - 1] != '/'
    requires forall i :: |r| <= i < |s| ==> s[i] == '/'
    ensures r == TrimTrailingSlashes(s)
  {
  }

  /** The request target: the trimmed base followed by `/generate`. */
  function GenerateUrl(base: string): (url: string)
    ensures |url| >= |GeneratePath| && url[|url| - |GeneratePath|..] == GeneratePath
    ensures |url| == |GeneratePath| || url[|url| - |GeneratePath| - 1] != '/'
    ensures url[..|url| - |GeneratePath|] <= base
    ensures forall i :: |url| - |GeneratePath| <= i < |base| ==> base[i] == '/'
  {
    TrimTrailingSlashes(base) + GeneratePath
  }

  /** Extra trailing slashes on the base do not change the target. */
  lemma {:induction false} GenerateUrlIgnoresTrailingSlashes(base: string, k: nat)
    ensures GenerateUrl(base + Slashes(k)) == GenerateUrl(base)
  {
    var s := base + Slashes(k);
    var r := TrimTrailingSlashes(base);
    assert r <= s;
    TrimIsUnique(s, r);
  }

  /** Trimming is idempotent: re-normalising an already trimmed base changes nothing. */
  lemma {:induction false} TrimIsIdempotent(s: string)
    ensures TrimTrailingSlashes(TrimTrailingSlashes(s)) == TrimTrailingSlashes(s)
  {
  }

  /** A base with one trailing slash yields no double slash. */
  lemma NormalisesHostWithTrailingSlash()
    ensures GenerateUrl("http://host:8000/") == "http://host:8000/generate"
  {
  }
}
