/**
 * The diagnostic endpoint `GET /api/test`: it reports whether the API key is set
 * and shows only a masked prefix of it.
 */
module TestRoute {
  import opened Wrappers
  import opened Strings

  const MaskedLength: nat := 10
  const NotFound := "Not found"

  /** `!!apiKey`: the key is set and not empty. */
  predicate HasApiKey(apiKey: Option<string>) {
    apiKey.Some? && apiKey.value != ""
  }

  /** `apiKey ? apiKey.substring(0, 10) + "..." : "Not found"`. */
  function ApiKeyStart(apiKey: Option<string>): (shown: string)
    ensures HasApiKey(apiKey) ==> shown == Prefix(apiKey.value, MaskedLength) + "..."
    ensures !HasApiKey(apiKey) ==> shown == NotFound
  {
    if apiKey.Some? && apiKey.value != "" then Prefix(apiKey.value, MaskedLength) + "..." else NotFound
  }

  /** At most ten characters of the key are shown, and they are its first ones. */
  lemma MaskRevealsAtMostTen(apiKey: Option<string>)
    ensures |ApiKeyStart(apiKey)| <= MaskedLength + 3
    ensures HasApiKey(apiKey) ==>
              var shown := ApiKeyStart(apiKey);
              EndsWith(shown, "...") && StartsWith(apiKey.value, shown[..|shown| - 3])
  {
  }

  /** The two fields agree: a masked key always ends in "...", which "Not found" does not. */
  lemma HasKeyIffShown(apiKey: Option<string>)
    ensures HasApiKey(apiKey) <==> ApiKeyStart(apiKey) != NotFound
  {
    if HasApiKey(apiKey) {
      var shown := ApiKeyStart(apiKey);
      assert shown[|shown| - 1] == '.';
      assert NotFound[|NotFound| - 1] == 'd';
    }
  }

  datatype Diagnostic = Diagnostic(success: bool, hasApiKey: bool, apiKeyStart: string,
                                   nodeEnv: Option<string>, timestamp: string)

  /** The report of `GET /api/test`; the environment and the clock are inputs. */
  function Get(apiKey: Option<string>, nodeEnv: Option<string>, now: string): (d: Diagnostic)
    ensures d.success
    ensures d.hasApiKey <==> d.apiKeyStart != NotFound
    ensures d.hasApiKey <==> HasApiKey(apiKey)
    ensures d.apiKeyStart == ApiKeyStart(apiKey)
    ensures d.nodeEnv == nodeEnv && d.timestamp == now
  {
    HasKeyIffShown(apiKey);
    Diagnostic(true, HasApiKey(apiKey), ApiKeyStart(apiKey), nodeEnv, now)
  }
}
