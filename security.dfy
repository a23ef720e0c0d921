/**
 * The two credential checks: the bearer token every endpoint demands, and
 * the configured model API key used when the caller does not supply one.
 */
module Security {
  import opened Common
  import opened Config

  /** `verify_token`: the token is valid when it equals the configured secret. */
  function VerifyToken(settings: Settings, token: string): bool {
    token == settings.apiToken
  }

  /** Exactly one token is accepted: the configured secret. */
  lemma VerifyTokenAcceptsOnlyTheSecret(settings: Settings, t1: string, t2: string)
    ensures VerifyToken(settings, settings.apiToken)
    ensures VerifyToken(settings, t1) && VerifyToken(settings, t2) ==> t1 == t2
    ensures VerifyToken(settings, t1) <==> t1 == settings.apiToken
  {
  }

  const ApiKeyNotSet := "OPENAI_API_KEY not set in environment variables"

  /**
   * With OPENAI_API_KEY unset the settings fall back to the placeholder key,
   * so the lookup succeeds: the ValueError needs the variable set but empty.
   */
  lemma DefaultKeyIsFound()
    ensures GetApiKeyFromEnv(DefaultSettings) == Ok("api-key")
    ensures VerifyToken(DefaultSettings, "your-api-token")
  {
  }

  /**
   * `get_api_key_from_env`: the configured key, or the ValueError raised
   * when it is unset or empty (both are falsy in Python).
   */
  function GetApiKeyFromEnv(settings: Settings): (r: Result<string, Error>)
    ensures r.Err? <==> settings.openaiApiKey.None? || settings.openaiApiKey.value == ""
    ensures r.Err? ==> r.error == Raised(ApiKeyNotSet)
    ensures r.Ok? ==> settings.openaiApiKey == Some(r.value) && r.value != ""
  {
    match settings.openaiApiKey
    case None => Err(Raised(ApiKeyNotSet))
    case Some(key) => if key == "" then Err(Raised(ApiKeyNotSet)) else Ok(key)
  }
}
