/** The API-key middleware (server.js:43-60). It is mounted ahead of every
    route, so it decides each request before any route handler runs. */
module Auth {
  import opened JsValues

  /** What the middleware does with a request: answer 500, answer 401, or
      hand the request on with `next()`. */
  datatype Gate = Misconfigured | Denied | Pass

  /** The middleware's decision from the configured EMAIL_API_KEY and the
      request's `x-api-key` header. It fails closed: with no usable key
      nobody gets through. Otherwise only a header that is exactly the key
      passes. */
  function AuthGate(configuredKey: Option<string>, headerKey: Option<string>): (g: Gate)
    ensures g == Misconfigured <==> !IsSet(configuredKey)
    ensures g == Denied <==> IsSet(configuredKey) && headerKey != configuredKey
    ensures g == Pass <==> IsSet(configuredKey) && headerKey == configuredKey
  {
    var key := FromOpt(configuredKey);
    var apiKey := FromOpt(headerKey);
    StrictEqualsIsEquality(apiKey, key);
    if !Truthy(key) then Misconfigured
    else if !Truthy(apiKey) || !StrictEquals(apiKey, key) then Denied
    else Pass
  }

  /** Once the key is configured, the `!apiKey` test is subsumed by
      `apiKey !== EMAIL_API_KEY`: a missing or empty header can never equal a
      non-empty key. */
  lemma MissingHeaderTestRedundant(configuredKey: Option<string>, headerKey: Option<string>)
    requires IsSet(configuredKey)
    ensures (!Truthy(FromOpt(headerKey)) || !StrictEquals(FromOpt(headerKey), FromOpt(configuredKey)))
            <==> !StrictEquals(FromOpt(headerKey), FromOpt(configuredKey))
  {
  }

  /** The comparison neither trims nor folds case. */
  lemma NoTrimmingNoCaseFolding()
    ensures AuthGate(Some("secret"), Some("secret")) == Pass
    ensures AuthGate(Some("secret"), Some("Secret")) == Denied
    ensures AuthGate(Some("secret"), Some(" secret")) == Denied
    ensures AuthGate(Some("secret"), Some("secret ")) == Denied
    ensures AuthGate(Some("secret"), Some("")) == Denied
    ensures AuthGate(Some("secret"), None) == Denied
  {
  }
}
