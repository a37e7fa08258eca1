/** The settings the service reads from its environment once, at start-up
    (server.js:15-22). They never change afterwards. */
module Config {
  import opened JsValues

  /** `process.env` as far as the service looks at it. Each entry is a string
      or absent. */
  datatype Env = Env(
    emailApiKey: Option<string>,      // EMAIL_API_KEY
    gmailUser: Option<string>,        // GMAIL_USER
    gmailAppPassword: Option<string>, // GMAIL_APP_PASSWORD
    fromEmail: Option<string>         // FROM_EMAIL
  )

  /** The sender address `process.env.FROM_EMAIL || GMAIL_USER`: FROM_EMAIL
      when it is set to a non-empty string, otherwise GMAIL_USER exactly as it
      stands in the environment (absent, empty or not). */
  function SenderAddress(env: Env): (r: JsVal)
    ensures IsSet(env.fromEmail) ==> r == JStr(env.fromEmail.value)
    ensures !IsSet(env.fromEmail) ==> r == FromOpt(env.gmailUser)
    ensures Truthy(r) <==> IsSet(env.fromEmail) || IsSet(env.gmailUser)
  {
    Or(FromOpt(env.fromEmail), FromOpt(env.gmailUser))
  }

  /** An empty FROM_EMAIL counts as missing: the sender falls back to the
      Gmail account. */
  lemma EmptyFromEmailFallsBack(env: Env)
    requires env.fromEmail == Some("")
    ensures SenderAddress(env) == FromOpt(env.gmailUser)
  {
  }
}
