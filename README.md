# Email relay service: request gate model

This project models the request handling of a small HTTP service that relays
email through a Gmail account. Every request except an `OPTIONS` request,
which the CORS middleware answers first, passes an API-key middleware. The middleware answers 500 "Server misconfigured" when the
service has no `EMAIL_API_KEY`. It answers 401 "Unauthorized" when the
`x-api-key` header is not exactly that key. The `POST /send-email` route then
takes `to`, `subject`, `text` and `html` from the JSON body. It answers 400
"Missing email fields" unless `to` and `subject` are truthy and one of `text`
and `html` is. Otherwise it hands one message to the mail transport. The
message's sender is `FROM_EMAIL`, falling back to `GMAIL_USER`. The reply is
200 `{success: true}` when the transport succeeds, or 500 "Email send failed"
with the transport error's message as `detail`.

The logic is pure: a chain of early returns over settings read once at start-up
and the request's header and body. It is modelled as datatypes, functions and
lemmas in four modules:

- `JsValues` (js_values.dfy): the JavaScript values a JSON body, an
  environment variable or a header can hold. It defines truthiness (`!x`,
  `a || b`) and strict equality on strings, modelled character by character
  and proved to be plain equality.
- `Config` (config.dfy): the environment snapshot and the sender address.
- `Auth` (auth.dfy): the API-key middleware.
- `SendEmail` (send_email.dfy): the field check, the message, the verdict
  before dispatch, the reply from the transport's result, and the whole
  request. `Handle` takes the transport as a function argument and returns
  the reply together with the list of messages given to the transport. This
  makes "never called", "called at most once" and "its result alone decides
  the reply" statable.

The success reply is only `{success: true}`. An empty or missing key fails
closed with 500 rather than disabling authentication.

## Model

| member | source | states |
|---|---|---|
| JsValues.Or | server.js:22 | the JavaScript "or" operator yields its first operand when that is truthy and its second otherwise, so the result is truthy exactly when one of them is |
| JsValues.TruthyIffSet | server.js:46-53 | for an environment or header value, `!x` holds exactly when it is unset or empty |
| JsValues.SameCharsIsEquality | server.js:53 | `!==` on two strings, compared character by character, is exactly inequality of the strings (proved by induction on length) |
| JsValues.StrictEqualsIsEquality | server.js:53 | on primitive values, `===` holds exactly when the values are equal; values of different types never match |
| Config.SenderAddress | server.js:22 | the sender is FROM_EMAIL when it is set and non-empty, otherwise GMAIL_USER as it stands; it is truthy exactly when one of the two is set and non-empty |
| Config.EmptyFromEmailFallsBack | server.js:22 | an empty FROM_EMAIL counts as missing and the sender falls back to GMAIL_USER |
| Auth.AuthGate | server.js:43-60 | 500 exactly when EMAIL_API_KEY is unset or empty; otherwise 401 exactly when the header differs from the key, and pass exactly when it equals it |
| Auth.MissingHeaderTestRedundant | server.js:53 | with a non-empty key, the test "`!apiKey` or `apiKey !== EMAIL_API_KEY`" is equivalent to `apiKey !== EMAIL_API_KEY` alone |
| Auth.NoTrimmingNoCaseFolding | server.js:53-57 | a header differing from the key only in case or surrounding spaces, an empty header and a missing header are all refused; the exact key passes |
| SendEmail.Field | server.js:77 | destructuring yields an object's own property, and `undefined` for an absent property or an array body |
| SendEmail.Validate | server.js:77-81 | the body passes exactly when `to` and `subject` are truthy and `text` or `html` is, and then yields its four fields unchanged |
| SendEmail.BuildMessage | server.js:84-90 | the message carries `to`, `subject`, `text` and `html` unchanged, and FROM_EMAIL (or the GMAIL_USER fallback) as `from` |
| SendEmail.Classify | server.js:43-90 | the four verdicts partition requests: misconfigured exactly when the key is unusable, unauthorized exactly when the header is not the key, missing fields exactly when authenticated with an incomplete body, dispatch exactly when authenticated and complete; a dispatched message copies the body's fields and the sender |
| SendEmail.Reject | server.js:46-81 | a misconfigured server gets 500 with "Server misconfigured" and "EMAIL_API_KEY not loaded", a bad key gets 401 "Unauthorized", an incomplete body gets 400 "Missing email fields" |
| SendEmail.Outcome | server.js:92-98 | the status is 200 exactly when the send succeeded, with `{success: true}`; a failure gives 500 "Email send failed" with the error's message verbatim as detail |
| SendEmail.Handle | server.js:83-98 | the transport is called at most once, exactly when the verdict is dispatch and with that message; its result alone decides the reply; otherwise the reply is the rejection |
| SendEmail.ReplyStatuses | server.js:43-98 | every reply is 200, 400, 401 or 500; 200 exactly when a message was sent and the transport succeeded; 401 and 400 each exactly for their verdict |
| SendEmail.MisconfiguredAnswersEverything | server.js:46-51 | with no usable key, every request gets the same 500 reply whatever its header, body or transport, and nothing is sent |
| SendEmail.AuthBeforeValidation | server.js:43-60 | with a configured key and a wrong header, the reply is 401 whatever the body and transport, never 400, and nothing is sent |
| SendEmail.BadRequestExactly | server.js:79-81 | an authenticated request gets 400 exactly when `to` is falsy, or `subject` is falsy, or both `text` and `html` are falsy |
| SendEmail.TransportUnusedUnlessDispatched | server.js:79-84 | a request that is not dispatched is handled identically whatever the transport does, and nothing is sent |
| SendEmail.OnlyFourFieldsMatter | server.js:77 | two bodies agreeing on `to`, `subject`, `text` and `html` are handled identically |
| SendEmail.ValidationExamples | server.js:79-81 | `text` alone and `html` alone each suffice; an empty `text`, a subject of `0` and an array body are refused |
| SendEmail.SuccessfulSend | server.js:76-92 | an authenticated request with a complete body and a succeeding transport gets 200 `{success: true}`, and the one message sent comes from GMAIL_USER when FROM_EMAIL is unset |

## Left out

- Express set-up, CORS, `app.listen` and PORT (server.js:1-10, 37, 105-107): framework plumbing. The CORS middleware is mounted before the API-key middleware and answers every `OPTIONS` request itself with 204, so those requests never reach the key check; the model covers only requests that do.
- The JSON body parser (server.js:38). It runs before the API-key middleware. So a malformed body or one over 2 MB is answered by the framework before the key is checked. The model starts from the parsed body. Numbers are the parsed doubles, taken as exact reals.
- Bodies the JSON parser never delivers: in its default strict mode it yields only an object or an array. `SendEmail.Request` admits any `JsVal` as body; for `null`, `undefined` or a primitive, the model answers 400 where destructuring would throw (for `null` and `undefined`). These inputs cannot arise from the parser.
- A request with no JSON body at all: the model treats it like an empty object, which fails the field check. This is what Express 4 does, where `req.body` defaults to `{}`. Under Express 5, `req.body` would be `undefined` and destructuring it would throw; that path is not modelled.
- Routes other than `POST /send-email`. The API-key middleware runs for every path (for every method but `OPTIONS`), so `Auth.AuthGate` covers them too, but what Express does after the gate for an unknown path is not modelled.
- Construction of the nodemailer transport and the real `sendMail` network call (server.js:65-71, 84). The transport is a function argument returning `Sent` or `SendFailed(message)`. How nodemailer treats an undefined `from` is not modelled.
- A rejection value that is not an error object (`null`, for instance, which would make `err.message` throw): the transport's failure always carries an optional message.
- Start-up diagnostics and error logging (server.js:27-32, 94): console output only. GMAIL_APP_PASSWORD is kept in the environment snapshot but only the transport uses it.
- Node's HTTP parser strips spaces around header values before the middleware sees them. The model takes the header value as delivered to the middleware, and the middleware itself neither trims nor folds case.
- Asynchronous scheduling and concurrent requests: each request is handled on its own, with no shared mutable state.
