# SantimPay client and payment endpoints, modelled in Dafny

This project models the core of a small Express service that sits in front of
the SantimPay payment processor. It has two parts.

- **The SantimPay client** (`SantimpaySdk`). It holds a merchant id and a private
  key, both set once at construction. It builds three kinds of signed-token
  payload: initiate, direct/B2C and get-transaction. Each payload is stamped with
  the current second as `generated`. It builds the request bodies of four
  processor operations: hosted payment (`generatePaymentUrl`), payout
  (`sendToCustomer`), direct payment and status query. It posts each body and
  turns the answer into a result: status 200 is accepted, any other resolved
  status becomes the client's own error, and a caught error is normalised.
- **The payment endpoints** of the server:
  - `POST /api/payments/initiate` validates `orderId` and `amount` by
    JavaScript truthiness, generates `txn_<ms>_<r>`, derives the three redirect
    URLs and the defaults, calls the client, and maps a failure to a status and
    message.
  - `POST /api/payments/callback` echoes `thirdPartyId`.
  - `GET /api/payments/status/:transactionId` wraps the client's status result.

Values are modelled as JavaScript values (`Js.JsValue`: `undefined`, `null`,
booleans, integers, strings, and objects that keep their keys in insertion
order). The model covers truthiness, `a || b`, `v.k` (which throws a TypeError
on a nullish `v`), `v?.k`, `o.k = x`, parameter defaults and
template-literal interpolation. Signing (`signES256`) is a `Signer` parameter
and the HTTP POST is a `Transport` parameter. Both are uninterpreted, and either
may throw. `Date.now()` and `Math.random()` are passed in as a `nat`
millisecond count and a `real` in `[0, 1)`. The initiate handler reads the clock
twice (once for the id, then inside the client for the token), so it takes two
readings.

Each client operation is a method that runs step by step: sign, build the body,
post, check the status, normalise what was thrown. Its postcondition equates the
result with a specification function of the signer and the transport. Lemmas about
those functions state what the source promises.

Two observations come out of the proofs:

- `sendToCustomer` passes five arguments to a four-parameter generator. The
  payout is therefore signed with the merchant id as its `paymentMethod` and the
  payment method as its `phoneNumber`, and the phone number is not signed at all
  (see Findings).
- The client rethrows `error.response.data` rather than the error itself
  whenever that body is truthy. The initiate handler's branch for
  `error.response` (server.js lines 68-70) therefore applies only when the
  processor answered with an empty (falsy) body, in which case the error passes
  through unchanged and its status is replied (`Server.EmptyBodyKeepsStatus`),
  or when the processor's body itself has a `response` field. A processor
  rejection with a body is otherwise answered with status 500 and the body's
  `message` (`Server.RejectionRepliesWith500`).

The code has no transaction store, webhook log, reconciliation, idempotent
creation or at-most-once side effect: the callback only logs and echoes. The
payout's signed payload is discussed under "## Findings".

## Model

| member | source | states |
|---|---|---|
| `Sdk.SantimpaySdk.constructor` | santim_utils/santimpay-sdk.js:6-10 | the merchant id, the key and the base URL are the constructor's arguments |
| `Sdk.Seconds` | santim_utils/santimpay-sdk.js:12 | `generated` is the second in which the clock reading falls: `s*1000 <= now < s*1000+1000` |
| `Sdk.SameStampSameSecond` | santim_utils/santimpay-sdk.js:12 | two readings that share a stamp lie less than 1000 ms apart; readings 1000 ms or more apart never share one |
| `Sdk.SantimpaySdk.InitiatePaymentPayload` | santim_utils/santimpay-sdk.js:11-19 | the initiate payload has exactly the keys amount, paymentReason, merchantId, generated, in that order |
| `Sdk.SantimpaySdk.InitiatePayloadFields` | santim_utils/santimpay-sdk.js:11-19 | the initiate payload carries the amount and reason passed, this client's merchant id and the stamp of the clock |
| `Sdk.SantimpaySdk.DirectPaymentPayload` | santim_utils/santimpay-sdk.js:21-37 | the direct payload has exactly the keys amount, paymentReason, paymentMethod, phoneNumber, merchantId, generated, in that order |
| `Sdk.SantimpaySdk.DirectPayloadFields` | santim_utils/santimpay-sdk.js:21-37 | the direct payload carries its four parameters under their own names, this client's merchant id and the stamp of the clock |
| `Sdk.SantimpaySdk.DirectOrB2CPayload` | santim_utils/santimpay-sdk.js:143-159 | the B2C generator builds a payload with the direct payload's keys, whatever argument list it is given |
| `Sdk.SantimpaySdk.DirectOrB2CPayloadFields` | santim_utils/santimpay-sdk.js:143-159 | the B2C generator binds its four parameters by position from the argument list; a missing one is undefined and extra ones are dropped |
| `Sdk.SantimpaySdk.DirectGeneratorsAgree` | santim_utils/santimpay-sdk.js:143-159 | called with its four parameters, the B2C generator signs the same payload as the direct-payment generator |
| `Sdk.SantimpaySdk.TransactionPayload` | santim_utils/santimpay-sdk.js:38-46 | the status payload has exactly the keys id, merId, generated |
| `Sdk.SantimpaySdk.TransactionPayloadFields` | santim_utils/santimpay-sdk.js:38-46 | the status payload carries the id, the merchant id under `merId` (there is no `merchantId` key) and the stamp of the clock |
| `Sdk.SantimpaySdk.PayloadsAreFresh` | santim_utils/santimpay-sdk.js:11-46 | each of the three payloads over the same fields is equal at two instants if and only if they fall in the same second |
| `Sdk.SantimpaySdk.InitiatePayloadWellFormed` | santim_utils/santimpay-sdk.js:11-19 | the initiate payload is a well-formed object (distinct keys, exactly the mapped ones) |
| `Sdk.SantimpaySdk.DirectPayloadWellFormed` | santim_utils/santimpay-sdk.js:21-37 | the direct payload is a well-formed object |
| `Sdk.SantimpaySdk.TransactionPayloadWellFormed` | santim_utils/santimpay-sdk.js:38-46 | the status payload is a well-formed object |
| `Sdk.SantimpaySdk.PayoutTokenArguments` | santim_utils/santimpay-sdk.js:109-115 | the payout hands the token generator five arguments, the third being this client's merchant id |
| `Sdk.SantimpaySdk.PayoutTokenArgumentsShifted` | santim_utils/santimpay-sdk.js:109-115 | the payout's signed payload has paymentMethod = merchant id and phoneNumber = the payment method, and does not depend on the phone number |
| `Sdk.SantimpaySdk.PayoutSignsWrongPaymentMethod` | santim_utils/santimpay-sdk.js:109-115 | for a concrete payout (telebirr, 0911000000) the signed payment method and phone number differ from the requested ones |
| `Sdk.SantimpaySdk.PayoutTokenPayloadIntended` | santim_utils/santimpay-sdk.js:143-159 | the corrected payout payload signs its own payment method and phone number and equals the direct-payment payload |
| `Sdk.PhoneGuardCases` | santim_utils/santimpay-sdk.js:73 | the guard `phoneNumber && phoneNumber.length > 0` holds for a non-empty string or an object whose `length` compares greater than zero, and for no other value |
| `Sdk.PhoneGuardOnStrings` | santim_utils/santimpay-sdk.js:73 | for a string phone number the guard holds exactly when it is non-empty |
| `Js.Assign` | santim_utils/santimpay-sdk.js:74 | `o.k = x` leaves k an own key, keeps an existing key's place and appends a new key last |
| `Js.AssignFields` | santim_utils/santimpay-sdk.js:74 | after `o.k = x`, k reads x and every other property reads as before |
| `Js.AssignSameValue` | santim_utils/santimpay-sdk.js:186 | assigning to an existing key the value it holds leaves the object unchanged |
| `Sdk.SantimpaySdk.InitiateBaseBody` | santim_utils/santimpay-sdk.js:62-72 | the hosted-payment object literal has exactly the keys id, amount, reason, merchantId, signedToken, the three redirect/notify URLs and cancelRedirectUrl, in that order |
| `Sdk.SantimpaySdk.InitiateBaseBodyFields` | santim_utils/santimpay-sdk.js:62-72 | the literal passes id, amount, reason = paymentReason, the merchant id, the token and the four URLs through, and has no phone number |
| `Sdk.SantimpaySdk.InitiateBody` | santim_utils/santimpay-sdk.js:62-75 | the hosted-payment body has the literal's keys, followed by `phoneNumber` exactly when the guard holds |
| `Sdk.SantimpaySdk.InitiateBodyPhone` | santim_utils/santimpay-sdk.js:73-75 | the body has a `phoneNumber` key if and only if the guard holds, and then it holds the argument |
| `Sdk.SantimpaySdk.InitiateBodyFields` | santim_utils/santimpay-sdk.js:62-75 | the body still passes id, amount, reason, the merchant id, the token and the four URLs through after the phone number is added |
| `Sdk.SantimpaySdk.InitiateBaseBodyWellFormed` | santim_utils/santimpay-sdk.js:62-72 | the hosted-payment object literal is a well-formed object |
| `Sdk.SantimpaySdk.InitiateBodyWellFormed` | santim_utils/santimpay-sdk.js:62-75 | the hosted-payment body is a well-formed object with or without the phone number |
| `Js.Default` | santim_utils/santimpay-sdk.js:54-55 | a defaulted parameter takes its default exactly when the argument is undefined, and is undefined only when both are |
| `Sdk.WithDefaults` | santim_utils/santimpay-sdk.js:54-55 | the phone number and the cancel URL take "" when undefined, and every other argument is unchanged |
| `Sdk.SantimpaySdk.PaymentUrlDefaults` | santim_utils/santimpay-sdk.js:54-75 | with phone number and cancel URL omitted, the body has no `phoneNumber` key and `cancelRedirectUrl` is "" |
| `Sdk.SantimpaySdk.PayoutBody` | santim_utils/santimpay-sdk.js:116-126 | the payout body has exactly the keys id, clientReference, amount, reason, merchantId, signedToken, receiverAccountNumber, notifyUrl, paymentMethod, in that order |
| `Sdk.SantimpaySdk.PayoutBodyFields` | santim_utils/santimpay-sdk.js:116-126 | the payout body has id = clientReference = the transaction id, receiverAccountNumber = the phone number, no `phoneNumber` key, and the other arguments, the merchant id and the token under their keys |
| `Sdk.SantimpaySdk.PayoutBodyWellFormed` | santim_utils/santimpay-sdk.js:116-126 | the payout body is a well-formed object |
| `Sdk.SantimpaySdk.DirectBaseBody` | santim_utils/santimpay-sdk.js:175-184 | the direct body literal has exactly the keys id, amount, reason, merchantId, signedToken, phoneNumber, paymentMethod, notifyUrl, in that order |
| `Sdk.SantimpaySdk.DirectBaseBodyFields` | santim_utils/santimpay-sdk.js:175-184 | the direct body literal always holds the phone number under `phoneNumber`, and the other arguments, the merchant id and the token under their keys |
| `Sdk.SantimpaySdk.DirectBody` | santim_utils/santimpay-sdk.js:175-187 | after the guarded re-assignment the direct body still has the same keys in the same order |
| `Sdk.SantimpaySdk.DirectBodyFields` | santim_utils/santimpay-sdk.js:175-187 | the direct body holds the phone number even when it is empty, and every other field as the literal gave it |
| `Sdk.SantimpaySdk.DirectPhoneAssignmentIsNoOp` | santim_utils/santimpay-sdk.js:185-187 | the guarded re-assignment of the phone number leaves the body unchanged for every input |
| `Sdk.SantimpaySdk.DirectBaseBodyWellFormed` | santim_utils/santimpay-sdk.js:175-184 | the direct body literal is a well-formed object |
| `Sdk.SantimpaySdk.DirectBodyWellFormed` | santim_utils/santimpay-sdk.js:175-187 | the direct body is a well-formed object |
| `Sdk.SantimpaySdk.StatusBody` | santim_utils/santimpay-sdk.js:214-227 | the status body is exactly `{id, merchantId, signedToken}` |
| `Sdk.SantimpaySdk.StatusBodyWellFormed` | santim_utils/santimpay-sdk.js:214-227 | the status body is a well-formed object |
| `Js.Prop` | santim_utils/santimpay-sdk.js:89 | reading a property throws exactly when the value is nullish, otherwise yields the property; the TypeError thrown is a well-formed, non-nullish error without a `response` |
| `Sdk.NormalizeKeepsTypeErrors` | santim_utils/santimpay-sdk.js:89-97 | the TypeError from reading `url` of a missing processor body passes the catch block unchanged |
| `Js.ErrorObject` | santim_utils/santimpay-sdk.js:91 | the client's own error carries its message and no `response` |
| `Sdk.Normalize` | santim_utils/santimpay-sdk.js:93-98 | the catch block throws `error.response.data` when that is truthy, otherwise the error unchanged; what it throws is never nullish |
| `Sdk.NormalizeKeepsOwnErrors` | santim_utils/santimpay-sdk.js:91-97 | an error the client raises itself leaves the catch block unchanged |
| `Sdk.Settle` | santim_utils/santimpay-sdk.js:136-141 | the try/catch passes a result through and throws the normalised error of a failure, never a nullish value |
| `Sdk.Accept` | santim_utils/santimpay-sdk.js:131-135 | status 200 returns the response body; any other status raises the operation's own error, which is non-nullish, has no `response` and passes the catch block unchanged |
| `Sdk.SantimpaySdk.PaymentUrlOutcome` | santim_utils/santimpay-sdk.js:47-99 | `generatePaymentUrl` never throws a nullish value |
| `Sdk.SantimpaySdk.PaymentUrlResult` | santim_utils/santimpay-sdk.js:76-98 | a URL is returned iff the processor answered the body carrying the initiate token with 200 and a body, and the URL is its `url`; another status gives "Failed to initiate payment"; a failure gives the normalised error |
| `Sdk.SantimpaySdk.PayoutOutcome` | santim_utils/santimpay-sdk.js:100-142 | `sendToCustomer` never throws a nullish value |
| `Sdk.SantimpaySdk.DirectPaymentOutcome` | santim_utils/santimpay-sdk.js:160-210 | `directPayment` never throws a nullish value |
| `Sdk.SantimpaySdk.TransactionStatusOutcome` | santim_utils/santimpay-sdk.js:211-246 | `checkTransactionStatus` never throws a nullish value |
| `Sdk.SantimpaySdk.PayoutResult` | santim_utils/santimpay-sdk.js:108-141 | for every signer and transport, the payout throws the normalised error of a signing failure or a rejected post, returns the processor's body verbatim on 200 and throws "Failed to initiate B2C" on any other status |
| `Sdk.SantimpaySdk.DirectPaymentResult` | santim_utils/santimpay-sdk.js:168-209 | for every signer and transport, the direct payment throws the normalised error of a signing failure or a rejected post, returns the processor's body verbatim on 200 and throws "Failed to initiate direct payment" otherwise |
| `Sdk.SantimpaySdk.StatusResult` | santim_utils/santimpay-sdk.js:212-245 | for every signer and transport, the status query throws the normalised error of a signing failure or a rejected post, returns the processor's body verbatim on 200 and throws "Failed to initiate payment" otherwise |
| `Sdk.SantimpaySdk.SigningFailuresNormalisedAlike` | santim_utils/santimpay-sdk.js:93-98 | for every transport, a signer that throws e makes all four operations throw the same value, the normalised e |
| `Sdk.SantimpaySdk.TransportFailuresNormalisedAlike` | santim_utils/santimpay-sdk.js:93-98 | for every signer that returns a token, a transport that rejects with e makes all four operations throw the same value, the normalised e |
| `Sdk.SantimpaySdk.GeneratePaymentUrl` | santim_utils/santimpay-sdk.js:47-99 | the step-by-step operation returns exactly `PaymentUrlOutcome` |
| `Sdk.SantimpaySdk.SendToCustomer` | santim_utils/santimpay-sdk.js:100-142 | the step-by-step operation, five-argument call included, returns exactly `PayoutOutcome` |
| `Sdk.SantimpaySdk.DirectPayment` | santim_utils/santimpay-sdk.js:160-210 | the step-by-step operation, guarded re-assignment included, returns exactly `DirectPaymentOutcome` |
| `Sdk.SantimpaySdk.CheckTransactionStatus` | santim_utils/santimpay-sdk.js:211-246 | the step-by-step operation returns exactly `TransactionStatusOutcome` |
| `Js.Or` | server.js:46 | `a \|\| b` is a when a is truthy and b otherwise, and is truthy exactly when a or b is |
| `Server.RandomSuffix` | server.js:36-38 | the suffix is the floor of random × 1000, so in 0..999 |
| `Text.NatToString` | server.js:36-38 | a clock reading interpolates as a non-empty decimal numeral |
| `Text.IntToString` | server.js:46 | an integer order id interpolates as a non-empty numeral that starts with '-' exactly when it is negative |
| `Server.TransactionIdRoundTrip` | server.js:36-38 | `txn_<ms>_<r>` parses back to exactly the clock reading and the suffix |
| `Server.TransactionIdInjective` | server.js:36-38 | two ids are equal if and only if their clock readings and suffixes are |
| `Server.RedirectUrlCarriesId` | server.js:47-51 | a redirect URL's `transactionId` query value is the id it was built with |
| `Server.PlanInitiate` | server.js:26-51 | the handler answers at once if and only if `orderId` or `amount` is falsy, and then answers 400 "orderId and amount are required" without calling the client |
| `Server.PlanArguments` | server.js:36-51 | a valid request calls the client with id `txn_<ms>_<r>` (r ≤ 999), the same id in all three redirect URLs, the amount unchanged, the callback URL, and the default description and phone number |
| `Server.PaymentInitiated` | server.js:57-61 | the success reply has status 200 and exactly the keys success, paymentUrl, transactionId, holding true, the client's URL and the generated id |
| `Server.ErrorResponse` | server.js:62-79 | an error with a `response` gives its status and `response.data.message`, falling back to the default; otherwise 500 and `error.message` or "Failed to initiate payment" |
| `Server.InitiatePayment` | server.js:24-81 | the handler replies 400 to a falsy order id or amount; otherwise it replies with the client's URL and the generated id, or with the mapped error of the client's failure |
| `Server.InitiateCorrelation` | server.js:43-61 | the id in the posted body, the `transactionId` of the three redirect URLs and the id in the success reply are one generated id |
| `Server.RejectionRepliesWith500` | server.js:68-73 | a processor rejection with a body reaches the caller as status 500 with the processor's `message`, because the client strips the `response` |
| `Server.EmptyBodyKeepsStatus` | server.js:68-70 | a transport error whose response body is empty passes the client's catch unchanged and is replied with the processor's status |
| `Server.ClientErrorRepliesWith500` | server.js:71-73 | the client's own status error (a resolved answer other than 200) is replied 500 with its message |
| `Server.Callback` | server.js:87-109 | the callback replies 200 with exactly the keys status, thirdPartyId, holding "received" and the body's `thirdPartyId`; when the body cannot be destructured it replies 500 with exactly status "error" and the failure message |
| `Server.StatusReport` | server.js:121-125 | the status reply has status 200 and exactly the keys success, transactionId, status, holding true, the id and the client's result unchanged |
| `Server.PaymentStatus` | server.js:115-133 | the status handler wraps the client's result, and replies 500 "Failed to check payment status" to any failure |
| `Server.StatusRepliesProcessorBody` | server.js:119-125 | on a 200 answer the status endpoint replies with the processor's body itself |

## Left out

- The HTTP transport (axios), `PRODUCTION_BASE_URL` and the cryptography module
  (`signES256`, ES256/P-256) are not part of this model. They are parameters: the base URL
  at construction, the signer and the transport at each call. The transport
  may resolve with any status. With axios's default status validation only a
  2xx answer resolves, so the client's own status error covers a 2xx other than
  200. A 4xx or 5xx answer arrives as a rejection and goes through the catch
  block (`Server.RejectionRepliesWith500`, `Server.EmptyBodyKeepsStatus`).
- `Date.now()` and `Math.random()` are parameters. Clock readings before 1970
  (negative) are not modelled.
- Numbers are integers. Floating-point amounts, NaN and the double-precision
  rounding of `Math.random() * 1000` are not modelled.
- JSON arrays are not modelled.
- Prototype properties of values, such as `toString`, are not modelled. `v > 0` on a
  string counts only plain decimal numerals (no whitespace, sign, fraction or hex).
- `new Error(m)` is seen through its `message` only; `name` and `stack` are not
  modelled. The TypeError for reading a nullish value carries V8's wording.
- Definitions without contracts of their own, whose properties the lemmas above
  state: `Js.Truthy`, `Js.Get`, `Js.TypeErrorReading` (`Js.Prop`,
  `Sdk.NormalizeKeepsTypeErrors`), `Js.TemplateString`, `Js.GreaterThanZero`,
  `Sdk.ResponseData`, `Sdk.PhoneGuard` (`Sdk.PhoneGuardCases`), `Sdk.Arg`
  (`Sdk.SantimpaySdk.DirectOrB2CPayloadFields`), `Server.TransactionId`
  (`Server.TransactionIdRoundTrip`, `Server.TransactionIdInjective`) and
  `Server.RedirectUrl` (`Server.RedirectUrlCarriesId`).
- `Sdk.SantimpaySdk.SignedTokenForInitiatePayment`, `SignedTokenForDirectPayment`,
  `SignedTokenForDirectPaymentOrB2C` and `SignedTokenForGetTransaction` simply
  apply the signer to the payload. The payload functions carry the contracts.
- Sdk.SantimpaySdk.constructor: it takes the merchant id and the private key as
  strings. server.js:15-18 passes environment variables, which are `undefined`
  when unset; a client built from an unset variable is not modelled.
- Server.InitiatePayment: the request body is taken as already destructured. A
  nullish `req.body`, which JSON body parsing does not produce, is not modelled.
- Server.ErrorResponse: it requires a non-nullish error. Every client operation
  provably throws a non-nullish value (`Sdk.Settle`), so the handler's catch
  cannot itself throw.
- JSON serialisation of replies (keys holding `undefined` are dropped) is not
  modelled, and neither is Express's handling of a non-numeric status code. Replies
  are the values handed to `res.status(...).json(...)`.
- Logging, `dotenv`, CORS and body-parser middleware, routing, `app.listen`, the
  generic error middleware and the three result pages (server.js:136-159) are
  not modelled.
- models/games.model.js and models/user.model.js are schema declarations enforced
  by the database library, which is not part of this model.
- No transaction store, webhook log, reconciliation state machine or at-most-once
  side effect is modelled, because the code has none.
- Sdk.SantimpaySdk.PayloadsAreFresh: freshness is stated on the payloads. Whether
  distinct payloads give distinct tokens is a property of the signature scheme,
  which is a parameter here.

## Findings

| source | as written | input that shows it | evidently intended | confidence | as-written member | corrected member |
|---|---|---|---|---|---|---|
| santim_utils/santimpay-sdk.js:109-115 | `sendToCustomer` calls the four-parameter B2C token generator with `(amount, paymentReason, this.merchantId, paymentMethod, phoneNumber)`, so the signed `paymentMethod` is the merchant id, the signed `phoneNumber` is the payment method, and the phone number is dropped | amount 100, reason "refund", phone "0911000000", method "telebirr", any merchant id other than "telebirr": the signed payload says paymentMethod = merchant id, phoneNumber = "telebirr" | sign `paymentMethod` and `phoneNumber` of the payout, as the direct payment does | high (not executed) | `Sdk.SantimpaySdk.PayoutSignsWrongPaymentMethod` | `Sdk.SantimpaySdk.PayoutTokenPayloadIntended` |

`Sdk.SantimpaySdk.SendToCustomer` keeps the code's behaviour, because the model
describes what the client sends. Nothing else in the model calls the payout.
