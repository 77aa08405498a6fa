# Monnify and VTPass provider adapters, modelled in Dafny

This project models the two backend payment-provider adapters of the
repository:

- `MonnifyService` (`backend/services/monnify.js`) is the bank-transfer
  provider adapter. It covers:
  - the bearer-token session: `authenticate`, which logs in with HTTP Basic
    credentials, and `ensureAuthenticated`, a lazy refresh guard run before
    every call;
  - `makeRequest`: the bearer header, the optional body and the error message
    it re-throws;
  - the `responseCode === '0'` envelope check that every domain operation
    applies;
  - the request bodies of the domain operations: reserved account, payment
    initialisation, single payout and bulk payout;
  - the SHA-512 webhook signature: `calculateHash` and `verifyWebhookSignature`.
- `VTPassService` (`backend/services/vtpass.js`) is the value-added-services
  provider adapter. It covers:
  - the per-request SHA-256 signature over `username`, `apiKey` and a fresh
    request id;
  - the headers `makeRequest` sends and its error message;
  - the bodies of the `/pay`, `/merchant-verify` and `/requery` calls;
  - the static service-ID and service-category tables.

The model is functional. The adapters' instance fields are records
(`MonnifySession.Config`, `MonnifySession.Session`, `Vtpass.Config`). Every
asynchronous method is a pure function. Each function takes the outside world
as arguments:

- the provider's HTTP reply (`Http.Reply`: a 2xx reply, a non-2xx reply with a
  body, or no reply at all);
- the clock readings;
- the values `uuidv4()` returns;
- the digest and base64 functions.

It returns the new session, the requests it sent, and a `Result`: either the
value returned or the error thrown.

JavaScript semantics the adapters rely on are made explicit in `Js`:

- truthiness, `||`, and default parameters, which replace `undefined` only;
- `?.` and property reads that throw on `null` and `undefined`;
- template-literal string conversion, and `new Error(v)`, both of which throw
  a TypeError for an object that carries its own `toString` property
  (`Js.Convertible`): a value decoded from JSON never holds a function there;
- numeric coercion with NaN, which throws for the same objects;
- object spread.

Modules:

| file | module | models |
|---|---|---|
| results.dfy | `Results` | `Option` and `Result` |
| js.dfy | `Js` | JavaScript values and the operators above |
| http.dfy | `Http` | the request an adapter sends through axios, and the reply |
| monnify_session.dfy | `MonnifySession` | constructor, `authenticate`, `ensureAuthenticated` |
| monnify_api.dfy | `MonnifyApi` | `makeRequest`, envelope checks, body builders, the domain operations |
| monnify_webhook.dfy | `MonnifyWebhook` | `calculateHash`, `verifyWebhookSignature` |
| vtpass.dfy | `Vtpass` | constructor, `generateSignature`, `makeRequest`, the domain operations |
| vtpass_catalog.dfy | `VtpassCatalog` | `getServiceIDs`, `getServiceCategories` |

Three behaviours of the code are worth knowing before reading the model:

- `bulkPayout` always overwrites every item's `reference` with a new
  `uuidv4()`, including one the caller supplied.
- `createReservedAccount` always generates the account reference, because it
  takes no reference argument at all.
- A failed login does not reach the caller as an authentication error.
  `authenticate` throws a plain `Error` without a `response`, so `makeRequest`
  re-throws it as "Monnify service error" (`MonnifyApi.LoginFailureMasked`).

## Model

| member | source | states |
|---|---|---|
| MonnifySession.Configure | backend/services/monnify.js:5-12 | the base URL is the environment's when set and non-empty, the sandbox URL otherwise; the API key, secret key and contract code are the environment's strings, or undefined when their variables are unset |
| MonnifySession.Authenticate | backend/services/monnify.js:14-40 | sends one Basic-authenticated login; succeeds iff the 2xx reply has `responseCode` "0", a non-nullish `responseBody` and an `expiresIn` that `*` can convert; on success it stores `accessToken` and sets the expiry to `now + expiresIn*1000`; every failure is the single "Failed to authenticate with Monnify" error; the expiry is never changed by a failure, and the token is changed only by the failure that comes after line 30 has already stored the new one |
| MonnifySession.EnsureAuthenticated | backend/services/monnify.js:42-46 | logs in iff the token is falsy or `now >= tokenExpiry`; otherwise sends nothing and leaves token and expiry unchanged; a failure is the authentication error and leaves the expiry unchanged |
| MonnifySession.NoLoginWithinLifetime | backend/services/monnify.js:29-32 | after a login with a truthy token and `expiresIn > 0`, a guard checking at any instant before the expiry (the same instant included) does not log in again |
| MonnifySession.FalsyTokenForcesLogin | backend/services/monnify.js:30-43 | a login reply with an empty or missing `accessToken` makes the very next guard log in again |
| MonnifySession.NaNExpiryNeverRefreshes | backend/services/monnify.js:31-43 | an `expiresIn` that is missing, an object without its own `toString`, or a word of lower-case letters (values JavaScript itself coerces to NaN) makes the expiry NaN; `now >= NaN` is false, so a truthy token is never refreshed |
| MonnifySession.FailedRefreshRetries | backend/services/monnify.js:29-44 | a refresh triggered by a reached expiry that fails leaves that expiry in place, so the next guard, checking no earlier, logs in again, even when the failed login stored a new token |
| MonnifySession.NoLoginWhileValid | backend/services/monnify.js:42-46 | any number of guarded calls that all check while the token is valid send no login and leave the session unchanged |
| MonnifySession.AtMostOneLogin | backend/services/monnify.js:42-46 | if every call after the first checks while the first call's token is valid, the whole sequence logs in at most once, and does so iff the first call needed to |
| MonnifyApi.MakeRequest | backend/services/monnify.js:48-68 | runs the guard first; if the guard fails, or the token cannot be written into the `Bearer` header, it sends only what the guard sent and throws "Monnify service error"; otherwise it sends the call with `Bearer <token>` and a body iff `data` is truthy, and returns the 2xx data; a call the provider rejects with a truthy `responseMessage` throws `new Error` of that message (a TypeError when it cannot be converted), and every other failed call throws "Monnify service error" |
| MonnifyApi.Unwrap | backend/services/monnify.js:86-90 | succeeds with `responseBody` iff `responseCode` is the string "0"; otherwise it throws `new Error` of the truthy `responseMessage`, or the operation's own message; that error is a TypeError exactly when the message is truthy but cannot be converted; a nullish response throws a TypeError |
| MonnifyApi.EnvelopeRoundTrip | backend/services/monnify.js:86-90 | decoding a provider envelope gives back its body for code "0", and for any other code its message, a TypeError when that message cannot be converted, or the fallback when there is none |
| MonnifyApi.ReservedAccountBody | backend/services/monnify.js:71-82 | exact key set, with `bvn` present iff the BVN is truthy; `accountReference` is the generated id; `accountName` is the customer name; the currency defaults to NGN only when omitted; `getAllAvailableBanks` is false; `preferredBanks` is ["035","232"] |
| MonnifyApi.PaymentBody | backend/services/monnify.js:105-116 | exact key set; the caller's amount, customer name and email, reference, description and redirect URL, each unchanged; the configured contract code; currency NGN; payment methods CARD and ACCOUNT_TRANSFER |
| MonnifyApi.SinglePayoutBody | backend/services/monnify.js:180-190 | exact key set; the caller's own amount, reference, narration, destination bank code, account number and account name, each unchanged; the currency defaults to NGN only when omitted; an empty source account |
| MonnifyApi.RewriteItem | backend/services/monnify.js:206-210 | fails with a TypeError iff the item is nullish; otherwise it keeps every property of the item except `reference`, sets `reference` to the generated id, and sets `currency` to the item's own if truthy, else NGN |
| MonnifyApi.RewriteItems | backend/services/monnify.js:206-210 | maps every item to its rewrite, with the `i`-th item getting the `i`-th generated id; keeps the item count; fails iff some item is nullish |
| MonnifyApi.BulkPayoutBody | backend/services/monnify.js:202-211 | keeps the title; adds one generated `batchReference`; gives each item its own later-generated reference, overriding any the caller gave; keeps the item count and every other item field; fails with a TypeError iff `payoutItems` is not an array of non-nullish items |
| MonnifyApi.Payload | backend/services/monnify.js:71-211 | of the data the operations build, only bulk payout's can fail, and only when its body cannot be built; every POST operation passes an object body |
| MonnifyApi.ReadsCarryNoData | backend/services/monnify.js:95-235 | every GET operation passes no data to `makeRequest` |
| MonnifyApi.VerbMatchesPayload | backend/services/monnify.js:84-235 | the method each operation passes agrees with its data: POST exactly when it passes an object, GET exactly when it passes none |
| MonnifyApi.Prepare | backend/services/monnify.js:84-235 | an operation throws a TypeError before `makeRequest` iff an argument its path interpolates cannot be written or its body cannot be built; otherwise it passes a versioned path, its data, and POST exactly when that data is an object |
| MonnifyApi.Path | backend/services/monnify.js:84-235 | every endpoint whose arguments can be written is a versioned API path beginning `/api/v1/` or `/api/v2/` |
| MonnifyApi.DefaultMessage | backend/services/monnify.js:89-240 | every operation's fallback message reads "Failed to ...", so a rejected envelope never throws an empty message |
| MonnifyApi.Invoke | backend/services/monnify.js:48-240 | an operation whose body or path cannot be built throws a TypeError, sends nothing and leaves the session unchanged; a failed login, or a token that cannot be written, sends only what the guard sent and throws "Monnify service error"; otherwise it sends its call with the refreshed token; a rejected or unanswered call throws `new Error` of the provider's truthy `responseMessage`, or "Monnify service error"; a 2xx reply returns `responseBody` iff `responseCode` is "0", throws `new Error` of its truthy `responseMessage` or the operation's own message otherwise, and throws a TypeError when the reply's data is nullish |
| MonnifyApi.InvokeEnvelope | backend/services/monnify.js:86-124 | every domain operation whose call goes out returns `responseBody` iff the 2xx reply's `responseCode` is "0"; otherwise it throws `new Error` of `responseMessage`, or its fixed message when that is falsy; a token that cannot be written stops it with "Monnify service error" |
| MonnifyApi.LoginFailureMasked | backend/services/monnify.js:29-66 | a failed login aborts any operation after sending only the login; the error is "Monnify service error"; the expiry is unchanged, and so is the token unless the login stored one before failing |
| MonnifyApi.ValidTokenReused | backend/services/monnify.js:43-66 | with a valid token, an operation leaves the session unchanged and sends exactly its own call, bearing that token; a token that cannot be written sends nothing and throws "Monnify service error" |
| MonnifyApi.TransactionStatusIsVerify | backend/services/monnify.js:139-141 | `getTransactionStatus` behaves exactly as `verifyTransaction` |
| MonnifyApi.CurrencyDefaultsDiffer | backend/services/monnify.js:180-209 | a single payout keeps an explicit empty currency, while bulk payout turns an empty item currency into NGN |
| MonnifyWebhook.VerifyWebhookSignature | backend/services/monnify.js:155-166 | accepts iff the notification's `transactionHash` equals the digest over its own four fields and the secret; throws a TypeError iff the notification is nullish or the secret or one of those fields cannot be written |
| MonnifyWebhook.CalculateHash | backend/services/monnify.js:155-159 | a digest exists iff all five values can be written into the pre-image; otherwise it throws a TypeError |
| MonnifyWebhook.SignedNotificationVerifies | backend/services/monnify.js:155-166 | a notification signed with the same secret over the same fields is accepted, whatever the digest function, when those values can be written, and throws a TypeError otherwise |
| MonnifyWebhook.WrongHashRejected | backend/services/monnify.js:162-166 | any other hash value, including one that is not a string, is refused, or throws a TypeError when the values cannot be written |
| MonnifyWebhook.VerdictReadsSignedFieldsOnly | backend/services/monnify.js:163-165 | two notifications that agree on the four signed fields and `transactionHash` get the same verdict |
| MonnifyWebhook.PreImageSplitsIntoFields | backend/services/monnify.js:157 | the pre-image is the secret, reference, amount, payment time and payment reference, in that order, separated by single `\|`, with none at either end |
| MonnifyWebhook.SignatureIgnoresFieldBoundaries | backend/services/monnify.js:157-165 | for any strings, moving the part of the transaction reference after a `\|` to the front of the amount gives a different notification with the same verdict under the first one's hash, which is acceptance whenever the secret, time and payment reference can be written |
| MonnifyWebhook.SignatureIgnoresAmountType | backend/services/monnify.js:157-165 | for every integer amount and any other fields, the amount sent as its numeral string instead of as the number gets the same verdict under the same hash, which is acceptance whenever the fields can be written |
| Js.NumeralCoercesBack | backend/services/monnify.js:31 | an `expiresIn` sent as the numeral of a number coerces back to that number |
| Js.NewError | backend/services/monnify.js:66 | `new Error(v)` throws a TypeError instead of building the error exactly when `v` cannot be converted to a string |
| Vtpass.Configure | backend/services/vtpass.js:6-12 | the base URL is the environment's when set and non-empty, the sandbox URL otherwise; the API key, public key, secret key and username are the environment's strings, or undefined when their variables are unset |
| Vtpass.SignaturePreImage | backend/services/vtpass.js:14-18 | the pre-image is the username, then the API key, then the request id, with nothing between them: cutting it at the credentials' length gives both parts back |
| Vtpass.CredentialBoundaryUnbound | backend/services/vtpass.js:16 | without a separator, two different username/API-key splits sign every request id alike |
| Vtpass.Headers | backend/services/vtpass.js:28-35 | exactly the six headers; `request-id` is the drawn id; `signature` is the signature over that same id; the three keys come from the configuration |
| Vtpass.MakeRequest | backend/services/vtpass.js:20-45 | sends the signed headers, and a body iff the data is truthy; returns the 2xx data as it is; a failure throws `new Error` of the provider's truthy `message` (a TypeError when it cannot be converted), else "VTPass service error" |
| Vtpass.TopUpBody | backend/services/vtpass.js:62-83 | exact key set; `billersCode` is the given one if truthy, else the phone |
| Vtpass.Route | backend/services/vtpass.js:47-122 | only a variations lookup whose service id cannot be written fails, with a TypeError; reads send no body and writes an object; every purchase POSTs to `/pay` with the caller's transaction id, service, amount and phone unchanged; a requery POSTs the caller's id to `/requery` |
| Vtpass.Invoke | backend/services/vtpass.js:20-122 | an operation whose route cannot be built throws a TypeError without sending; otherwise it sends its route's method, base URL plus path, the headers of its drawn id and its body iff truthy, returns the 2xx data, and throws the provider's truthy `message` or "VTPass service error" |
| Vtpass.HeadersIndependentOfCall | backend/services/vtpass.js:22-64 | for every call that is sent, the headers depend on the configuration and the drawn id only, never on the body's `request_id`; a POST body is sent unchanged and a GET sends none |
| Vtpass.AirtimeAndDataAlike | backend/services/vtpass.js:62-83 | airtime and data purchases build the same request, a POST to `/pay` |
| Vtpass.BillPaymentBodies | backend/services/vtpass.js:86-110 | electricity and cable TV pass `billersCode` and `variation_code` through unchanged; cable TV's `quantity` defaults to 1 only when omitted; both POST to `/pay` |
| Vtpass.RequeryBody | backend/services/vtpass.js:113-117 | a requery is exactly `{request_id}` POSTed to `/requery` |
| Vtpass.NthCallOwnDraw | backend/services/vtpass.js:22-49 | in a run of calls, the `i`-th call is offered the draw that follows those taken by the sent calls before it |
| Vtpass.DrawsIncrease | backend/services/vtpass.js:22-49 | a call that is sent is offered a draw strictly below that of every later call, so no two sent calls share one |
| Vtpass.InvokeSends | backend/services/vtpass.js:20-49 | a call is sent, with the headers of the id it is offered, exactly when it is not a variations lookup whose service id cannot be written; otherwise it throws a TypeError |
| Vtpass.EachCallOwnRequestId | backend/services/vtpass.js:20-49 | in a run of calls, every call that is sent carries as `request-id` the draw after those of the sent calls before it, with the signature over that id; every other call throws a TypeError |
| VtpassCatalog.ServiceIdRoundTrip | backend/services/vtpass.js:125-162 | every service ID in the table reads back as its own service |
| VtpassCatalog.ServiceIdsDistinct | backend/services/vtpass.js:125-162 | no two services share a service ID |
| VtpassCatalog.ServiceNamedExactlyTable | backend/services/vtpass.js:125-162 | a string names a service iff it is one of the table's IDs |
| VtpassCatalog.ServiceNamesDistinct | backend/services/vtpass.js:127-160 | no two services share a property name |
| VtpassCatalog.DataFor | backend/services/vtpass.js:128-137 | each network's data ID is its airtime ID followed by `-data` |
| VtpassCatalog.DataServicesPaired | backend/services/vtpass.js:134-137 | every data service belongs to some airtime network |
| VtpassCatalog.ElectricityBySuffix | backend/services/vtpass.js:139-146 | the electricity distributors are exactly the services whose ID ends in `-electric` |
| VtpassCatalog.CategoryKeyIsUpperValue | backend/services/vtpass.js:165-174 | each category key is its value in upper case |
| VtpassCatalog.CategoryValuesDistinct | backend/services/vtpass.js:165-174 | no two categories share a value |

## Left out

- HTTP transport is not modelled: axios, status-code handling beyond
  2xx / non-2xx / no reply, timeouts and `console.error` logging. The reply
  is an input.
- The concurrent double refresh in `ensureAuthenticated` is not modelled.
  Each guard here runs to completion before the next one starts.
- SHA-512, SHA-256, base64 and `uuidv4` are function parameters, and nothing
  is assumed about them, injectivity included. The model therefore states
  which values are hashed or drawn, never that they differ.
- Js.ParseNumber: numbers are integers only. Fractional amounts, `Infinity`,
  exponent and hexadecimal numerals, and surrounding whitespace in
  `Number(string)` are not modelled, and such strings coerce to NaN here
  although JavaScript reads them as numbers. A finite result always agrees
  with JavaScript. No property relies on such a string being NaN: the
  NaN-expiry lemma is stated only for values JavaScript also turns into NaN
  (`Js.NotANumeralIsNaN`).
- Js.ToStr: a number is written digit by digit. JavaScript's exponent form
  for magnitudes of 10^21 and above is not modelled. Nor is the rounding of
  integers beyond 2^53, including the sum `now + expiresIn*1000`.
- `Js.Field` reads own properties of objects only, never a string's or an
  array's `length` or index. The adapters never read such keys.
- JSON serialisation of request bodies is not modelled. That includes key
  order and the dropping of `undefined` values. A body is the object the
  adapter builds.
- Webhook idempotency and requery backoff do not exist in these files.
- `Symbol.toPrimitive`, getters and functions inside values are not
  modelled, because a body decoded from JSON holds none. An own `toString`
  or `valueOf` property holding data is modelled: `toString` makes
  conversion throw, and `valueOf` alone is harmless.
