# SacredionMobile App API: a Dafny model of the subscription core

The API sells time-limited access to third-party "CORS" services. A mobile
user registers, logs in and picks a plan for a service. They either pay
through the payment gateway (Paystack) or use the direct "beta" path.
After a successful charge, the gateway's webhook marks the payment as paid
and records a subscription. The webhook then relays a provisioning command
to the target service's `ShareUser.html` endpoint through a small relay
function (deployed twice: as a stand-alone serverless service and as a
Netlify function). The target service is what actually creates the
service-side account.

The model covers:

- **Storage** (`store.dfy`, module `Store`):
  - the tables the controllers change in place, as classes whose `rows` the methods reassign:
    - users;
    - payments;
    - subscriptions, with the unique payment-reference column;
    - API tokens, with auto-increment ids;
  - the read-only plan and service catalogues;
  - the cache that holds one-time codes, with expiry.
- **Text and time** (`decimal.dfy`, `calendar.dfy`):
  - PHP's decimal text of integers and `str_pad`, each with a reading-back function as its partner;
  - Gregorian dates from Unix time and `format('Ymd')`, with a round trip to day numbers.
- **Provisioning** (`provisioning.dfy`):
  - the subscription parameters both paths compute (expiry, the "count" in milliseconds, the capacity);
  - the provisioning URL, with a query parser that recovers its seven fields.
- **Payments** (`payment_controller.dfy`):
  - `initializePayment`;
  - the webhook as a transition of the payments and subscriptions tables;
  - `createSubscription` and the classification of the relay's reply;
  - the browser `callback`.
- **Direct subscriptions and listings** (`subscription_controller.dfy`):
  - `subscribe` (the direct path);
  - `order_history` (a join ordered newest first);
  - `plan` (plans sold for a service).
- **Accounts** (`registration.dfy`, `password_reset.dfy`, `email_verification.dfy`, `session.dfy`):
  - registration with the generated user name;
  - the password-reset code flow;
  - email verification (link and code);
  - login and the profile's active subscriptions.
- **Relay** (`relay.dfy`, `cors_proxy_service.dfy`, `netlify_proxy.dfy`):
  - the two relay handlers;
  - a lemma relating the two deployments;
  - an end-to-end lemma from the PHP caller through the relay.

Network calls, the clock, random draws, the HMAC function, password
hashing and mail delivery are not executed by the model. Each of them is an
input of the operation that uses it:

- a gateway reply;
- a curl result;
- a fetch outcome;
- `now`;
- a sequence of draws;
- a hash string;
- a `mailSent` flag;
- a password-check function.

Framework request validation (`exists:users,id`, `digits:4`, `size:6`, …)
becomes each method's preconditions.

## Model

| member | source | states |
|---|---|---|
| Decimal.ValueOfDec | app/Http/Controllers/PaymentController.php:177 | reading back the decimal text of a number gives the number (the partner of PHP's int-to-string conversion used for `addcnt`/`limitn`) |
| Decimal.IntTextInjective | app/Http/Controllers/SubscriptionController.php:106 | distinct integers, negative ones included, have distinct decimal texts |
| Decimal.PaddedDec | app/Http/Controllers/Auth/MobilePasswordResetController.php:29 | `str_pad` of a number below 10^w to width w has exactly w digits and reads back as the number |
| Decimal.ValueInjective | app/Http/Controllers/Auth/VerifyEmailController.php:63 | two digit strings of equal length with the same value are equal |
| Calendar.CivilFromDays | app/Http/Controllers/PaymentController.php:175-176 | every day number maps to a valid Gregorian date |
| Calendar.CivilRoundTrip | app/Http/Controllers/PaymentController.php:175-176 | converting a day number to a date and back gives the day number again |
| Calendar.AddDays | app/Http/Controllers/PaymentController.php:175 | `addDays(d)` lands d calendar days later at the same time of day |
| Calendar.YmdFields | app/Http/Controllers/PaymentController.php:176 | for years 0-9999 the `Ymd` text is eight digits whose fields read back as year, month and day |
| Provisioning.SubscriptionParams | app/Http/Controllers/PaymentController.php:174-177 | expiry falls `duration` days after today, and the count is days × 86 400 000 (milliseconds, though the source calls it "days in seconds") |
| Provisioning.ExpiryTextIsDate | app/Http/Controllers/SubscriptionController.php:66-67 | the `addexp` text is the date `days` after today, eight digits for years 0-9999 |
| Provisioning.ParseQueryRoundTrip | app/Http/Controllers/PaymentController.php:191-193 | splitting a query built from `&`/`=`-free fields at `&` and `=` recovers the fields in order |
| Provisioning.ProvisioningUrlFields | app/Http/Controllers/SubscriptionController.php:71-73 | the command URL is `{url}/ShareUser.html?` followed by exactly usr, pwd, addusr, addpwd (both the user name), addexp, addcnt, limitn in that order, whenever no credential contains `&` |
| Store.FirstIndex | app/Http/Controllers/PaymentController.php:111 | `where(...)->first()` returns the first matching row, or reports that none matches |
| Store.FindUser | app/Http/Controllers/PaymentController.php:169 | `findOrFail`: the found user has the id; absent exactly when no row has it |
| Store.FindPlan | app/Http/Controllers/PaymentController.php:170 | as FindUser, for plans |
| Store.FindCors | app/Http/Controllers/PaymentController.php:171 | as FindUser, for services |
| Store.PaymentByReference | app/Http/Controllers/PaymentController.php:111 | the payment found carries the reference; none is found exactly when no payment carries it |
| Store.UserByEmail | app/Http/Controllers/Auth/MobilePasswordResetController.php:111 | the user found has the email up to letter case, as the column's case-insensitive collation compares, and no earlier row matches; none is found exactly when no user's email matches |
| Store.UserByEmailIgnoresCase | app/Http/Controllers/Auth/MobilePasswordResetController.php:111 | two spellings of an email that differ only in letter case find the same user |
| Store.SubscriptionTable.Create | database/migrations/2025_03_29_120327_create_subscriptions_table.php:14 | a row is inserted exactly when its payment reference is not taken, and reference uniqueness is kept |
| Store.AppendFreshReference | database/migrations/2025_03_29_120327_create_subscriptions_table.php:14 | appending a row with an untaken reference keeps references unique |
| Store.HasReferenceAppend | database/migrations/2025_03_29_120327_create_subscriptions_table.php:14 | after appending a row, a reference is taken iff it was taken before or is the new row's |
| Store.FilterCounts | app/Http/Controllers/Auth/AuthenticatedSessionController.php:49-51 | a `where` clause keeps each matching row as often as stored and drops every other row |
| Store.TokenTable.RevokeAll | app/Http/Controllers/Auth/AuthenticatedSessionController.php:32 | removes exactly the user's tokens; ids stay strictly increasing in row order (hence unique) and below the next id |
| Store.WithoutUserIncreasing | app/Http/Controllers/Auth/AuthenticatedSessionController.php:32 | deleting one user's tokens leaves the remaining ids strictly increasing in row order |
| Store.TokenTable.Issue | app/Http/Controllers/Auth/AuthenticatedSessionController.php:35 | appends one token with the next id, keeping ids strictly increasing and unique |
| Store.Lookup | app/Http/Controllers/Auth/MobilePasswordResetController.php:65 | a cached value is seen exactly while its expiry instant has not passed |
| PaymentController.VerifyWebhookSignature | app/Http/Controllers/PaymentController.php:282-291 | as written: raises exactly when the signature header is missing, and is true exactly when the header equals the HMAC-SHA512 of the raw body |
| PaymentController.SignatureValid | app/Http/Controllers/PaymentController.php:282-291 | as intended: authentic iff the header is present and equals the HMAC, agreeing with the as-written check whenever that one answers |
| PaymentController.MissingSignatureRaises | app/Http/Controllers/PaymentController.php:290 | without the header the as-written check raises where the intended one answers false; with a header both agree |
| PaymentController.ClassifyRelay | app/Http/Controllers/PaymentController.php:238-264 | a curl error is recognised by PHP truthiness; "delivered" iff there is no error and the decoded reply has a truthy `success` |
| PaymentController.RelayEndToEnd | app/Http/Controllers/PaymentController.php:205-224 | the relayed request is a GET of the command URL with exactly the three default headers, and the controller sees "delivered" iff the target answered 2xx (otherwise "refused"), never tripping the status-code log |
| PaymentController.CreateSubscription | app/Http/Controllers/PaymentController.php:161-280 | the table grows only by one row with the payment's reference, only if that reference was free, and whenever the relay was attempted |
| PaymentController.CreateSubscriptionFor | app/Http/Controllers/PaymentController.php:161-280 | the imperative createSubscription leaves the result and table that CreateSubscription specifies |
| PaymentController.Webhook | app/Http/Controllers/PaymentController.php:93-159 | the payments table keeps its length and only the payment carrying the request's reference can change, and then only to `success`; the subscriptions table can only grow by one row carrying that reference; both only for an authentic, complete `charge.success` |
| PaymentController.HandleWebhook | app/Http/Controllers/PaymentController.php:93-159 | the imperative handler's answer, relay request and both tables are those the Webhook transition specifies |
| PaymentController.OnlyAuthenticChargesChangeState | app/Http/Controllers/PaymentController.php:101-116 | only a correctly signed, complete `charge.success` for a known reference changes a table or relays; a bad signature gets 400, a missing event 500, another event 200 "Webhook received", an unknown reference 404 |
| PaymentController.ChargeCreatesSubscription | app/Http/Controllers/PaymentController.php:125-143 | a good charge marks the payment `success`, appends exactly one subscription (reference, ids, expiry day = today + duration, plan capacity, duration as days limit, created now) and relays the command |
| PaymentController.ChargeGrantsAccessUntilExpiryDay | app/Http/Controllers/PaymentController.php:174-188 | the subscription a processed charge records shows in the user's profile exactly on the days before the charge day + the plan's duration |
| PaymentController.RelayOutcomeNeverRollsBack | app/Http/Controllers/PaymentController.php:238-270 | the tables and the relayed request are the same whatever the relay answers; the answer stays 200 unless the success log raises |
| PaymentController.ProcessedCharge | app/Http/Controllers/PaymentController.php:96-132 | a webhook answered 200 carried a valid signature and a complete `charge.success`, found its payment, marked it `success` and left a subscription with that reference |
| PaymentController.TakenReferenceFails | app/Http/Controllers/PaymentController.php:109-132 | an authentic charge whose payment is already `success` and whose reference already has a subscription answers 500 and changes neither table |
| PaymentController.RedeliveryIsNotIdempotent | app/Http/Controllers/PaymentController.php:109-132 | redelivering a processed charge answers 500 (the unique column refuses a second subscription) and changes neither table |
| PaymentController.WebhookKeepsReferencesUnique | app/Http/Controllers/PaymentController.php:180-188 | no sequence of webhooks gives one payment reference two subscriptions |
| PaymentController.InitializeRequest | app/Http/Controllers/PaymentController.php:38-53 | the gateway is asked for price × 100 (minor unit) for the user's email with user, service and plan ids |
| PaymentController.InitializePayment | app/Http/Controllers/PaymentController.php:25-91 | a pending payment with the gateway reference and the plan price is recorded iff the gateway succeeds with a reference; 200 with both reference and URL, 400 on an unsuccessful status, 500 on an exception (including a missing URL after recording) |
| PaymentController.Callback | app/Http/Controllers/PaymentController.php:293-309 | success page iff a successful verification reports `status === 'success'`; a successful answer without that field, or a transport error, is a server error; otherwise the failure page |
| SubscriptionController.BetaReferenceInjective | app/Http/Controllers/SubscriptionController.php:106 | two direct subscriptions share a reference iff they happen in the same second |
| SubscriptionController.SubscribeStep | app/Http/Controllers/SubscriptionController.php:49-138 | a row is added iff the service answered 200 and the reference `BETA-` + the insert's second is free; the new table is then the old one plus that row, which carries that reference and is stamped at the insert; otherwise the table is unchanged; every answer carries the command URL built at the first clock read |
| SubscriptionController.Subscribe | app/Http/Controllers/SubscriptionController.php:49-138 | the imperative subscribe, with separate clock reads before and after the curl call, leaves the answer and table SubscribeStep specifies, keeping references unique |
| SubscriptionController.SubscribeMatchesPaidPath | app/Http/Controllers/SubscriptionController.php:62-73 | the direct path sends the same command as the paid path and records the same expiry day, capacity, days limit and ids |
| SubscriptionController.SameSecondCollides | app/Http/Controllers/SubscriptionController.php:100-110 | after one recorded direct subscription, another one is recorded iff it is inserted in a different second and its reference was free |
| SubscriptionController.JoinRowsMembers | app/Http/Controllers/SubscriptionController.php:16-18 | a joined row exists iff its subscription is the user's and a payment of that reference has the row's price |
| SubscriptionController.SortNewestFirstSorted | app/Http/Controllers/SubscriptionController.php:19 | the ordering is by creation time, newest first, and is a permutation |
| SubscriptionController.OrderHistory | app/Http/Controllers/SubscriptionController.php:14-27 | the history is ordered newest first and is a permutation of the user's join rows |
| SubscriptionController.OrderHistoryContents | app/Http/Controllers/SubscriptionController.php:14-27 | the history is newest first, the same multiset as the join, and holds exactly the user's paid pairings |
| SubscriptionController.UnpaidSubscriptionsAreHidden | app/Http/Controllers/SubscriptionController.php:17 | a subscription without a payment of its reference (every direct one) never appears in the history |
| SubscriptionController.PlansFor | app/Http/Controllers/SubscriptionController.php:39-47 | a plan is listed iff it is stored and its service list contains the id |
| SubscriptionController.PlansForContents | app/Http/Controllers/SubscriptionController.php:41 | the plans listed are exactly those whose service list contains the id, each as often as stored |
| Registration.Clean | app/Http/Controllers/Auth/RegisteredUserController.php:79 | the cleaned name is no longer than the name and made only of lower-case ASCII letters |
| Registration.Prefix | app/Http/Controllers/Auth/RegisteredUserController.php:79-88 | 1-5 lower-case letters: "user" when nothing is left of the cleaned first name, else its first min(5, n) letters |
| Registration.CleanLowercase | app/Http/Controllers/Auth/RegisteredUserController.php:79 | a name made only of lower-case ASCII letters is left unchanged by the cleaning |
| Registration.Username | app/Http/Controllers/Auth/RegisteredUserController.php:87-103 | the name the draws produce has twelve lower-case letters and starts with the prefix |
| Registration.GenerateUsername | app/Http/Controllers/Auth/RegisteredUserController.php:76-106 | the name is twelve lower-case letters: the prefix followed by one letter per draw |
| Registration.UsernameDeterminedByDraws | app/Http/Controllers/Auth/RegisteredUserController.php:98-103 | for one first name, two names are equal iff the draws they used are equal |
| Registration.CandidateInjective | app/Http/Controllers/Auth/RegisteredUserController.php:41 | the candidates name, name1, name2, … are pairwise distinct |
| Registration.UniqueUserName | app/Http/Controllers/Auth/RegisteredUserController.php:38-43 | the loop ends with the first candidate nobody has, all earlier ones taken |
| Registration.Register | app/Http/Controllers/Auth/RegisteredUserController.php:23-67 | one user is appended under an unused name, with a fresh token; the answer is 201 with the plain-text token |
| PasswordReset.ResetCode | app/Http/Controllers/Auth/MobilePasswordResetController.php:29 | the code is six digits that read back as the draw |
| PasswordReset.ResetCodeInjective | app/Http/Controllers/Auth/MobilePasswordResetController.php:29 | different draws give different codes |
| PasswordReset.ResetKeyInjective | app/Http/Controllers/Auth/MobilePasswordResetController.php:32 | different emails use different cache keys |
| PasswordReset.SentCodeAccepted | app/Http/Controllers/Auth/MobilePasswordResetController.php:32-72 | after sending, a code is accepted iff it is the sent one and under ten minutes have passed |
| PasswordReset.SendingIsPerEmail | app/Http/Controllers/Auth/MobilePasswordResetController.php:32 | sending a code for one email leaves other emails' codes as they were |
| PasswordReset.SendResetLink | app/Http/Controllers/Auth/MobilePasswordResetController.php:21-52 | stores the fresh code for ten minutes, replacing any earlier one; 200, or 500 when the mail fails |
| PasswordReset.VerifyToken | app/Http/Controllers/Auth/MobilePasswordResetController.php:57-88 | 200 iff the stored, unexpired, truthy code is identical to the submitted one; the cache is untouched |
| PasswordReset.ResetPassword | app/Http/Controllers/Auth/MobilePasswordResetController.php:93-142 | 400 on a rejected code, 404 on an unknown email, both changing nothing; otherwise the new hash is stored and the code forgotten |
| PasswordReset.ResetIsOneShot | app/Http/Controllers/Auth/MobilePasswordResetController.php:125 | once forgotten, the code is refused at any instant |
| EmailVerification.KeysNeverClash | app/Http/Controllers/Auth/VerifyEmailController.php:45 | verification codes and reset codes never share a cache key |
| EmailVerification.SentCodeMatches | app/Http/Controllers/Auth/VerifyEmailController.php:42-63 | after sending, four digits match iff they are the code's decimal text and under ten minutes have passed |
| EmailVerification.SendVerificationCode | app/Http/Controllers/Auth/VerifyEmailController.php:37-51 | caches the code for 600 s; 200, or 500 when mail fails |
| EmailVerification.VerifyCode | app/Http/Controllers/Auth/VerifyEmailController.php:53-76 | a matching code stamps `email_verified_at` and is forgotten (200); otherwise 400 with no change |
| EmailVerification.MarkVerified | app/Http/Controllers/Auth/VerifyEmailController.php:20-35 | an unverified user is stamped and the event fires exactly then; the redirect is the intended URL or the dashboard |
| Session.Attempt | app/Http/Controllers/Auth/AuthenticatedSessionController.php:22 | authentication succeeds iff a user's email matches up to letter case and the password checks against that user's hash |
| Session.AttemptIgnoresCase | app/Http/Controllers/Auth/AuthenticatedSessionController.php:22 | a login typed in different letter case authenticates exactly as the stored spelling would |
| Session.Login | app/Http/Controllers/Auth/AuthenticatedSessionController.php:19-42 | wrong credentials give 401 and change nothing; otherwise the user's tokens are replaced by one new token, which is returned |
| Session.LoginLeavesOneToken | app/Http/Controllers/Auth/AuthenticatedSessionController.php:32-35 | after login the user holds exactly the new token and other users' tokens are unchanged |
| Session.ActiveSubscriptions | app/Http/Controllers/Auth/AuthenticatedSessionController.php:49-51 | the profile's list holds exactly the user's subscriptions whose expiry day is after today |
| Session.ActiveSubscriptionsContents | app/Http/Controllers/Auth/AuthenticatedSessionController.php:49-51 | the profile lists exactly the user's subscriptions whose expiry day is after today, each as often as stored |
| Relay.MergeHeaders | cors-proxy-service/functions/cors-proxy.js:47-53 | custom headers override defaults key by key; other defaults are kept; nothing else is added |
| Relay.Complete | cors-proxy-service/functions/cors-proxy.js:57-82 | a returned fetch gives 200 with the envelope (`success` = status in 200-299) whatever the upstream status; a thrown one gives 500 with `success: false` |
| Relay.AfterMethodGate | cors-proxy-service/functions/cors-proxy.js:29-54 | fetches iff the body parses with a truthy `target_url`, as a GET with merged headers; a parse failure is 500, a falsy target 400 |
| ServiceProxy.Decide | cors-proxy-service/functions/cors-proxy.js:5-54 | OPTIONS gets 200 with an empty body, other non-POST methods 405, and every answer carries the three CORS headers |
| ServiceProxy.Handle | cors-proxy-service/functions/cors-proxy.js:3-83 | a relayed fetch gives 200 with the envelope, a thrown fetch 500, always with the CORS headers |
| ServiceProxy.FetchesTargetWithMergedHeaders | cors-proxy-service/functions/cors-proxy.js:45-54 | a valid POST is relayed as a GET of the target with the caller's headers overriding the defaults |
| NetlifyProxy.Decide | netlify/functions/cors-proxy.js:3-32 | every non-POST (OPTIONS included) gets 405; no response headers are set |
| NetlifyProxy.Handle | netlify/functions/cors-proxy.js:3-57 | as ServiceProxy.Handle, without headers |
| NetlifyProxy.AgreesWithService | netlify/functions/cors-proxy.js:5-56 | outside OPTIONS both deployments fetch the same request and give the same status and body |
| NetlifyProxy.PreflightDiffers | netlify/functions/cors-proxy.js:5-10 | a preflight is refused (405) here and answered (200) by the stand-alone service |

## Left out

- Subscription expiry is a day number: the `expiry_date` column is a DATE (database/migrations/2025_03_29_120327_create_subscriptions_table.php:15), so the instant `now()->addDays(...)` is stored as its day, and `expiry_date > Carbon::today()` compares days.
- Subscribe: the clock is read twice: `now` for the expiry and the command, `later` after the curl call for `time()` and `created_at`. Those last two are taken as the same second. In createSubscription no blocking call separates `now()` from the insert, so one instant serves both.
- Network I/O (gateway calls, curl, `fetch`), mail and notifications, logging and events are not performed. Their outcomes are inputs: `GatewayReply`, `VerifyReply`, `CurlOutcome`, `CurlResult`, `FetchOutcome`, `mailSent`.
- The HMAC-SHA512 function, password hashing (`Hash::make`, the check inside `Auth::attempt`) and the token's random part are uninterpreted inputs.
- `rand`/`random_int` draws and the clock (`now()`, `time()`, `Carbon::today()`) are inputs. Time is Unix seconds in UTC; application time zones are not modelled.
- Request validation (required fields, `exists:` rules, `digits:4`, `size:6`, email uniqueness, the password rules) appears only as method preconditions. The 422 answers it produces are not modelled.
- Model attributes are typed as in the model, not as PHP mixed values: plan price, duration and user limit are integers, and `(int)` casts of non-numeric values are not modelled.
- Integers are unbounded. The 64-bit overflow of `addcnt` for durations above about 10^11 days is not modelled.
- Prices are integers. A fractional price and the resulting float `amount` sent to the gateway are not modelled.
- Payments are looked up by a single `reference` field. The source writes the column `payment_reference` (PaymentController.php:64) but queries and reads `reference` (lines 111, 184). The payments table migration is not part of this model, so the model treats the two as one field.
- PaymentController.HandleWebhook: the `paid_at` and `payment_data` columns of the update (lines 125-129) are not among Payment's fillable attributes (Payment.php:10-20) and are dropped by mass assignment. The model stores only the status.
- SubscriptionController.OrderHistory: the joined `payments.price` column is modelled as the payment's amount. The `with(['cors','plan'])` eager loads are not modelled.
- SubscriptionController.Subscribe: the relay is called directly with curl. The stored response body and the curl options (timeouts, TLS verification off, redirects) are not modelled beyond the status and body inputs.
- Webhook payload keys: a missing `event`, `data.reference` or `data.amount` is modelled (each raises, giving 500). Other malformations of the decoded payload are not.
- EmailVerification.LooseEquals: PHP's loose comparison is modelled for cached integers and plain digit strings. Other numeric-string forms (signs, exponents, surrounding whitespace) are not.
- Relay headers are compared as exact object keys. Case-insensitive HTTP header names, `Object.fromEntries(response.headers)`, and a `headers` field that is not an object are not modelled.
- `cors_list` (listing all services), `destroy` (web-session logout), `Auth::login` on registration and the `Registered` event are not modelled.
- routes/api.php binds the webhook route to a method `webhook` (line 76) and binds `handleProxyRequest`/`checkStatus` (lines 84-85). None of these exist in the controllers. Routing is not modelled, and the webhook is modelled as `handleWebhook`.
- UserByEmail: letter case is folded for ASCII only. The collation's equivalences for accented and other non-ASCII letters, and its disregard of trailing spaces, are not modelled. Cache keys are built from the email as typed, so they stay case-sensitive, as in the source.
- MarkVerified: `markEmailAsVerified()` is taken to always succeed; a failed save is not modelled.
- UniqueUserName: existing names are compared exactly; a case-insensitive database collation would matter only for names with upper-case letters, which generated names never contain.
- `redirect()->intended(...)` is modelled by an optional intended URL input.
- The source does not fix the order of history rows created in the same second. The model picks one order; its lemmas state only ordering and permutation.

## Findings

| source | as written | input that shows it | evidently intended | confidence | as-written member | corrected member |
|---|---|---|---|---|---|---|
| app/Http/Controllers/PaymentController.php:282-291 | `hash_equals($signature, ...)` receives null when the `x-paystack-signature` header is absent. It raises a TypeError, which the handler's `catch (\Exception)` (line 148) does not catch, so the framework answers 500 | a webhook POST without the `x-paystack-signature` header | treat the request as not authentic and answer 400 "Invalid signature" with no change | high (not executed) | PaymentController.MissingSignatureRaises | PaymentController.OnlyAuthenticChargesChangeState |
