# trueFeedback decision logic in Dafny

A model of the four pieces of decision logic in the trueFeedback anonymous-feedback
application. Around them is UI and database code. The four pieces are:

- **Access gate** (`proxy.dfy`, module `Proxy`). The edge middleware decides from
  two inputs: whether a session token is present, and the request path. It answers
  redirect-to-dashboard, redirect-to-sign-in or pass-through. The `config.matcher`
  list decides on which paths the middleware runs at all.
- **Sign-up validators** (`signup.dfy`, module `SignUp`). The username rule is
  length 2..20 plus `^[a-zA-Z0-9_]+$`. The password rule is length at least 6.
  The sign-up schema combines them with an email rule. Lengths are JavaScript
  lengths, which count UTF-16 code units. The model counts them explicitly.
- **Verification-code redemption** (`verify_code.dfy`, module `VerifyCode`). Order
  of steps: format gate, lookup of the account by username, then the code/expiry
  decision. There are five outcomes, and the HTTP status depends on the outcome.
  On success `isVerified` is set. Time is an integer count of milliseconds.
- **Accept-messages flag** (`accept_messages.dfy`, module `AcceptMessages`).
  POST and GET act on a store of per-account flags, keyed by account id. The
  session is an optional account id.

`wrappers.dfy` defines the `Option` type the others share.

Session resolution (`getToken`, `auth()`) is a parameter: an `Option` value. So
are the two schemas whose definitions are outside this model, `z.email` and
`verifySchema`. Each is a predicate passed in as a function. The database is a
Dafny `map`.

The expiry test is strict. `src/app/api/verify-code/route.ts:35` compares
`expiry > now`, so at `now == expiry` the code has already expired
(`VerifyCode.ExpiredAtBoundary`).

Status codes are modelled as written, although they differ between endpoints:
- An unknown user at verify-code gets 500.
- A vanished account gets 401 on accept-messages POST and 404 on GET.

## Model

| member | source | states |
|---|---|---|
| Proxy.Gate | src/proxy.ts:5-24 | Redirects to the dashboard exactly when a token is present and the path starts with `/sign-in`, `/sign-up` or `/verify`, or equals `/`. Redirects to sign-in exactly when there is no token and the path starts with `/dashboard`. Passes through otherwise. Only token presence matters: a sign-in redirect never has a token, a dashboard redirect always has one. |
| Proxy.Target | src/proxy.ts:16-20 | The dashboard redirect lands on a protected path that is not an entry path. The sign-in redirect lands on an entry path that is not protected. |
| Proxy.Handle | src/proxy.ts:26-28 | Paths outside the matcher list always pass through. On every matcher path the gate runs and its decision is returned. |
| Proxy.DeployedGateFollowsRouteTable | src/proxy.ts:9-28 | For every token and path, the deployed gate (matcher plus prefix tests) equals a segment-wise route table built independently from the matcher patterns. |
| Proxy.NoRedirectLoop | src/proxy.ts:9-23 | Each redirect target passes through the gate under the same token state. It does so both with and without the matcher, and the matcher covers the target. |
| Proxy.TokenContentsIrrelevant | src/proxy.ts:6-18 | Any two tokens give the same decision on every path. |
| Proxy.PrefixNotSegment | src/proxy.ts:11-14 | The gate tests prefixes, not segments: `/verifyX` and `/sign-inABC` redirect a signed-in user and `/dashboardX` redirects an anonymous one. `/` is an exact test, so `/about` passes. The matcher keeps the gate off the first three paths. |
| Proxy.StartsWithThrough | src/proxy.ts:11-19 | Knowing a longer prefix of a path decides the prefix tests against shorter literals. |
| Proxy.DashboardRouteIsNotEntry | src/proxy.ts:11-27 | Every path the `/dashboard/:path*` pattern admits is protected and is not an entry path. |
| Proxy.VerifyRouteIsEntry | src/proxy.ts:13-27 | Every path the `/verify/:path*` pattern admits is an entry path and is not protected. |
| SignUp.UsernameCharacterisation | src/schemas/signUpSchema.ts:3-7 | A username is accepted if and only if it has 2 to 20 characters, each an ASCII letter, digit or `_`. JavaScript's UTF-16 length equals the character count here. |
| SignUp.CheckUsername | src/schemas/signUpSchema.ts:3-7 | A single pass that counts code units and tests characters returns true exactly when the username rule holds. |
| SignUp.Utf16Length | src/schemas/signUpSchema.ts:5-12 | JavaScript length lies between the character count and twice the character count. |
| SignUp.Utf16LengthAppend | src/schemas/signUpSchema.ts:5-12 | JavaScript length adds up over concatenation. |
| SignUp.SingleUnitLength | src/schemas/signUpSchema.ts:5-12 | On text inside the Basic Multilingual Plane, JavaScript length equals the character count. |
| SignUp.UsernameCharsAreSingleUnit | src/schemas/signUpSchema.ts:7 | Characters the username class admits are all single code units. |
| SignUp.ForeignCharRejected | src/schemas/signUpSchema.ts:7 | A single character outside the class rejects the username, whatever its length. |
| SignUp.ForeignCharExamples | src/schemas/signUpSchema.ts:7 | A username containing a space, `-`, `.` or `é` is rejected. |
| SignUp.EmptyUsernameRejected | src/schemas/signUpSchema.ts:5-7 | The empty username is rejected. |
| SignUp.UsernameLengthBoundaries | src/schemas/signUpSchema.ts:5-6 | For allowed characters, lengths 1 and 21 are rejected and lengths 2 and 20 are accepted. |
| SignUp.PasswordBoundaries | src/schemas/signUpSchema.ts:12 | Six or more characters are always accepted. Two or fewer are always rejected. On Basic Multilingual Plane text the rule is exactly "at least 6", so 5 is rejected and 6 accepted. |
| SignUp.ThreeEmojiPassword | src/schemas/signUpSchema.ts:12 | Three emoji count as six UTF-16 units, so they form a valid password. |
| SignUp.FieldErrors | src/schemas/signUpSchema.ts:9-13 | The username, email and password fields are each reported exactly when their own rule fails. |
| SignUp.SignUpConjunction | src/schemas/signUpSchema.ts:9-13 | Sign-up input is accepted if and only if the username, email and password rules all hold. |
| VerifyCode.StatusOf | src/app/api/verify-code/route.ts:13-56 | Status is 200 exactly on success and 500 exactly for an unknown user. Every other outcome gets 400. |
| VerifyCode.MarkVerified | src/app/api/verify-code/route.ts:38-39 | Marking an account sets `isVerified` and keeps its code and expiry. |
| VerifyCode.Judge | src/app/api/verify-code/route.ts:34-57 | For a found account, the outcome is Verified if and only if the code matches and expiry > now. It is Expired if and only if expiry <= now, whatever the code. It is Mismatch if and only if the code differs and the account has not expired. |
| VerifyCode.Redeem | src/app/api/verify-code/route.ts:10-57 | A format failure gives 400 with the store unchanged. An unknown user gives 500 with the store unchanged. Otherwise the outcome follows Judge. Success sets only that account's `isVerified`. Every failure leaves the store as it was. |
| VerifyCode.RedeemOnlySetsVerified | src/app/api/verify-code/route.ts:34-39 | No account is added or removed, no code or expiry changes, other accounts are untouched, and a verified account stays verified. |
| VerifyCode.FailureKeepsFlag | src/app/api/verify-code/route.ts:46-57 | A failed redemption leaves `isVerified` as it was. |
| VerifyCode.RedeemIdempotent | src/app/api/verify-code/route.ts:34-39 | The code is not consumed. Repeating a successful call returns the same reply and the same store. |
| VerifyCode.RedeemRepeatableUntilExpiry | src/app/api/verify-code/route.ts:34-39 | After a success, the same code succeeds again at any later moment before expiry. |
| VerifyCode.ExpiryIsPermanent | src/app/api/verify-code/route.ts:35-50 | Once a call reports Expired, any later call with any well-formed code reports Expired too. |
| VerifyCode.ExpiredAtBoundary | src/app/api/verify-code/route.ts:35-46 | The boundary is strict: the right code is refused as Expired at `now == expiry` and accepted one millisecond earlier. |
| AcceptMessages.Post | src/app/api/accept-messages/route.ts:6-58 | With no session the reply is 401 and the store is unchanged. For an unknown account it is success false, 401, store unchanged. Otherwise it is 200: the caller's flag is set to the new value, the reply carries that value, and no other account changes. The set of keys is always preserved. |
| AcceptMessages.Get | src/app/api/accept-messages/route.ts:60-105 | With no session the reply is 401. For an unknown account it is 404. Otherwise it is 200 with the caller's stored flag. |
| AcceptMessages.PostThenGet | src/app/api/accept-messages/route.ts:26-93 | A successful POST of v is read back as v by the caller's next GET. |
| AcceptMessages.PostIsolated | src/app/api/accept-messages/route.ts:26-93 | A POST by one user does not change any other user's GET. |
| AcceptMessages.PostIdempotent | src/app/api/accept-messages/route.ts:26-30 | Repeating a POST changes nothing further. Posting back the value a GET just read leaves the store as it was. |
| AcceptMessages.LastPostWins | src/app/api/accept-messages/route.ts:26-30 | Of two POSTs by the same caller, the second decides the store. |
| AcceptMessages.ToggleTwiceRestores | src/app/api/accept-messages/route.ts:26-30 | Posting the negation of the stored flag flips it, and doing that twice restores the store. |
| AcceptMessages.UnauthenticatedIsRefused | src/app/api/accept-messages/route.ts:12-74 | Without a session, both POST and GET answer 401 with no value, and POST leaves the store unchanged. |
| AcceptMessages.MissingAccountStatuses | src/app/api/accept-messages/route.ts:31-87 | For an account that has vanished, POST answers 401 and GET answers 404. |

## Left out

- Session and token resolution (`getToken`, `auth()`, JWT signatures and expiry): a token is an `Option` value and a session is an `Option` of an account id. A session without a user counts as no session.
- `z.email` and `verifySchema`: their definitions are not part of this model, so both are predicate parameters. Zod's error-message texts and how it joins them are not modelled; `SignUp.FieldErrors` keeps only which fields failed.
- The text of each response's `message` is not modelled; the outcome and status are.
- Database access: `dbConnect` and the Mongoose calls are map lookups and updates. The `catch` blocks that turn a thrown exception into a 500 reply are not modelled, and neither is `console.error`.
- Request body parsing: `acceptMessages` is taken to be a boolean and `code` and `username` to be strings. The source does not type-check the body.
- A `verifyCodeExpiry` that does not parse as a date: in JavaScript it compares as NaN, which would count as expired. Expiry is an integer here.
- Proxy.Handle: the matcher is modelled as path equality plus `base` / `base/...` patterns. Next.js trailing-slash normalisation and locale or basePath handling are not modelled.
- Unpaired surrogates: a Dafny `string` cannot hold them. JavaScript counts each as one code unit, so `SignUp.Utf16Length` and `SignUp.ValidPassword` describe well-formed text only. None of them is in the username class, so the username rule is unaffected.
- `NextResponse` and URL construction: a redirect is a `Decision` value with its target path.
- src/app/api/get-messages/route.ts: newest-first ordering is a MongoDB aggregation, and its authentication branch duplicates the accept-messages one.
- The React pages and components (landing page, navbar, message card, the sign-in, sign-up, verify and dashboard pages): rendering and HTTP calls only.
