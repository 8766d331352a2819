# auth-system, modelled in Dafny

This project models the core of an Express/Prisma authentication server and of its React client.

The server side covers:

- registration, password sign-in and sign-out in its three modes;
- the list of a user's sessions;
- password reset: the request for a reset link, and the reset itself;
- sessions created in two steps: the row is inserted first, then given its refresh token;
- access and refresh tokens signed with one secret;
- the access-token gate that guards protected routes;
- the Google and GitHub sign-in callbacks, where one address means one account with one provider;
- the request schemas and the error record.

The client side covers the single-flight token refresh in the API client's response interceptor, the form schemas, and the device label shown for a session.

The database becomes the class `Store.Database`, holding three tables:

- users, as a sequence with unique addresses and ids;
- sessions, as a map keyed by id;
- password-reset rows, as a sequence.

The handlers are methods that change the tables step by step. Their contracts state the whole new state of the tables, in terms of specification functions such as `Surviving`, `RowsNotFor` and `SetPassword`. Lemmas then state what those functions promise: ownership, what is deleted and what is left, single use of a reset token, and newest-first order.

Some values come from outside the program. They are parameters of the model:

- `now` and the ids the database assigns;
- password hashing and comparison;
- SHA-256 and the random reset token;
- JWT signing and verification;
- the user-agent parser and the IP geolocation lookup;
- the e-mail pattern.

The client's refresh queue is the class `RefreshQueue.RefreshCoordinator`. Its methods are tied to the pure state machine `OnError`/`OnSettled`/`Step`, over three events: an error response arrives, the refresh returns a token, and the refresh fails. Properties of whole runs are proved on that machine.

All source paths below are relative to the repository root.

## Model

| member | source | states |
|---|---|---|
| Js.Or | server/src/utils/deviceInfo.ts:19-23 | `v \|\| fallback` yields the value exactly when it is present and non-empty |
| Js.Trim | server/src/utils/validation.ts:4 | the trimmed string neither starts nor ends with white space and is no longer than the input |
| Js.TrimStart | server/src/utils/validation.ts:4 | the result is a suffix of the input, and everything dropped is white space |
| Js.TrimEnd | server/src/utils/validation.ts:4 | the result is a prefix of the input, and everything dropped is white space |
| Js.TrimIdempotent | server/src/utils/validation.ts:4 | trimming twice is trimming once |
| Js.TrimAddsNothing | server/src/utils/handleLoginSuccess.ts:21 | a character absent from a string is absent from its trim |
| Js.TrimAppendWhitespace | server/src/utils/deviceInfo.ts:19-21 | white space appended to a string never survives a trim |
| Js.ToLower | server/src/utils/validation.ts:11 | lowering maps each character to its lower-case partner and keeps the length |
| Js.ToLowerNormal | server/src/config/passport.ts:64 | a lowered string holds no upper-case letter, and lowering is idempotent |
| Js.Split | server/src/config/passport.ts:75 | `split` yields at least one piece, and the first piece is the text before the first separator |
| Js.SplitPiecesFree | server/src/config/passport.ts:75 | no piece of a split contains the separator |
| Js.JoinSplit | server/src/config/passport.ts:75-76 | joining the pieces of a split with the separator gives the string back |
| Js.JoinRest | server/src/config/passport.ts:75-76 | joining all pieces but the first gives the text after the first separator |
| Js.RemoveFirst | server/src/middleware/auth.middleware.ts:11 | `replace("Bearer ", "")` removes the first occurrence of the prefix wherever it is, keeping what comes before and after it, and leaves the string alone when the prefix occurs nowhere |
| ApiErrors.NewApiError | server/src/utils/ApiError.ts:8-22 | the constructor defaults: message "Something went wrong", no errors, `success` false, and `code` recorded only when truthy |
| ApiErrors.Fail | server/src/utils/ApiError.ts:8-22 | the two-argument form carries no code and no errors |
| ApiErrors.EmptyCodeIsNoCode | server/src/utils/ApiError.ts:22 | passing "" as the code is the same as passing none |
| Zod.StringField | server/src/utils/validation.ts:6-11 | a string field runs its checks on a string, and any other value gives one invalid-type issue |
| Zod.OptionalBoolean | server/src/utils/validation.ts:33 | an optional boolean accepts exactly undefined or a boolean |
| Zod.ChainValue | server/src/utils/validation.ts:6-11 | checks never change the value: a chain yields its input with the `trim`/`toLowerCase` links applied in order, so a chain of checks alone keeps its input |
| ServerValidation.EmailChain | server/src/utils/validation.ts:6-11 | the e-mail chain checks the address as given, then stores it trimmed and lowered |
| ServerValidation.AtLeastEightChain | server/src/utils/validation.ts:13-17 | the password chain checks the length before trimming |
| ServerValidation.ParseRegister | server/src/utils/validation.ts:3-18 | the register schema accepts exactly four strings meeting their checks, and its value is the trimmed, lowered data |
| ServerValidation.ParseLogin | server/src/utils/validation.ts:20-34 | the login schema accepts exactly a valid address, a non-empty password and an optional boolean |
| ServerValidation.ParseChangePassword | server/src/utils/validation.ts:36-46 | accepts exactly a non-empty current password and a new password of at least 8 characters before trimming |
| ServerValidation.EmptyFirstNameReportedFirst | server/src/utils/validation.ts:4 | an empty first name is always the first issue reported |
| ServerValidation.BlankPasswordAccepted | server/src/utils/validation.ts:13-17 | eight spaces pass as a password and are stored as the empty string |
| RequestValidation.FirstIssue | server/src/utils/validateRequest.ts:15 | the first issue's message, or "Invalid input provided" when it is missing or empty |
| RequestValidation.ValidateRequest | server/src/utils/validateRequest.ts:4-20 | an empty body gives 400 "All fields are required"; otherwise the parsed value, or a 400 with the first issue; no failure carries a code |
| ClientValidation.PasswordMessages | client/src/utils/validationSchemas.ts:23-32 | the password chain reports nothing exactly when the password has 8+ characters, an upper-case letter, a lower-case letter, a digit and a special character |
| ClientValidation.LettersAndDigitsNeverPass | client/src/utils/validationSchemas.ts:29-32 | a password without a special character never passes |
| ClientValidation.LoginIssues | client/src/utils/validationSchemas.ts:4-14 | the login form passes exactly with a valid address and a non-empty password |
| ClientValidation.RegisterHead | client/src/utils/validationSchemas.ts:19-22 | the name and address fields pass exactly when both names are non-empty and the address is valid |
| ClientValidation.RegisterTail | client/src/utils/validationSchemas.ts:33-46 | the confirmation, terms and agreement checks pass exactly when all hold; the last issue is the mismatch exactly when the passwords differ |
| ClientValidation.RegisterIssues | client/src/utils/validationSchemas.ts:19-46 | registration passes exactly when every field rule holds and the passwords agree; the mismatch is reported last, exactly when they differ |
| ClientValidation.ResetRequestIssues | client/src/utils/validationSchemas.ts:51-53 | the reset request passes exactly with a valid address |
| ClientValidation.ResetTail | client/src/utils/validationSchemas.ts:72-77 | the confirmation and agreement checks pass exactly when the confirmation is non-empty and repeats the password; the last issue is the mismatch exactly when the two differ |
| ClientValidation.ResetIssues | client/src/utils/validationSchemas.ts:60-77 | the reset form passes exactly with a strong password that its confirmation repeats |
| ClientValidation.MessagesOnAppend | client/src/utils/validationSchemas.ts:40-46 | the messages on one field of two issue lists are those of the first list followed by those of the second |
| ClientValidation.RegisterPasswordMessages | client/src/utils/validationSchemas.ts:19-46 | registration reports on the password field exactly the password rule's messages |
| ClientValidation.ResetPasswordMessages | client/src/utils/validationSchemas.ts:60-77 | so does the reset form |
| ClientValidation.SamePasswordRule | client/src/utils/validationSchemas.ts:23-32 | registration and reset report the same password messages for the same password |
| DeviceInfo.Label | server/src/utils/deviceInfo.ts:19-22 | a browser or OS label is trimmed: it neither starts nor ends with white space |
| DeviceInfo.LabelWithoutVersion | server/src/utils/deviceInfo.ts:19-21 | without a version, the label is the trimmed name, or "Unknown"; a name without surrounding white space is the label as it is |
| DeviceInfo.LabelWithVersion | server/src/utils/deviceInfo.ts:19-21 | with both parts, the label is "name version" |
| DeviceInfo.Location | server/src/utils/deviceInfo.ts:25 | "city, country" with "Unknown" for a missing city, and "Unknown" without a lookup result |
| DeviceInfo.ParseDeviceInfo | server/src/utils/deviceInfo.ts:12-27 | each field of the device record is its fallback-formatted parser or lookup result; the device type and location are never empty |
| DeviceInfo.UnrecognisedAgent | server/src/utils/deviceInfo.ts:19-23 | an agent with nothing recognised is an "Unknown" browser on an "Unknown" OS, on a "Desktop" |
| DeviceInfo.ClientParseDeviceInfo | client/src/utils/parseDeviceInfo.tsx:3-15 | no agent gives "Unknown"/"Unknown" without an OS; otherwise the parsed parts with the fallbacks "desktop" and "Unknown" |
| Store.WithoutPassword | server/src/utils/handleLoginSuccess.ts:38 | the public user keeps every field but the password |
| Store.StripOnlyPassword | server/src/utils/handleLoginSuccess.ts:38 | putting the password back gives the original user: only the password was removed |
| Store.UserByEmail | server/src/controllers/user.controller.ts:20-24 | the lookup returns a user with that address, or none exists |
| Store.UserById | server/src/services/jwt.ts:12 | the lookup returns a user with that id, or none exists |
| Store.UserByEmailFinds | server/src/controllers/user.controller.ts:56-58 | with unique addresses, the lookup finds the one user with the address |
| Store.UserByEmailAppend | server/src/controllers/user.controller.ts:20-46 | creating a user under a free address makes the lookup of that address find the new user, and changes no other lookup |
| Store.Surviving | server/src/controllers/user.controller.ts:124-126 | `deleteMany` with `{ userId, id: { not } }` keeps exactly the sessions the filter does not match, unchanged |
| Store.FindResetRow | server/src/controllers/user.controller.ts:365-371 | a row found matches the address, the digest and an unexpired time; when none is found, no row matches |
| Store.RowsNotFor | server/src/controllers/user.controller.ts:384 | after deleting by address, exactly the rows of other addresses are left |
| Store.SetPassword | server/src/controllers/user.controller.ts:379-382 | updating by address changes the password of that address only |
| Store.Database.CreateUser | server/src/controllers/user.controller.ts:31-46 | `user.create` appends the row and keeps the tables valid |
| Store.Database.UpdatePassword | server/src/controllers/user.controller.ts:379-382 | `user.update` rewrites only that address's password |
| Store.Database.CreateSession | server/src/utils/authService.ts:12-23 | `session.create` adds one row under a fresh id |
| Store.Database.UpdateRefreshToken | server/src/utils/authService.ts:30-33 | `session.update` changes only that row's refresh token |
| Store.Database.DeleteSession | server/src/controllers/user.controller.ts:120 | `session.delete` removes exactly that id |
| Store.Database.DeleteSessionsWhere | server/src/controllers/user.controller.ts:124-126 | `session.deleteMany` leaves `Surviving` |
| Store.Database.CreateResetRow | server/src/controllers/user.controller.ts:339-345 | `passwordResetToken.create` appends the row |
| Store.Database.DeleteResetRows | server/src/controllers/user.controller.ts:384 | `passwordResetToken.deleteMany` leaves `RowsNotFor` |
| Jwt.LoadJwtConfig | server/src/services/jwt.ts:4-6 | loading fails with "JWT_SECRET is missing" exactly when the secret is unset or empty |
| Jwt.DefaultExpiries | server/src/services/jwt.ts:16-28 | unset expiries default to "15m" (access) and "7d" (refresh) |
| Jwt.GenerateTokens | server/src/services/jwt.ts:8-31 | fails with "User not found" exactly when the id is unknown; otherwise the access token signs id, address and session, and the refresh token signs id and session, both with the one secret |
| Jwt.MintedTokensVerify | server/src/services/jwt.ts:16-28 | both minted tokens verify (unless expired) to claims naming the user and the session; only the access token names the address |
| AuthService.CreateUserSession | server/src/utils/authService.ts:5-36 | the row is inserted with refresh token "" and the device record; when the user is missing, the call fails with "User not found" and the row stays; otherwise the row's token is the minted refresh token, and the returned row still holds "" |
| AuthService.AddedOne | server/src/utils/authService.ts:12-23 | storing under a fresh id adds exactly that row and changes no other |
| LoginSuccess.FirstForwarded | server/src/utils/handleLoginSuccess.ts:21 | the forwarded address contains no comma |
| LoginSuccess.ClientIp | server/src/utils/handleLoginSuccess.ts:20-23 | the trimmed first `x-forwarded-for` entry if non-empty, else `req.ip`, else "" |
| LoginSuccess.ForwardedIsFirstEntry | server/src/utils/handleLoginSuccess.ts:20-23 | the address is the trimmed text before the first comma, never a later entry |
| LoginSuccess.CookieOptionsFor | server/src/utils/handleLoginSuccess.ts:31-36 | cookies are HTTP-only and same-site "lax"; secure exactly in production; `maxAge` is 30 days exactly when remember-me is set |
| LoginSuccess.ClearOptions | server/src/controllers/user.controller.ts:139-148 | cleared cookies use the same flags, with no `maxAge` |
| LoginSuccess.TokenCookies | server/src/utils/handleLoginSuccess.ts:42-43 | the refresh cookie then the access cookie, with identical options |
| LoginSuccess.HandleLoginSuccess | server/src/utils/handleLoginSuccess.ts:13-47 | exactly one session is added under the new id and no other row changes. The row is for the user, with the `User-Agent` (or ""), the client address, the browser, OS, device type and location parsed from them, and the creation time; its refresh token is the minted one, or "" when minting fails. On success the reply is 200 with the user minus its password and both token cookies |
| AuthMiddleware.RequestToken | server/src/middleware/auth.middleware.ts:9-11 | a non-empty cookie wins; otherwise the `Authorization` header with "Bearer " removed |
| AuthMiddleware.Authenticate | server/src/middleware/auth.middleware.ts:7-60 | no token gives 401 "Unauthorized request"; an expired token gives the TOKEN_EXPIRED error and is the only refusal with a code; any other refusal of a present token is the generic 401 "Invalid or expired token"; admission happens exactly for a verified token whose user exists and owns the session; the cookies are cleared exactly when a known user's session is gone or not theirs |
| AuthMiddleware.RefreshTokenAdmitted | server/src/middleware/auth.middleware.ts:16-50 | because one secret signs both kinds, an unexpired refresh token in the header passes the gate while its session lives |
| UserController.RegisterUser | server/src/controllers/user.controller.ts:15-49 | a bad body fails with its 400; a taken address gives 409; otherwise exactly one "email" user is appended with the hashed password, and the reply body carries `statusCode` 201 with the selected columns |
| UserController.RegisterTwiceConflicts | server/src/controllers/user.controller.ts:20-28 | after a registration, looking the address up finds exactly the account just created; by `RegisterUser`'s contract the same body then gets 409 |
| UserController.LoginCheck | server/src/controllers/user.controller.ts:56-71 | success exactly for a known "email" account whose password matches; 404 for an unknown address; 403 naming the provider for an OAuth account; no failure carries a code |
| UserController.OAuthAccountsCannotUsePasswords | server/src/controllers/user.controller.ts:64-66 | an OAuth account is refused with 403 whatever password is given |
| UserController.LoginUser | server/src/controllers/user.controller.ts:52-101 | failed validation or checks leave the sessions alone. Success adds exactly one session, the full row `handleLoginSuccess` stores: the user, agent, client address, parsed device facts, creation time and minted refresh token. It replies with the token cookies |
| UserController.LogoutDecision | server/src/controllers/user.controller.ts:105-151 | a named session is ended only by its owner (else 404); otherwise the flag ends the caller's other sessions; otherwise the current session is ended and both cookies cleared, or 400 without one |
| UserController.LogoutUser | server/src/controllers/user.controller.ts:105-152 | the sessions after the call are exactly those the decision leaves; deleting a missing row is an internal error |
| UserController.NamedSessionOutranksFlag | server/src/controllers/user.controller.ts:110-123 | naming a session makes the flag irrelevant: at most that session ends |
| UserController.OthersEnded | server/src/controllers/user.controller.ts:123-126 | ending the others keeps the current session and every other user's sessions, and nothing else of the caller's |
| UserController.SignedOutTokenRejected | server/src/middleware/auth.middleware.ts:27-48 | once its session is deleted, a verified token gets the generic 401 and both cookies are cleared |
| UserController.View | server/src/controllers/user.controller.ts:167-179 | a session's entry copies its device facts, uses the creation time as last activity, and is current exactly for the caller's session |
| UserController.InsertKeepsOrder | server/src/controllers/user.controller.ts:162-165 | inserting in place keeps a list newest first |
| UserController.InsertKeepsIdsDistinct | server/src/controllers/user.controller.ts:162-165 | inserting a new id keeps the ids distinct |
| UserController.SessionsOf | server/src/controllers/user.controller.ts:162-165 | `findMany` ordered by `createdAt desc` yields exactly the user's sessions, each once, newest first |
| UserController.GetAllSessions | server/src/controllers/user.controller.ts:156-184 | no caller id gives 401; otherwise exactly the caller's sessions as entries, each once (distinct ids), newest first, with at most one marked current |
| UserController.RequestPasswordReset | server/src/controllers/user.controller.ts:319-358 | an OAuth account gives 403; an unknown address gives 200 and no mail; otherwise one row is stored with the token's digest and a 15-minute expiry, and the mail goes to the address |
| UserController.ResetPassword | server/src/controllers/user.controller.ts:360-387 | a missing token throws before any lookup; without a matching unexpired row, 400; a missing password or address throws after the match; every failure changes nothing; otherwise that address's password is rewritten and every reset row of the address is deleted; sessions are never touched |
| UserController.ResetTokenSingleUse | server/src/controllers/user.controller.ts:365-384 | after a successful reset, no token works again for that address |
| UserController.FreshResetRowWorks | server/src/controllers/user.controller.ts:334-345 | the row a request stores opens the reset for the mailed token until 15 minutes have passed |
| UserController.OtherAddressesKeepTheirRows | server/src/controllers/user.controller.ts:384 | a reset leaves the reset rows of other addresses in place |
| Passport.GoogleVerify | server/src/config/passport.ts:13-40 | no address is an error; an account of another provider is refused with "Please login using <provider>"; a Google account is returned; otherwise one Google account is created, and any user returned is a Google user |
| Passport.GitHubVerify | server/src/config/passport.ts:52-93 | no address is refused with "Email not found"; lookup and creation use the lowered address; another provider is refused naming it; any user returned is a GitHub user |
| Passport.SplitDisplayName | server/src/config/passport.ts:74-76 | the first name is the text before the first space and contains no space |
| Passport.SplitDisplayNameRoundTrip | server/src/config/passport.ts:74-76 | with a space, first name + " " + last name is the full name; without one, the last name is "" |
| Passport.GitHubAddressCaseInsensitive | server/src/config/passport.ts:63-65 | once an account is created through GitHub, the lookup by the lowered address, in any letter case, finds that GitHub account itself; by `GitHubVerify`'s contract the next sign-in returns it and creates nothing |
| RefreshQueue.Settle | client/src/api/axios.ts:20-27 | a truthy error rejects a waiter; otherwise it is replayed, with the bearer header only for a string token |
| RefreshQueue.SettleAll | client/src/api/axios.ts:21-27 | one settlement per waiter, in queue order |
| RefreshQueue.AllSettledAlike | client/src/api/axios.ts:20-30 | all waiters meet the same fate: all replayed with the new header, or all rejected with the refresh error |
| RefreshQueue.OnError | client/src/api/axios.ts:39-60 | a non-qualifying error is rejected unchanged with the state untouched; while refreshing, one waiter is appended and no refresh starts; otherwise the request is marked retried and starts the one refresh |
| RefreshQueue.OnSettled | client/src/api/axios.ts:62-80 | the queue is drained with one outcome, the initiator is replayed with "Bearer <token>" or rejected after the redirect to /login, and the state is idle again |
| RefreshQueue.StepConsistent | client/src/api/axios.ts:17-18 | every event keeps waiters only while a refresh is in flight |
| RefreshQueue.RunCounts | client/src/api/axios.ts:44-80 | over a run, refresh starts never outrun refresh results by more than the one in flight; for every request id, the answers given plus those still owed equal its error responses |
| RefreshQueue.SingleFlight | client/src/api/axios.ts:44-80 | from the idle start: at most one refresh per result plus one; each request is answered at most once per error response it produced, and exactly that often once no refresh is in flight |
| RefreshQueue.OneRefreshPerBurst | client/src/api/axios.ts:44-60 | three expired responses in a row start exactly one refresh, and the other two wait in order |
| RefreshQueue.RefreshCoordinator.ProcessQueue | client/src/api/axios.ts:20-30 | settles the old queue in order and leaves it empty, with the flag unchanged |
| RefreshQueue.RefreshCoordinator.OnResponseError | client/src/api/axios.ts:34-60 | the interceptor's error branch up to the refresh call, as `OnError` |
| RefreshQueue.RefreshCoordinator.OnRefreshReturned | client/src/api/axios.ts:62-80 | the rest of the branch once the refresh returns, as `OnSettled`; the flag is cleared |
| EndToEnd.RefreshExactlyOnExpiry | server/src/middleware/auth.middleware.ts:52-58 | the client refreshes exactly when the gate refused an expired token |
| EndToEnd.EndedSessionNotRetried | server/src/middleware/auth.middleware.ts:31-48 | a refusal for an ended session goes straight to the caller, with no refresh |

## Left out

- Cryptography is not modelled: bcrypt hashing and comparison, SHA-256, `crypto.randomBytes` and `jwt.sign`/`jwt.verify` are function or value parameters. `Jwt.Sound` states the one property assumed of signing and verification.
- The user-agent parser and the geolocation database are function parameters. So is the address pattern of `.email()`.
- The database engine is replaced by in-memory tables.
- The Prisma schema is not part of this model. So:
  - ids and creation times are parameters, with freshness stated as preconditions;
  - the `updatedAt` column is absent;
  - the foreign key from sessions to users is absent (`CreateUserSession` inserts a row for a missing user, and it stays);
  - unique addresses and ids, and reset rows addressed to known users, are the `Database.Valid` invariant.
- `Date.now()` is the parameter `now`; dates are integers of milliseconds.
- `sendPasswordResetEmail` is network I/O. The mail is returned as a value, and its delivery and failures are out.
- The handler for the OAuth callbacks (server/src/controllers/user.controller.ts:218-315) is left out: the redirects, and `encodeURIComponent` in them. The same goes for the OAuth handshake itself. Only the verify callbacks of server/src/config/passport.ts are modelled.
- `getCurrentLoggedInUser` (server/src/controllers/user.controller.ts:188-215) is a read-only projection and is not modelled.
- The two-factor, change-password and refresh-token handlers are not part of this model; only the change-password schema is.
- The rate limiters are not modelled; they are configuration of a library that is not shown.
- ApiResponse.ts, error.middleware.ts and asyncHandler.ts are not part of this model:
  - a reply is the JSON body `new ApiResponse(statusCode, data, message)`, as a value;
  - a thrown `ApiError` becomes the handler's `Failure`;
  - any other exception is an `Internal` error.
- `Reply.statusCode`, `ResetReply.statusCode` and `LoginReply.status` are the `statusCode` field of the ApiResponse body, not the HTTP status. The HTTP status of a success is not modelled. It is 200 for every handler modelled: only `loginUser` sets it, to 200, and the others leave Express's default. So `registerUser` answers HTTP 200 with `statusCode: 201` in its body.
- `EndToEnd.RefusedCall` assumes the error handler sends the error's status and `code` in the JSON body.
- Promise scheduling and concurrency in client/src/api/axios.ts become a sequence of events. In particular, the moment at which a replayed waiter fails again is not modelled. The `_retry` mark of a waiter is kept as it was, and the effects record this. The effects of `OnSettled` list the waiters' settlements before the initiator's replay, or before the redirect and its rejection. That is the order in which the calls are made, not the order in which they take effect: `api(originalRequest)` and the redirect happen at once, while the waiters' `.then` callbacks run in later microtasks.
- The client's calls `api(request)` and `refreshAccessToken()` are effects and event outcomes. The redirect to /login is an effect.
- Request bodies whose fields are not strings, objects and booleans are reduced to `Json`. Numbers are integers.
- Passwords, tokens and e-mails are never `null`; a missing body field is `None`.
- Js.ToLower: lowers only the ASCII letters A-Z, because Unicode case mapping is not modelled.
- String lengths count Unicode scalar values, not the UTF-16 code units of JavaScript. The two agree on the Basic Multilingual Plane.
- server/src/services/hash.ts is not part of this model. `ResetPassword` takes the hash of a missing password to throw, as bcrypt does for undefined data; the reason strings of its `Internal` failures are illustrative.
- Stack traces, the `data: null` field of errors and console logging are omitted.
