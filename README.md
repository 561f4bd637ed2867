# Document-management: a verified model of the auth and user core

This project models the credential and user core of a NestJS backend. The core is a small
sequential state machine over two stores:

- a key-value cache (cache-manager), whose entries carry a value and an expiry time. It holds:
  - a one-time password (OTP) under the bare e-mail;
  - an attempt counter under `${email}_attempt`;
  - a serialised user snapshot under the user id;
  - a revocation entry under `bl_${sub}_${jti}`.
- the `users` table (drizzle), keyed by id, with a unique e-mail and nullable `password`,
  `emailVerified` and `loginAt`.

Both stores live in one `Stores.Store` object: a `map<string, CacheEntry>` and a
`map<string, UserRow>`. Its methods are the cache and table primitives the services call (`get`,
`set`, `del`, `findFirst`, `insert`, `update … where`, upsert on conflict, `delete`).

Each service operation is written twice:

- as a pure function `XxxStep(cfg, s, …)`. It maps the stores before the call to the result (a
  `Result` whose error carries the exception the code throws) and the stores after the call. Its
  contract states every error case and exactly which keys and rows change.
- as a method of the service class. The method performs the source's reads and writes one at a
  time on the shared `Store` and is proved to end where the function says.

Lemmas over the step functions state what holds across calls:

- an OTP round trip, and single use of a code;
- at most four OTP sends in a five-minute window made of sends alone. A successful verification
  or password reset deletes the counter and reopens sending, so five codes can go out within one
  window;
- a signed-out token stays refused for as long as it would verify;
- sign-up, verification and sign-in, chained.

Also modelled: the zod DTO schemas (as the list of issues they report), the two `toUserResponse`
projections, the Passport guard checks, the Google sign-in, the global exception filter, and the
Drizzle query logger.

Some behaviour of the code differs from what a reader might expect. It is modelled as written:

- `forgotPassword` and `setPassword` do not touch the id-keyed snapshot, which keeps the old
  password hash (`AuthProperties.ResetLeavesSnapshotStale`).
- `findUserById` returns the cached string unparsed. Every caller that then reads a field sees
  `undefined`: `changePassword` and `getProfilePicture` fail on a snapshot hit, and `deleteUser`
  deletes no row. On a hit `updateUser` has no old name or picture to fall back on, so it leaves
  the name column alone when no new name is given and the picture column alone when no file is
  uploaded. A new name or an uploaded picture is still written.
- `signOut` without a `jti` fails with "Invalid token". `blacklistTokenFromPayload` without a
  `jti` silently does nothing.
- A revocation entry lives as long as the longer of the two token lifetimes, counted from the
  moment of revocation, so it outlives the token it revokes.
- `setPassword` picks its user by the e-mail in the request body, not by the caller's token.

## Model

| member | source | states |
|---|---|---|
| Stores.SnapshotTtl | src/common/util/user/user.service.ts:41-45 | The snapshot TTL is ACCESS_TOKEN_EXPIRES_IN hours in milliseconds: at least one hour and at most the revocation TTL. |
| Stores.BlacklistTtl | src/infrastructure/auth/service/auth.service.ts:79-84 | The revocation TTL is the larger of the access and refresh lifetimes, in milliseconds, and is at least each of them. |
| Stores.AttemptKey | src/domain/auth/service/auth.service.ts:228 | The counter key is the e-mail followed by `_attempt`, so it never equals the OTP key. |
| Stores.BlacklistKey | src/infrastructure/auth/service/auth.service.ts:78 | The revocation key is `bl_`, then the subject, an `_` and the `jti`, at those positions. |
| Stores.FindByEmail | src/domain/auth/service/auth.service.ts:47-49 | `findFirst` by e-mail finds a row exactly when one has that e-mail, and returns that stored row. |
| Stores.DelAfterPut | src/domain/user/service/user.service.ts:160-164 | Deleting a key just written leaves the cache as it was without that key. |
| Bcrypt.Key | src/domain/auth/service/auth.service.ts:60 | The bcrypt key is the first 72 bytes of the password's UTF-8 encoding, or all of it when it is shorter. |
| Bcrypt.CompareHash | src/domain/auth/service/auth.service.ts:104 | `bcrypt.compare(p, hash(q))` accepts exactly when the first 72 bytes of the UTF-8 encodings of `p` and `q` agree. |
| Bcrypt.ShortAsciiExact | src/domain/auth/service/auth.service.ts:104 | For ASCII passwords of at most 72 characters, `bcrypt.compare(p, hash(q))` accepts exactly when `p == q`. |
| Bcrypt.TailIgnored | src/domain/auth/service/auth.service.ts:104 | Once a password's encoding reaches 72 bytes, anything appended to it still matches its hash. |
| Tokens.Verify | src/infrastructure/auth/service/auth.service.ts:44-68 | A token verifies exactly under its own secret before its expiry, and then yields its own claims. |
| Tokens.GenerateAccessToken | src/infrastructure/auth/service/auth.service.ts:21-31 | The access token verifies under the access secret to the user's sub, name and e-mail plus the given `jti`, lasts ACCESS hours, and never verifies under a different refresh secret. |
| Tokens.GenerateRefreshToken | src/infrastructure/auth/service/auth.service.ts:32-42 | The same, with the refresh secret and REFRESH days. |
| Tokens.VerifyTokenAndCheckBlacklist | src/infrastructure/auth/service/auth.service.ts:44-68 | Succeeds exactly when the token verifies and its revocation key is not live, and then returns the payload unchanged. Every failure is Unauthorized; a revoked token gets "Token is blacklisted". It takes the cache as a value, so nothing is written. |
| Tokens.Blacklist | src/infrastructure/auth/service/auth.service.ts:70-86 | Without a `jti` the cache is unchanged. With one, the key `bl_sub_jti` is set to `true` for the revocation TTL, the payload counts as revoked for that whole time, and no other key changes. |
| Tokens.TokenService.BlacklistTokenFromPayload | src/infrastructure/auth/service/auth.service.ts:70-86 | The method leaves the cache as `Blacklist` says and the table untouched. |
| Tokens.BlacklistIdempotent | src/infrastructure/auth/service/auth.service.ts:84 | Revoking twice leaves the key present with value `true`, the same key set, and every other entry as before. |
| Tokens.RevokedUntilExpiry | src/infrastructure/auth/service/auth.service.ts:49-58 | A token revoked at or after its issue is refused at every later instant at which it would still verify. |
| Tokens.RevocationIsPerToken | src/infrastructure/auth/service/auth.service.ts:78 | Revoking one `jti` does not change the verdict on a token of the same subject with another `jti`. |
| Tokens.BlacklistKeyInjective | src/infrastructure/auth/service/auth.service.ts:78 | Distinct `jti`s of one subject give distinct revocation keys. |
| Tokens.BlacklistKeyInjectiveAcross | src/infrastructure/auth/service/auth.service.ts:78 | For subjects without `_`, two revocation keys are equal exactly when subject and `jti` both are. |
| Tokens.BlacklistKeyCollision | src/infrastructure/auth/service/auth.service.ts:78 | With an `_` in the subject the format is ambiguous: subject `a` with `jti` `b_c` and subject `a_b` with `jti` `c` share a key. |
| AccessTokenStrategy.Validate | src/infrastructure/auth/strategy/access-token.strategy.ts:17-31 | No `jti` gives "Token is missing JTI and cannot be reliably checked against blacklist.". A live revocation entry gives "Token has been blacklisted.". Success holds exactly otherwise and returns the payload unchanged. The cache is only read. |
| AccessTokenStrategy.MissingJtiIgnoresCache | src/infrastructure/auth/strategy/access-token.strategy.ts:18-22 | Without a `jti` the verdict is the same rejection whatever the cache and the time. |
| AccessTokenStrategy.DecidedByRevocationEntry | src/infrastructure/auth/strategy/access-token.strategy.ts:24-30 | Two caches that agree on whether the payload is revoked give the same verdict. |
| AccessTokenStrategy.RevokedPayloadRefused | src/infrastructure/auth/strategy/access-token.strategy.ts:24-29 | For the whole revocation TTL after a revocation, the guard refuses the payload. |
| JwtAccessTokenStrategy.Validate | src/infrastructure/jwt/strategy/access-token.strategy.ts:17-31 | Accepts exactly the payloads with a `jti` that is not revoked, returns them unchanged, and fails only with Unauthorized. |
| JwtAccessTokenStrategy.SameGateAsAuthStrategy | src/infrastructure/jwt/strategy/access-token.strategy.ts:17-31 | The twin guard gives the same verdict, messages included, as the auth-module guard. |
| RefreshTokenStrategy.Validate | src/infrastructure/jwt/strategy/refresh-token.strategy.ts:30-56 | The checks run in order: no body token, then no `jti`, then revoked ("Refresh token has been blacklisted."). Success holds exactly when all three pass, and gives the payload with `refreshToken` set to the body token. |
| RefreshTokenStrategy.RevokedRefreshRefused | src/infrastructure/jwt/strategy/refresh-token.strategy.ts:48-53 | For the whole revocation TTL after a revocation, a revoked refresh payload is refused. |
| UserUtil.FindUserByIdStep | src/common/util/user/user.service.ts:24-49 | A hit returns the cached value unparsed and changes nothing. A miss with a row caches the row under `userId` for the snapshot TTL and returns it. A miss without a row is "User not found" and changes nothing. No key other than `userId` is written, and the table is never written. |
| UserUtil.PasswordOf | src/common/util/user/user.service.ts:25 | A cached snapshot has no readable `password`. |
| UserUtil.FailedLookupWritesNothing | src/common/util/user/user.service.ts:32-39 | A failed lookup leaves both stores unchanged. |
| UserUtil.SecondLookupHits | src/common/util/user/user.service.ts:25-48 | Within the snapshot TTL after a miss, a second lookup is a hit returning the row's JSON and changing nothing. |
| UserUtil.UserUtilService.FindUserById | src/common/util/user/user.service.ts:24-49 | The method returns and leaves behind what `FindUserByIdStep` says. |
| UserDto.UpdateUserIssues | src/domain/user/dto/user.dto.ts:4-6 | A name is accepted exactly when its length is 2 to 150; otherwise zod's bound message is reported on `name`. |
| UserDto.ToUserResponse | src/domain/user/dto/user.dto.ts:20-30 | Id, name, e-mail, both dates, `loginAt` and `emailVerified` are copied unchanged, nulls included. |
| UserDto.ResponseIgnoresSecrets | src/domain/user/dto/user.dto.ts:20-30 | The response is the same whatever the password and picture: neither reaches it. |
| UserDto.ResponseDeterminesPublicFields | src/domain/user/dto/user.dto.ts:20-30 | Two rows with equal responses differ at most in password and picture. |
| AuthDto.PolicyIssues | src/domain/auth/dto/auth.dto.ts:8-18 | No issue is reported exactly when the password has 8 to 32 characters, an upper-case letter, a lower-case letter, a digit and one of `!@#$%^&*()`. Every issue is on the field, a short password reports the length issue first, and long and special-character failures are reported. |
| AuthDto.SignUpIssues | src/domain/auth/dto/auth.dto.ts:4-34 | Accepted exactly when the name is non-empty, the e-mail is valid, both passwords meet the policy and they are equal. A mismatch ends the list with "Passwords do not match" on `password_confirmation`, and an empty name reports "Name is required" first. |
| AuthDto.SignInIssues | src/domain/auth/dto/auth.dto.ts:38-41 | Accepted exactly when the e-mail is valid and the password is non-empty. |
| AuthDto.SendEmailIssues | src/domain/auth/dto/auth.dto.ts:45-48 | Accepted exactly when the e-mail is valid, with or without `retry`. |
| AuthDto.VerifyOtpIssues | src/domain/auth/dto/auth.dto.ts:52-55 | Accepted exactly when the e-mail is valid and the code is non-empty. |
| AuthDto.SetPasswordIssues | src/domain/auth/dto/auth.dto.ts:59-69 | Accepted exactly when the e-mail is valid and `new_password` meets the policy. |
| AuthDto.ToUserResponse | src/domain/auth/dto/auth.dto.ts:92-102 | The auth projection copies exactly the seven public fields. |
| AuthDto.SameProjection | src/domain/auth/dto/auth.dto.ts:92-102 | The two `toUserResponse` functions agree on every row. |
| AuthDto.SamePolicy | src/domain/auth/dto/auth.dto.ts:8-18 | The sign-up and set-password schemas accept the same passwords. |
| AuthDto.PolicyExamples | src/domain/auth/dto/auth.dto.ts:8-18 | `Secret#12` is strong. Dropping each character class, or the length, makes a password weak. |
| Auth.SignUpStep | src/domain/auth/service/auth.service.ts:46-89 | A taken e-mail gives "Email already exists" and changes nothing. Otherwise exactly one row is added, under the fresh id, with the hashed password and null `emailVerified` and `loginAt`. Only id, e-mail and name are returned, and the cache is untouched. |
| Auth.SignInStep | src/domain/auth/service/auth.service.ts:96-150 | A missing user, a missing password or a wrong password gives "Invalid credentials". Only after that does an unverified address give "Email not verified". Failures change nothing. Success sets `loginAt`, caches the pre-update row for the snapshot TTL, and returns an access token and a refresh token that verify to the user's claims with the two `jti`s. |
| Auth.RefreshAccess | src/domain/auth/service/auth.service.ts:157-184 | A payload whose subject has no row gives "User not found for refresh token". Otherwise the result is a new access token for the payload's sub, name and e-mail. |
| Auth.SignOutStep | src/domain/auth/service/auth.service.ts:191-208 | No `jti` gives "Invalid token" and changes nothing. An unknown user gives "User not found". Success revokes the payload for the revocation TTL, deletes the snapshot under `sub`, changes no other key and never touches the table. |
| Auth.SendOtpStep | src/domain/auth/service/auth.service.ts:216-250 | A live code without `retry` gives "OTP already sent"; that check runs first and changes nothing. A counter above 3 gives "Too many attempts". Otherwise exactly the code and the incremented counter are written, each for five minutes. |
| Auth.NextAttempt | src/domain/auth/service/auth.service.ts:244-248 | The new counter is the old one plus one, and 1 when there was none. |
| Auth.VerifyEmailStep | src/domain/auth/service/auth.service.ts:258-292 | No live code gives "OTP not found". A different code gives "Invalid OTP". Both failures change nothing. A match deletes the code and the counter and sets `emailVerified` on the rows with that e-mail. |
| Auth.GoogleCallback | src/domain/auth/service/auth.service.ts:299-314 | Both tokens verify to the Google user's claims, each with its own `jti`. |
| Auth.SetPasswordStep | src/domain/auth/service/auth.service.ts:321-355 | The user is found by the request e-mail. None gives "User not found", and an existing password gives "User already has a password". Success hashes the new password into that row only, and the cache is untouched. |
| Auth.ChangePasswordStep | src/domain/auth/service/auth.service.ts:363-402 | A snapshot hit, or a row without a password, gives "User does not have a password". A missing row gives "User not found", and a wrong old password gives "Invalid old password". Success writes the new hash to the row and re-caches that row under `userId`. No other cache key changes. |
| Auth.ForgotPasswordStep | src/domain/auth/service/auth.service.ts:409-458 | The checks run in order: user by e-mail ("User not found"), a live code ("OTP not found"), a matching code ("Invalid OTP"). Failures change nothing. Success replaces the hash on that e-mail's row and deletes the code and the counter. |
| Auth.AuthService.SignUp | src/domain/auth/service/auth.service.ts:46-89 | The method returns and leaves behind what `SignUpStep` says. |
| Auth.AuthService.SignIn | src/domain/auth/service/auth.service.ts:96-150 | The method returns and leaves behind what `SignInStep` says. |
| Auth.AuthService.RefreshToken | src/domain/auth/service/auth.service.ts:157-184 | The method returns `RefreshAccess` of the current table and writes nothing. |
| Auth.AuthService.SignOut | src/domain/auth/service/auth.service.ts:191-208 | The method returns and leaves behind what `SignOutStep` says. |
| Auth.AuthService.SendOtpEmail | src/domain/auth/service/auth.service.ts:216-250 | The method returns and leaves behind what `SendOtpStep` says. |
| Auth.AuthService.VerifyEmail | src/domain/auth/service/auth.service.ts:258-292 | The method returns and leaves behind what `VerifyEmailStep` says. |
| Auth.AuthService.SetPassword | src/domain/auth/service/auth.service.ts:321-355 | The method returns and leaves behind what `SetPasswordStep` says. |
| Auth.AuthService.ChangePassword | src/domain/auth/service/auth.service.ts:363-402 | The method returns and leaves behind what `ChangePasswordStep` says, with del-then-set for the snapshot. |
| Auth.AuthService.ForgotPassword | src/domain/auth/service/auth.service.ts:409-458 | The method returns and leaves behind what `ForgotPasswordStep` says. |
| AuthProperties.FindByEmailUnique | src/domain/auth/service/auth.service.ts:97-99 | With unique e-mails, the lookup by a row's e-mail returns that row. |
| AuthProperties.OtpRoundTrip | src/domain/auth/service/auth.service.ts:216-292 | A code sent and submitted within five minutes verifies. Afterwards the code and the counter are gone and every row with that e-mail is verified. |
| AuthProperties.OtpSingleUse | src/domain/auth/service/auth.service.ts:262-289 | After one successful verification, the same code gets "OTP not found" and changes nothing. |
| AuthProperties.ResetCodeSingleUse | src/domain/auth/service/auth.service.ts:417-456 | After one successful reset, the same code gets "OTP not found" and changes nothing. |
| AuthProperties.SendsBounded | src/domain/auth/service/auth.service.ts:228-248 | The window invariant: with the counter at k and live to the end of the window, no sequence of further sends within it succeeds more than 4 - k times. |
| AuthProperties.AtMostFourSendsPerWindow | src/domain/auth/service/auth.service.ts:228-248 | From a stale counter, at most four sends succeed within one five-minute window, whatever the `retry` flags. |
| AuthProperties.FourSendsThenRefused | src/domain/auth/service/auth.service.ts:228-248 | The bound is tight: four retried sends succeed and the fifth gets "Too many attempts" and changes nothing. |
| AuthProperties.VerificationReopensSending | src/domain/auth/service/auth.service.ts:279-289 | After a successful verification, a retried send by that address succeeds at once, since the counter is deleted. |
| AuthProperties.ResetReopensSending | src/domain/auth/service/auth.service.ts:445-456 | After a successful password reset, a retried send by that address succeeds at once, since the counter is deleted. |
| AuthProperties.FifthSendAfterVerification | src/domain/auth/service/auth.service.ts:216-290 | Four sends, a verification with the code and a fifth send, all at one instant, all succeed. |
| AuthProperties.PendingCodeBlocksResend | src/domain/auth/service/auth.service.ts:219-225 | Without `retry`, a second send while the code lives gets "OTP already sent" and changes nothing. |
| AuthProperties.NewAccountAwaitsVerification | src/domain/auth/service/auth.service.ts:101-121 | Right after sign-up, the right password gets "Email not verified" and nothing changes. |
| AuthProperties.VerifiedAccountSignsIn | src/domain/auth/service/auth.service.ts:46-150 | After sign-up, a code and its verification, sign-in with the same password succeeds. Its access token verifies to the new user's claims, and the snapshot is cached. |
| AuthProperties.ResetReplacesPassword | src/domain/auth/service/auth.service.ts:409-458 | After a reset, the new password matches, and any other password matches exactly when its first 72 UTF-8 bytes are those of the new one. `emailVerified` is unchanged. |
| AuthProperties.ResetLeavesSnapshotStale | src/domain/auth/service/auth.service.ts:449-457 | A reset leaves every cache key other than the code and the counter as it was, the snapshot included. |
| AuthProperties.SetPasswordEnablesSignIn | src/domain/auth/service/auth.service.ts:321-355 | After `setPassword`, the new password passes the sign-in credential check. |
| AuthProperties.ChangePasswordUpdatesSnapshot | src/domain/auth/service/auth.service.ts:384-401 | After a change, both the row and the live snapshot carry the new hash. |
| AuthProperties.SignedOutTokenRefused | src/domain/auth/service/auth.service.ts:191-208 | A signed-out token is refused by the token service and by the access guard at every instant at which it would still verify. |
| AuthProperties.SignOutSparesOtherTokens | src/domain/auth/service/auth.service.ts:199-207 | Signing out with one token leaves the other tokens of the same user, and the refresh guard's verdict on them, as they were. |
| UserDomain.GetUser | src/domain/user/service/user.service.ts:38-71 | A hit holding a user's JSON returns its projection. A miss returns the projection of the row, or "User not found" when there is none. Nothing is written. |
| UserDomain.NameUpdate | src/domain/user/service/user.service.ts:99-103 | A non-empty new name replaces the old one. Otherwise the old name is kept, or, on a snapshot hit, nothing is written. |
| UserDomain.PictureUpdate | src/domain/user/service/user.service.ts:87-103 | An uploaded file's path replaces the picture. Otherwise the old path is kept, or, on a hit, nothing is written. |
| UserDomain.UploadPath | src/domain/user/service/user.service.ts:87-89 | The path of an uploaded file is `uploads/profile/<filename>`, and empty without a file. |
| UserDomain.UpdateUserStep | src/domain/user/service/user.service.ts:80-121 | The update succeeds exactly when the row exists. On success the merged row is written, cached for the snapshot TTL and returned. A missing row gives "User not found" on a miss, or a TypeError on a hit. Failure changes nothing. |
| UserDomain.GetProfilePictureStep | src/domain/user/service/user.service.ts:128-142 | The lookup's result and writes are kept. A user without a picture, and any snapshot hit, gives "Profile picture not found". Success returns the stored path. |
| UserDomain.DeleteUserStep | src/domain/user/service/user.service.ts:149-166 | A failed lookup is passed on. On a miss the row and the snapshot go and the caller's token is revoked. On a hit only the revocation happens. E-mails stay unique. |
| UserDomain.UpdateThenRead | src/domain/user/service/user.service.ts:80-121 | Within the snapshot TTL after an update, `getUser` returns exactly the response the update returned. |
| UserDomain.UpdateMergesFields | src/domain/user/service/user.service.ts:87-110 | On a row read from the table, the name and picture follow the merge rules, and password, e-mail and `emailVerified` stay as stored. |
| UserDomain.DeleteRemovesAccount | src/domain/user/service/user.service.ts:149-166 | After a delete the row is gone, `getUser` gives "User not found", and the caller's token stays revoked for the revocation TTL. |
| UserDomain.UserService.GetUserProfile | src/domain/user/service/user.service.ts:38-71 | The method returns `GetUser` of the current stores and writes nothing. |
| UserDomain.UserService.UpdateUser | src/domain/user/service/user.service.ts:80-121 | The method returns and leaves behind what `UpdateUserStep` says. |
| UserDomain.UserService.GetProfilePicture | src/domain/user/service/user.service.ts:128-142 | The method returns and leaves behind what `GetProfilePictureStep` says, and never writes the table. |
| UserDomain.UserService.DeleteUser | src/domain/user/service/user.service.ts:149-166 | The method returns and leaves behind what `DeleteUserStep` says. |
| Google.ValidateOAuthLoginStep | src/infrastructure/google/service/google.service.ts:31-64 | A new e-mail gets a row with the fresh id, the full name, and `emailVerified` and `loginAt` set to now. An existing e-mail keeps its row, with only name, `emailVerified` and `loginAt` overwritten. The stored row is cached under its id for the snapshot TTL and returned. |
| Google.ExistingAccountKept | src/infrastructure/google/service/google.service.ts:40-51 | An existing account keeps its id, password, picture and creation date, and the fresh id is not used. |
| Google.ToOAuthUser | src/infrastructure/google/strategy/google.strategy.ts:28-42 | A profile is accepted exactly when it has a first e-mail, a given name and a first photo. These are the values passed on, and a missing family name becomes "". |
| Google.GoogleValidateStep | src/infrastructure/google/strategy/google.strategy.ts:20-48 | A rejected profile gets `done` with the profile error and changes nothing. An accepted one gets `done` with exactly the upsert's result and its stores. |
| Google.GoogleService.ValidateOAuthLogin | src/infrastructure/google/service/google.service.ts:31-64 | The method returns and leaves behind what `ValidateOAuthLoginStep` says. |
| Google.GoogleStrategy.Validate | src/infrastructure/google/strategy/google.strategy.ts:20-48 | The method returns and leaves behind what `GoogleValidateStep` says. |
| ExceptionFilter.Status | src/common/filter/exception.filter.ts:40-43 | The status is the HttpException's own, and 500 for anything else. |
| ExceptionFilter.GetErrorMessage | src/common/filter/exception.filter.ts:80-96 | The message is a string response itself, or an object response's truthy `message` (else "Unknown error occurred"). A plain Error gives its `message`, and anything else gives `String(exception)`. |
| ExceptionFilter.GetErrorDetails | src/common/filter/exception.filter.ts:98-110 | Details exist exactly for an HttpException whose object response has non-nullish `errors`, and are those errors. |
| ExceptionFilter.Trace | src/common/filter/exception.filter.ts:61-65 | The trace is an Error's stack when it has one, else `String(exception)`. |
| ExceptionFilter.Catch | src/common/filter/exception.filter.ts:35-78 | The reply status and body status are `Status`. Path and method come from the request. The message and details are as above. The log entry carries the trace and the context. |
| ExceptionFilter.FailureResponse | src/common/filter/exception.filter.ts:40-96 | Each service failure reaches the client with its own status (401, 409, 404, 500) and its own non-empty message, and without details. |
| QueryLogger.Collapse | src/config/db/logger.ts:8 | Replacing white-space runs keeps every other character in order, leaves only single blanks, and keeps the text empty or non-empty, with white space at the front exactly when the input has it. |
| QueryLogger.Trim | src/config/db/logger.ts:8 | `trim` keeps every other character and leaves no white space at either end. |
| QueryLogger.FormatQuery | src/config/db/logger.ts:8 | The formatted query has the same non-white-space characters in the same order, single blanks only, and no white space at either end. |
| QueryLogger.StripQuotes | src/config/db/logger.ts:12 | A parameter loses exactly one outer pair of double quotes. This happens exactly when it has two or more characters, starts and ends with `"`, and has no line terminator inside. |
| QueryLogger.FormatParams | src/config/db/logger.ts:10-15 | Each string parameter is quote-stripped, every other parameter is unchanged, and order and number are kept. |
| QueryLogger.PlaceholderCountIsPositions | src/config/db/logger.ts:17 | `paramCount` equals the number of positions where a `$` followed by a digit starts. |
| QueryLogger.GroupAsWrittenDiverges | src/config/db/logger.ts:20-22 | With `paramCount` 0 and a parameter left, the loop as written never finishes, however many iterations are allowed. |
| QueryLogger.NoPlaceholderHangs | src/config/db/logger.ts:17-22 | The query `SELECT 1` logged with one parameter is such an input. |
| QueryLogger.GroupAsWrittenComputesChunks | src/config/db/logger.ts:20-22 | With `paramCount` above 0, the loop as written finishes and produces the consecutive chunks. |
| QueryLogger.ChunksChunked | src/config/db/logger.ts:19-22 | The chunks concatenate to the parameters. Every chunk but the last has `paramCount` values, the last has 1 to `paramCount`, and there are none exactly when there are no parameters. |
| QueryLogger.RowsChunked | src/config/db/logger.ts:19-22 | The corrected rows have the same properties, with the whole list as one row when the query has no placeholder. |
| QueryLogger.GroupParams | src/config/db/logger.ts:19-22 | The corrected loop builds exactly the corrected rows, which chunk the parameters as above. |
| QueryLogger.RowLines | src/config/db/logger.ts:30-32 | Row k is labelled k + 1 and holds the kth group, in group order. |
| QueryLogger.LogQuery | src/config/db/logger.ts:7-37 | The log holds the formatted query and the numbered rows of the formatted parameters, grouped by the corrected grouping (see Findings). |

## Left out

- I/O and side effects: the mail queue and worker, file deletion and streaming, multer storage,
  Winston, and every `logger`/`console` call. OTP generation and uuid generation become
  parameters (`code`, `userId`, `newId`, the `jti`s), as does the clock (`now` in milliseconds,
  `today` for the date columns). A fresh id is a precondition that it is not already a row id.
- The controllers, modules, decorators and bootstrap. One consequence: `src/domain/user/user.controller.ts:91`
  does not apply `UpdateUserSchema`, so the update name reaches `updateUser` unchecked.
- Bcrypt.CompareHash: passwords are truncated to their first 72 UTF-8 bytes, as bcrypt does, but
  the hash is those bytes behind the fixed prefix `$2b$10$`. Salt, cost factor and the radix-64
  hash format are not modelled, and two keys never collide.
- Subjects and `jti`s are arbitrary strings, not uuids. Revocation keys are therefore shown
  unambiguous only for one subject, or for subjects without `_`.
- JWT signing is a token value holding its claims, secret, lifetime and issue time. `Verify`
  checks the secret and the expiry. The `JwtService` the domain services import is not part of
  this model; it is given the contract of the infrastructure token service.
- Concurrency: each `Promise.all` runs in argument order, so `changePassword`'s snapshot
  refresh is del-then-set.
- Cache eviction is an expiry time per entry compared with an explicit `now`. Environment
  parsing is left out: the two lifetimes are positive naturals.
- zod: e-mail format checking is a boolean parameter, and lengths are counted in characters
  rather than UTF-16 code units. The ChangePassword and ForgotPassword schemas are imported but
  not defined in the DTO file, so they have no rules here. The `ZodValidationPipe` mapping is
  left out.
- The folder, file and share tables.
- Auth.SignUpStep: the "User creation failed" branch is not modelled, because an insert with
  `returning` always yields the row.
- Tokens.VerifyTokenAndCheckBlacklist: the "Invalid token or unknown error" branch for a thrown
  non-Error is not modelled, because the token primitives only reject with an Error.
- Auth.SendOtpStep: the attempt counter is read as a number; any other cached value under the
  counter key counts as no counter.
- UserDomain.GetUser: a hit holding something other than a user's JSON is modelled as an
  Internal error (the `JSON.parse` failure). In the code, a cached number, flag or other JSON
  text parses and `toUserResponse` reads `undefined` fields instead.
- UserDomain.DeleteUserStep: on a snapshot hit, `eq(id, undefined)` is taken to match no row and
  `del(undefined)` to remove no key.
- AuthDto.PolicyIssues: the contract pins down acceptance, the field path, and the first and
  some later issues; the full issue list is given only by the function.
- QueryLogger.LogQuery: the text layout of the log message and `JSON.stringify` of the values
  are not modelled; the log is structured. The debug-level emit is left out.
- White space in the query logger is the fixed list of characters JavaScript's `\s` matches,
  written out rather than derived from Unicode categories.

## Findings

| source | as written | input that shows it | evidently intended | confidence | as-written member | corrected member |
|---|---|---|---|---|---|---|
| src/config/db/logger.ts:17-22 | The grouping loop advances `i` by `paramCount`, which is 0 for a query without `$n` placeholders. | A query without placeholders, e.g. `SELECT 1`, logged with at least one parameter: `i` stays at 0 and empty slices are pushed forever. | The parameters are grouped into rows of `paramCount`; with no placeholder they form one row. | not executed; low, since Drizzle numbers every bound parameter, so the input may not arise through Drizzle | QueryLogger.GroupAsWrittenDiverges | QueryLogger.GroupParams |
