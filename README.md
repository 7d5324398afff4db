# Eco-reading account tokens, modelled in Dafny

This project models the account-token lifecycle of the eco-reading book-sharing backend's
`UserService`. The service works as a small sequential state machine over two stores, a Redis
key-value cache and the user table:

- **Registration.** `save` builds local accounts. `saveKakao` builds accounts created through Kakao login.
- **Email verification.** A six-digit code is stored under `"AuthCode:"+email` and later checked
  against what the user submits.
- **Password reset.** A token is stored under `"PassWordCode:"+token` and maps to the email. It is
  validated, and it is used by `changePassword`.
- **Session cookies.** The service issues the token cookies, expires them on logout, and finds the
  access-token cookie of a request.

Files and modules:

- `wrappers.dfy` (`Wrappers`): `Option`, `Result`, `Outcome`. Java's `null`, return-or-throw and
  void-or-throw are modelled with these.
- `users.dfy` (`Users`): the `User` row, the two sign-up forms, and the row each registration path builds.
- `auth_codes.dfy` (`AuthCodes`): how the verification code is rendered from the random draws.
- `cache_keys.dfy` (`CacheKeys`): the cache keys, the success conditions of the two checks, and
  lemmas about how the operations interact through the cache.
- `cookies.dfy` (`Cookies`): cookies, `Long.intValue()`, `createCookie`, and the response that cookies are added to.
- `user_service.dfy` (`UserServiceModel`): the class `UserService`. Its fields are
  `cache: map<string, string>`, `users: map<string, User>` (keyed by email) and `nextId` (the table's next id).
  There is one method per service operation.

Abstract inputs:

- The BCrypt encoder is the constant `encode`, and the JWT provider's `getUserIdFromToken` is
  `userIdFromToken`. Both are fixed functions given to the constructor. The decoder may answer
  `None`, for a null `Long`.
- `SecureRandom.getInstanceStrong()` is a parameter `Option<nat -> Digit>`. `None` means no strong
  algorithm is available. Otherwise `draws(i)` is the i-th `nextInt(10)`.
- The UUID reset token, the authentication principal and the `TokenInfo` issued by the JWT
  provider are method parameters.
- The response object is a `Response` object holding the cookies added to it, in order.

The comment at `UserService.java:320` says the used token is removed from Redis. The code at line 321
removes a different key, and the model follows the code: the password-reset token is not consumed (see Findings).

## Model

| member | source | states |
|---|---|---|
| `UserServiceModel.UserService.constructor` | src/main/java/com/checkcheck/ecoreading/domain/users/service/UserService.java:52-70 | The service starts with empty stores and the given encoder and token decoder. |
| `UserServiceModel.UserService.Insert` | src/main/java/com/checkcheck/ecoreading/domain/users/service/UserService.java:88 | Inserting a row files it under its email with the next id. No other row changes, and the table invariant is kept. |
| `UserServiceModel.UserService.Save` | src/main/java/com/checkcheck/ecoreading/domain/users/service/UserService.java:73-90 | A local registration adds exactly one row and returns its new id. The row has `encode(password)`, ROLE_USER, enabled and not email-verified. No other user and no cache entry changes. An email that already has a row is refused and nothing changes. |
| `UserServiceModel.UserService.SaveKakao` | src/main/java/com/checkcheck/ecoreading/domain/users/service/UserService.java:91-110 | A Kakao registration adds exactly one row with no password, social auth "kakao" and the social id, enabled and email-verified. No other user changes. A taken email is refused and nothing changes. |
| `Users.RegistrationPathsDiffer` | src/main/java/com/checkcheck/ecoreading/domain/users/service/UserService.java:73-110 | The two paths fix different fields: local rows have a password and are unverified; Kakao rows have none and are verified. Only the Kakao row counts as a Kakao account, which password reset refuses. |
| `UserServiceModel.UserService.CheckDuplicatedEmail` | src/main/java/com/checkcheck/ecoreading/domain/users/service/UserService.java:128-134 | Fails with the duplicate-member error exactly when an account holds the email. |
| `UserServiceModel.UserService.CreateCode` | src/main/java/com/checkcheck/ecoreading/domain/users/service/UserService.java:135-148 | Without a strong algorithm it fails. Otherwise the code is exactly six characters, each '0'..'9', and the i-th digit reads back as the i-th draw. |
| `AuthCodes.DigitChar` | src/main/java/com/checkcheck/ecoreading/domain/users/service/UserService.java:141 | Appending a draw writes one decimal digit character that reads back as the draw. |
| `AuthCodes.RenderedDigits` | src/main/java/com/checkcheck/ecoreading/domain/users/service/UserService.java:139-143 | n draws give a string of length n, each character a decimal digit equal to its draw. |
| `AuthCodes.RenderedInjective` | src/main/java/com/checkcheck/ecoreading/domain/users/service/UserService.java:139-143 | Two generators give the same code if and only if their first n draws agree. |
| `UserServiceModel.UserService.SendCodeToEmail` | src/main/java/com/checkcheck/ecoreading/domain/users/service/UserService.java:112-127 | For an email that already has an account, it fails and the cache is unchanged. When the random algorithm is missing, it fails and the cache is unchanged. Otherwise it writes exactly one entry, `"AuthCode:"+email` mapped to a six-digit code, and nothing else changes. |
| `UserServiceModel.UserService.VerifiedCode` | src/main/java/com/checkcheck/ecoreading/domain/users/service/UserService.java:149-156 | Passes if and only if no user has the email and the value stored under `"AuthCode:"+email` equals the code. Otherwise it reports which check failed. It changes no state. |
| `CacheKeys.IssuedCodeAccepted` | src/main/java/com/checkcheck/ecoreading/domain/users/service/UserService.java:126-155 | Once a code is stored for a free email, checking that email accepts exactly that code. |
| `CacheKeys.RegisteredEmailRejectsCodes` | src/main/java/com/checkcheck/ecoreading/domain/users/service/UserService.java:149-150 | Once an account holds the email, every code for it is rejected. |
| `CacheKeys.ExpiredCodeRejected` | src/main/java/com/checkcheck/ecoreading/domain/users/service/UserService.java:126 | A code whose entry has expired is rejected. |
| `UserServiceModel.UserService.Expire` | src/main/java/com/checkcheck/ecoreading/domain/users/service/UserService.java:126 | The cache itself dropping an entry whose time to live ran out. It removes exactly that key. |
| `CacheKeys.KeyKindsDisjoint` | src/main/java/com/checkcheck/ecoreading/domain/users/service/UserService.java:56-58 | For every email, token and name, the four kinds of key are pairwise different (all six pairs). The kinds are verification code, reset token, refresh token and the literal that `changePassword` deletes. |
| `CacheKeys.CodeIssueKeepsResetTokens` | src/main/java/com/checkcheck/ecoreading/domain/users/service/UserService.java:126-284 | Storing a verification code does not change whether any reset token validates. |
| `CacheKeys.TokenIssueKeepsCodes` | src/main/java/com/checkcheck/ecoreading/domain/users/service/UserService.java:151-251 | Storing a reset token does not change whether any verification code is accepted. |
| `UserServiceModel.UserService.CreatePasswordResetToken` | src/main/java/com/checkcheck/ecoreading/domain/users/service/UserService.java:241-253 | It fails with nothing written for an unknown email, and again for a Kakao account. Otherwise it adds exactly `"PassWordCode:"+token` mapped to the email and returns the token, and the token then validates. |
| `CacheKeys.IssuedTokenValid` | src/main/java/com/checkcheck/ecoreading/domain/users/service/UserService.java:251-291 | Once a token is stored for an existing account, it validates. |
| `UserServiceModel.UserService.ValidatePasswordResetToken` | src/main/java/com/checkcheck/ecoreading/domain/users/service/UserService.java:282-292 | False when nothing is stored under `"PassWordCode:"+token`. Otherwise true if and only if the stored email has an account. It changes no state. |
| `UserServiceModel.UserService.ChangePassword` | src/main/java/com/checkcheck/ecoreading/domain/users/service/UserService.java:305-322 | It fails with nothing changed when no email is stored for the token. It also fails with nothing changed when the stored email has no account. Otherwise only that account's password changes, to `encode(newPassword)`. Only `"PASSWORD_CODE_PREFIX"+token` is deleted, so the token still validates afterwards. |
| `CacheKeys.ResetTokenSurvivesChangePassword` | src/main/java/com/checkcheck/ecoreading/domain/users/service/UserService.java:305-322 | For every valid token, the key `changePassword` deletes is not the token's entry. The entry keeps the same email, and the token still validates. |
| `UserServiceModel.UserService.ChangePasswordConsumingToken` | src/main/java/com/checkcheck/ecoreading/domain/users/service/UserService.java:305-322 | The corrected form: the same checks and the same password update, then the token's own entry is deleted, so the token no longer validates. |
| `CacheKeys.ConsumedTokenInvalid` | src/main/java/com/checkcheck/ecoreading/domain/users/service/UserService.java:284-291 | Once `"PassWordCode:"+token` is deleted, the token does not validate. |
| `UserServiceModel.UserService.DeleteCookies` | src/main/java/com/checkcheck/ecoreading/domain/users/service/UserService.java:230-239 | Appends, in the order of the names, one cookie per name with a null value, path "/" and max age 0. Existing cookies are left in place. |
| `UserServiceModel.UserService.Logout` | src/main/java/com/checkcheck/ecoreading/domain/users/service/UserService.java:213-229 | With no authentication nothing changes. Otherwise the access and refresh cookies are expired. For a UserDetails or String principal, exactly `"RefreshToken:"+name` is deleted. Any other principal fails after the cookies are added, with the cache unchanged. |
| `CacheKeys.LogoutKeepsCodesAndTokens` | src/main/java/com/checkcheck/ecoreading/domain/users/service/UserService.java:221-224 | Deleting a refresh-token entry changes no verification code and no reset token. |
| `Cookies.IntValue` | src/main/java/com/checkcheck/ecoreading/domain/users/service/UserService.java:209 | `Long.intValue()` gives an int in the 32-bit range that agrees with the input modulo 2^32, and equals the input when the input fits. |
| `Cookies.CreateCookie` | src/main/java/com/checkcheck/ecoreading/domain/users/service/UserService.java:204-211 | The cookie has the given name and value, path "/", and is neither HttpOnly nor Secure. Its max age is the given value whenever that fits in an int. |
| `Cookies.Response.AddCookie` | src/main/java/com/checkcheck/ecoreading/domain/users/service/UserService.java:201-202 | A response's cookie list grows by exactly the added cookie, at the end. |
| `UserServiceModel.UserService.AddTokenCookiesToResponse` | src/main/java/com/checkcheck/ecoreading/domain/users/service/UserService.java:198-203 | Appends the access-token cookie (max age `30*60*1000`), then the refresh-token cookie with the token's own expiration time. |
| `Cookies.AccessCookieOutlivesHalfHour` | src/main/java/com/checkcheck/ecoreading/domain/users/service/UserService.java:199 | As written, the access-token cookie's max age is 1000 times thirty minutes: 500 hours. |
| `Cookies.TokenCookiesInSeconds` | src/main/java/com/checkcheck/ecoreading/domain/users/service/UserService.java:199 | The corrected cookies: the access cookie lives exactly 30 minutes (1800 s), one thousandth of the written value. The refresh cookie is unchanged. |
| `UserServiceModel.UserService.KakaoLogin` | src/main/java/com/checkcheck/ecoreading/domain/users/service/UserService.java:158-178 | Like the single-result `findBySocialAuthId` it calls, it fails when no row has the social id and fails again when several rows do. Neither failure adds a cookie. With exactly one such row it adds the two token cookies and returns the issued tokens. |
| `Cookies.FirstNamed` | src/main/java/com/checkcheck/ecoreading/domain/users/service/UserService.java:296-300 | The position found is at most the list's length, and equals the length when no cookie carries the name. When it is inside the list, the cookie there carries the name. No earlier cookie carries the name. |
| `UserServiceModel.UserService.GetUserIdFromAccessTokenCookie` | src/main/java/com/checkcheck/ecoreading/domain/users/service/UserService.java:294-303 | Gives no id (null) when no cookie is named "accessToken". Otherwise it gives exactly what the decoder returns for the value of the first such cookie (the one at `FirstNamed`), null included. |

## Left out

- Mail: `MailService.sendEmail`, `sendMailPasswordReset` and the HTML bodies are outbound I/O that stores no state. A mail failure between creating the code (line 119) and storing it (line 126) is not modelled; in the source it would leave nothing stored.
- Hashing, randomness and UUIDs: BCrypt's random salt is not modelled. `encode` is a fixed function, so equal passwords get equal hashes.
- Cache TTL: the expiry duration is wall-clock time inside the cache client. It appears only as the explicit `Expire` action.
- GetUserIdFromAccessTokenCookie: the JWT decoder is taken never to throw. When the token cannot be parsed, the source's `getUserIdFromToken` may throw at line 298; the model returns the decoder's answer.
- JWT: generation and parsing are abstract. `kakaoLogin` keeps only its two finder failures (no row, several rows) and its cookies. Building `CustomUserDetails` and setting the security context are not modelled.
- Framework calls: `login`/`authenticateUser` are delegated to the authentication manager and are not modelled. `SecurityContextLogoutHandler` in `logout` is not modelled either.
- Pass-through finders: `findAll`, `findAllById`, `findAllByEnabled`, `findByUserNameAndPhone` and `findTotalPointByUsersId` are one-line repository calls and are not modelled.
- Logging: the debug and info logs (lines 131, 176) and the `System.out.println` of the email and of the reset token itself (lines 242, 250, 285) are not modelled.
- Concurrency: each service call is modelled as one atomic step. The source serves each request on its own thread over a shared Redis and database. So interleavings between a check and the write that follows it are not modelled: `changePassword` at lines 306-321 and `sendCodeToEmail` at lines 115-126.
- Duplicate emails: the `Users` entity and its column constraints are not part of this model. The table is keyed by email, as `findByEmail` returning one `Optional<Users>` presumes. So `Save` and `SaveKakao` refuse an email that already has a row (`EmailTaken`) instead of inserting a second one.
- Null data: every string parameter is taken to be non-null: the sign-up form fields, `email`, `code`, `token` and `newPassword`. A null `Long` expiration time is not modelled either. In the source, `encode(null)` throws at line 315, and `PASSWORD_CODE_PREFIX + null` makes the key `"PassWordCode:null"`.
- GetUserIdFromAccessTokenCookie: a request with no cookies has a null `getCookies()` array, so the source throws NullPointerException at `UserService.java:296`; the model takes the cookies as a sequence and gives `None` for the empty one.
- RedisService is not part of this model. The cache is taken to behave as a plain map: `getValues` reads null (`None`) for a missing key, `setValues` overwrites any earlier value under the key, and `deleteValues` removes only that key.
- Hidden entity and DTO code: `Users.changePassword` is taken to set only the password field. The `Role` enum, `TokenInfo` and the DTO classes are not part of this model beyond the fields the service uses.
- Other files: the board controller, the book DTOs, the board and book repositories and the application entry point have no logic of their own and are not modelled.

## Findings

| source | as written | input that shows it | evidently intended | confidence | as-written member | corrected member |
|---|---|---|---|---|---|---|
| src/main/java/com/checkcheck/ecoreading/domain/users/service/UserService.java:321 | deletes the key `"PASSWORD_CODE_PREFIX"+token`, the constant's name in quotes | a valid reset token `t`: after `changePassword(t, p)` succeeds, `"PassWordCode:"+t` is still stored and `t` still validates, so it can reset the password again | delete `PASSWORD_CODE_PREFIX+token`, the key written at line 251, so a token works once | high, not executed | `UserServiceModel.UserService.ChangePassword` | `UserServiceModel.UserService.ChangePasswordConsumingToken` |
| src/main/java/com/checkcheck/ecoreading/domain/users/service/UserService.java:199 | the access-token cookie gets max age `30 * 60 * 1000L`, but `Cookie.setMaxAge` counts seconds | any login: the access cookie's max age is 1,800,000 s (500 hours) | 30 minutes, `30 * 60` seconds | medium, not executed | `Cookies.AccessCookieOutlivesHalfHour` | `Cookies.TokenCookiesInSeconds` |

In both rows the service model keeps the behaviour as written, because it models the code. The corrected members stand beside it, with the intended property proved.
