/** The account-token lifecycle of the user service: registration, email verification codes,
    password-reset tokens and session cookies, over a key-value cache and the user table. */
module UserServiceModel {
  import opened Wrappers
  import opened Users
  import opened AuthCodes
  import opened CacheKeys
  import opened Cookies

  /** The exceptions the service throws, one per distinct check. */
  datatype Error =
    | DuplicateMember        // checkDuplicatedEmail: the email already has an account (400)
    | AlgorithmUnavailable   // createCode: no strong SecureRandom algorithm (400)
    | WrongAuthCode          // verifiedCode: missing or different code (400)
    | EmailTaken             // save / saveKakao: the email already has a row
    | UsernameNotFound       // createPasswordResetToken / kakaoLogin: no such account
    | KakaoResetUnsupported  // createPasswordResetToken: Kakao accounts have no password
    | InvalidResetToken      // changePassword: nothing stored for the token
    | ResetUserNotFound      // changePassword: the stored email has no account
    | UnexpectedPrincipal    // logout: principal neither UserDetails nor String
    | NonUniqueSocialId      // kakaoLogin: the single-result finder matched several rows

  /** The principal of the current authentication. */
  datatype Principal = UserDetailsPrincipal(username: string) | NamePrincipal(name: string) | OtherPrincipal

  class UserService {
    /** The Redis store: key to value. */
    var cache: map<string, string>
    /** The user table, by email. */
    var users: map<string, User>
    /** The id the table gives the next inserted row. */
    var nextId: nat
    /** The BCrypt password encoder. */
    const encode: string -> string
    /** The JWT provider's `getUserIdFromToken`; `None` is a null `Long`. */
    const userIdFromToken: Option<string> -> Option<int>

    /** Every row is filed under its own email and has an id of its own below `nextId`. */
    ghost predicate Valid()
      reads this
    {
      && (forall e :: e in users ==> users[e].email == e && users[e].usersId < nextId)
      && (forall e, f :: e in users && f in users && e != f ==> users[e].usersId != users[f].usersId)
    }

    constructor (encode: string -> string, userIdFromToken: Option<string> -> Option<int>)
      ensures Valid()
      ensures cache == map[] && users == map[] && nextId == 1
      ensures this.encode == encode && this.userIdFromToken == userIdFromToken
    {
      this.encode := encode;
      this.userIdFromToken := userIdFromToken;
      cache := map[];
      users := map[];
      nextId := 1;
    }

    /** Inserts `u` under a fresh id; the caller has checked that its email is free. */
    method Insert(u: User) returns (id: nat)
      requires Valid() && u.email !in users && u.usersId == nextId
      modifies this`users, this`nextId
      ensures Valid()
      ensures id == old(nextId) && nextId == old(nextId) + 1
      ensures users == old(users)[u.email := u]
    {
      id := nextId;
      users := users[u.email := u];
      nextId := nextId + 1;
    }

    /** `save`: registers a local account with an encoded password, ROLE_USER, enabled, email unverified. */
    method Save(dto: RegisterRequest) returns (r: Result<nat, Error>)
      requires Valid()
      modifies this`users, this`nextId
      ensures Valid()
      ensures dto.email in old(users) ==> r == Failure(EmailTaken) && users == old(users) && nextId == old(nextId)
      ensures dto.email !in old(users) ==>
        && r == Success(old(nextId)) && nextId == old(nextId) + 1
        && users == old(users)[dto.email := LocalUser(old(nextId), dto, encode(dto.password))]
    {
      if dto.email in users {
        return Failure(EmailTaken);
      }
      var id := Insert(LocalUser(nextId, dto, encode(dto.password)));
      r := Success(id);
    }

    /** `saveKakao`: registers a Kakao account without password, marked "kakao", enabled, email verified. */
    method SaveKakao(dto: KakaoRegisterRequest) returns (r: Result<nat, Error>)
      requires Valid()
      modifies this`users, this`nextId
      ensures Valid()
      ensures dto.email in old(users) ==> r == Failure(EmailTaken) && users == old(users) && nextId == old(nextId)
      ensures dto.email !in old(users) ==>
        && r == Success(old(nextId)) && nextId == old(nextId) + 1
        && users == old(users)[dto.email := KakaoUser(old(nextId), dto)]
    {
      if dto.email in users {
        return Failure(EmailTaken);
      }
      var id := Insert(KakaoUser(nextId, dto));
      r := Success(id);
    }

    /** `checkDuplicatedEmail`: fails exactly when an account already holds the email. */
    method CheckDuplicatedEmail(email: string) returns (r: Outcome<Error>)
      ensures email in users ==> r == Fail(DuplicateMember)
      ensures email !in users ==> r == Pass
    {
      if email in users {
        return Fail(DuplicateMember);
      }
      return Pass;
    }

    /** `createCode`: six draws of `nextInt(10)` appended as decimal digits; `strongRandom` is `None`
        when no strong algorithm is available. */
    method CreateCode(strongRandom: Option<nat -> Digit>) returns (r: Result<string, Error>)
      ensures strongRandom.None? ==> r == Failure(AlgorithmUnavailable)
      ensures strongRandom.Some? ==>
        && r == Success(Rendered(strongRandom.value, CodeLength))
        && IsAuthCode(r.value)
        && forall i :: 0 <= i < CodeLength ==> DigitValue(r.value[i]) == strongRandom.value(i)
    {
      if strongRandom.None? {
        return Failure(AlgorithmUnavailable);
      }
      var random := strongRandom.value;
      var builder := "";
      for i := 0 to CodeLength
        invariant builder == Rendered(random, i)
      {
        builder := builder + [DigitChar(random(i))];
      }
      RenderedDigits(random, CodeLength);
      r := Success(builder);
    }

    /** `sendCodeToEmail`: for an email no account holds, stores a fresh code under "AuthCode:"+email
        and changes nothing else; any failure happens before the cache is written. */
    method SendCodeToEmail(toEmail: string, strongRandom: Option<nat -> Digit>) returns (r: Outcome<Error>)
      modifies this`cache
      ensures toEmail in users ==> r == Fail(DuplicateMember) && cache == old(cache)
      ensures toEmail !in users && strongRandom.None? ==> r == Fail(AlgorithmUnavailable) && cache == old(cache)
      ensures toEmail !in users && strongRandom.Some? ==>
        && r == Pass
        && IsAuthCode(Rendered(strongRandom.value, CodeLength))
        && cache == old(cache)[AuthCodeKey(toEmail) := Rendered(strongRandom.value, CodeLength)]
    {
      var duplicate := CheckDuplicatedEmail(toEmail);
      if duplicate.Fail? {
        return duplicate;
      }
      var code := CreateCode(strongRandom);
      if code.Failure? {
        return Fail(code.error);
      }
      cache := cache[AuthCodeKey(toEmail) := code.value];
      r := Pass;
    }

    /** `verifiedCode`: passes exactly when the email is still free and the stored code equals `code`. */
    method VerifiedCode(email: string, code: string) returns (r: Outcome<Error>)
      ensures r == Pass <==> CodeAccepted(users, cache, email, code)
      ensures email in users ==> r == Fail(DuplicateMember)
      ensures email !in users && !CodeAccepted(users, cache, email, code) ==> r == Fail(WrongAuthCode)
    {
      var duplicate := CheckDuplicatedEmail(email);
      if duplicate.Fail? {
        return duplicate;
      }
      var key := AuthCodeKey(email);
      if key !in cache || cache[key] != code {
        return Fail(WrongAuthCode);
      }
      r := Pass;
    }

    /** `createPasswordResetToken`: for an existing non-Kakao account, stores "PassWordCode:"+token
        mapping to the email and returns the token; otherwise fails without writing. */
    method CreatePasswordResetToken(email: string, token: string) returns (r: Result<string, Error>)
      modifies this`cache
      ensures email !in users ==> r == Failure(UsernameNotFound) && cache == old(cache)
      ensures email in users && IsKakaoAccount(users[email]) ==>
        r == Failure(KakaoResetUnsupported) && cache == old(cache)
      ensures email in users && !IsKakaoAccount(users[email]) ==>
        r == Success(token) && cache == old(cache)[PasswordCodeKey(token) := email]
      ensures r.Success? ==> ResetTokenValid(users, cache, token)
    {
      if email !in users {
        return Failure(UsernameNotFound);
      }
      if IsKakaoAccount(users[email]) {
        return Failure(KakaoResetUnsupported);
      }
      cache := cache[PasswordCodeKey(token) := email];
      r := Success(token);
    }

    /** `validatePasswordResetToken`: false when nothing is stored for the token, else whether the
        stored email has an account. */
    method ValidatePasswordResetToken(token: string) returns (valid: bool)
      ensures PasswordCodeKey(token) !in cache ==> !valid
      ensures PasswordCodeKey(token) in cache ==> (valid <==> cache[PasswordCodeKey(token)] in users)
    {
      var key := PasswordCodeKey(token);
      if key !in cache {
        return false;
      }
      valid := cache[key] in users;
    }

    /** `changePassword` as written: sets the account's password to `encode(newPassword)` and deletes
        "PASSWORD_CODE_PREFIX"+token, so the entry "PassWordCode:"+token stays and the token stays valid. */
    method ChangePassword(token: string, newPassword: string) returns (r: Outcome<Error>)
      requires Valid()
      modifies this`users, this`cache
      ensures Valid()
      ensures PasswordCodeKey(token) !in old(cache) ==>
        r == Fail(InvalidResetToken) && users == old(users) && cache == old(cache)
      ensures PasswordCodeKey(token) in old(cache) && old(cache)[PasswordCodeKey(token)] !in old(users) ==>
        r == Fail(ResetUserNotFound) && users == old(users) && cache == old(cache)
      ensures ResetTokenValid(old(users), old(cache), token) ==>
        var email := old(cache)[PasswordCodeKey(token)];
        && r == Pass
        && users == old(users)[email := old(users)[email].(password := Some(encode(newPassword)))]
        && cache == old(cache) - {StalePasswordCodeKey(token)}
      ensures r == Pass ==> ResetTokenValid(users, cache, token)
    {
      var key := PasswordCodeKey(token);
      if key !in cache {
        return Fail(InvalidResetToken);
      }
      var email := cache[key];
      if email !in users {
        return Fail(ResetUserNotFound);
      }
      var updated := users[email].(password := Some(encode(newPassword)));
      ResetTokenSurvivesChangePassword(users, cache, token, updated);
      users := users[email := updated];
      cache := cache - {StalePasswordCodeKey(token)};
      r := Pass;
    }

    /** `changePassword` as evidently intended: the same checks and update, then the key that
        `createPasswordResetToken` wrote is deleted, so the token cannot be used again. */
    method ChangePasswordConsumingToken(token: string, newPassword: string) returns (r: Outcome<Error>)
      requires Valid()
      modifies this`users, this`cache
      ensures Valid()
      ensures PasswordCodeKey(token) !in old(cache) ==>
        r == Fail(InvalidResetToken) && users == old(users) && cache == old(cache)
      ensures PasswordCodeKey(token) in old(cache) && old(cache)[PasswordCodeKey(token)] !in old(users) ==>
        r == Fail(ResetUserNotFound) && users == old(users) && cache == old(cache)
      ensures ResetTokenValid(old(users), old(cache), token) ==>
        var email := old(cache)[PasswordCodeKey(token)];
        && r == Pass
        && users == old(users)[email := old(users)[email].(password := Some(encode(newPassword)))]
        && cache == old(cache) - {PasswordCodeKey(token)}
      ensures r == Pass ==> !ResetTokenValid(users, cache, token)
    {
      var key := PasswordCodeKey(token);
      if key !in cache {
        return Fail(InvalidResetToken);
      }
      var email := cache[key];
      if email !in users {
        return Fail(ResetUserNotFound);
      }
      users := users[email := users[email].(password := Some(encode(newPassword)))];
      cache := cache - {key};
      ConsumedTokenInvalid(users, old(cache), token);
      r := Pass;
    }

    /** The cache dropping an entry whose time to live has run out. */
    method Expire(key: string)
      modifies this`cache
      ensures cache == old(cache) - {key}
    {
      cache := cache - {key};
    }

    /** `deleteCookies`: adds, in the order of `names`, one expired cookie per name and nothing else. */
    method DeleteCookies(response: Response, names: seq<string>)
      modifies response
      ensures |response.cookies| == |old(response.cookies)| + |names|
      ensures response.cookies[..|old(response.cookies)|] == old(response.cookies)
      ensures forall i :: 0 <= i < |names| ==>
        var c := response.cookies[|old(response.cookies)| + i];
        c.name == names[i] && c.value == None && c.path == "/" && c.maxAge == 0 && !c.httpOnly && !c.secure
    {
      var k := 0;
      while k < |names|
        invariant 0 <= k <= |names|
        invariant |response.cookies| == |old(response.cookies)| + k
        invariant response.cookies[..|old(response.cookies)|] == old(response.cookies)
        invariant forall i {:trigger response.cookies[i]} :: |old(response.cookies)| <= i < |old(response.cookies)| + k ==>
          response.cookies[i] == ExpiredCookie(names[i - |old(response.cookies)|])
      {
        response.AddCookie(ExpiredCookie(names[k]));
        k := k + 1;
      }
    }

    /** `logout`: without an authentication nothing changes; otherwise both token cookies are expired
        and the principal's "RefreshToken:" entry is deleted, or, for a principal of another type,
        the call fails after the cookies were added and before the cache is touched. */
    method Logout(authentication: Option<Principal>, response: Response) returns (r: Outcome<Error>)
      modifies this`cache, response
      ensures authentication.None? ==>
        r == Pass && cache == old(cache) && response.cookies == old(response.cookies)
      ensures authentication.Some? ==>
        response.cookies == old(response.cookies) + [ExpiredCookie(AccessTokenCookie), ExpiredCookie(RefreshTokenCookie)]
      ensures authentication.Some? && authentication.value.UserDetailsPrincipal? ==>
        r == Pass && cache == old(cache) - {RefreshTokenKey(authentication.value.username)}
      ensures authentication.Some? && authentication.value.NamePrincipal? ==>
        r == Pass && cache == old(cache) - {RefreshTokenKey(authentication.value.name)}
      ensures authentication.Some? && authentication.value.OtherPrincipal? ==>
        r == Fail(UnexpectedPrincipal) && cache == old(cache)
    {
      if authentication.None? {
        return Pass;
      }
      var before, names := response.cookies, [AccessTokenCookie, RefreshTokenCookie];
      DeleteCookies(response, names);
      assert response.cookies[|before|] == ExpiredCookie(names[0]);
      assert response.cookies[|before| + 1] == ExpiredCookie(names[1]);
      assert response.cookies == before + [ExpiredCookie(AccessTokenCookie), ExpiredCookie(RefreshTokenCookie)];
      match authentication.value
      case UserDetailsPrincipal(username) =>
        cache := cache - {RefreshTokenKey(username)};
        r := Pass;
      case NamePrincipal(name) =>
        cache := cache - {RefreshTokenKey(name)};
        r := Pass;
      case OtherPrincipal =>
        r := Fail(UnexpectedPrincipal);
    }

    /** `addTokenCookiesToResponse`: adds the access-token cookie, then the refresh-token cookie. */
    method AddTokenCookiesToResponse(info: TokenInfo, response: Response)
      modifies response
      ensures response.cookies == old(response.cookies) + TokenCookies(info)
    {
      response.AddCookie(CreateCookie(AccessTokenCookie, info.accessToken, AccessTokenCookieMaxAge));
      response.AddCookie(CreateCookie(RefreshTokenCookie, info.refreshToken, info.refreshTokenExpirationTime));
    }

    /** The emails of the rows whose social id is `socialId`: what `findBySocialAuthId` looks at. */
    function SocialIdHolders(socialId: int): set<string>
      reads this
    {
      set e | e in users && users[e].socialAuthId == Some(socialId)
    }

    /** `kakaoLogin`, as far as the service decides it: the single-result finder fails when no row has
        the social id and throws when several do; with exactly one, the token cookies are set and the
        tokens the JWT provider issued are returned. */
    method KakaoLogin(socialId: int, info: TokenInfo, response: Response) returns (r: Result<TokenInfo, Error>)
      modifies response
      ensures |SocialIdHolders(socialId)| == 0 ==>
        r == Failure(UsernameNotFound) && response.cookies == old(response.cookies)
      ensures |SocialIdHolders(socialId)| > 1 ==>
        r == Failure(NonUniqueSocialId) && response.cookies == old(response.cookies)
      ensures |SocialIdHolders(socialId)| == 1 ==>
        r == Success(info) && response.cookies == old(response.cookies) + TokenCookies(info)
    {
      var holders := SocialIdHolders(socialId);
      if |holders| == 0 {
        return Failure(UsernameNotFound);
      }
      if |holders| > 1 {
        return Failure(NonUniqueSocialId);
      }
      AddTokenCookiesToResponse(info, response);
      r := Success(info);
    }

    /** `getUserIdFromAccessTokenCookie`: decodes the value of the first cookie named "accessToken",
        or gives `None` (null) when there is none. */
    method GetUserIdFromAccessTokenCookie(cookies: seq<Cookie>) returns (id: Option<int>)
      ensures (forall i :: 0 <= i < |cookies| ==> cookies[i].name != AccessTokenCookie) ==> id.None?
      ensures FirstNamed(cookies, AccessTokenCookie) < |cookies| ==>
        id == userIdFromToken(cookies[FirstNamed(cookies, AccessTokenCookie)].value)
    {
      var k := 0;
      while k < |cookies|
        invariant 0 <= k <= |cookies|
        invariant forall j :: 0 <= j < k ==> cookies[j].name != AccessTokenCookie
      {
        if cookies[k].name == AccessTokenCookie {
          return userIdFromToken(cookies[k].value);
        }
        k := k + 1;
      }
      return None;
    }
  }
}
