/** The keys the service writes to and deletes from the key-value cache, and what an entry means. */
module CacheKeys {
  import opened Users

  /** Prefix of the verification-code entry of an email (`AUTH_CODE_PREFIX`). */
  const AuthCodePrefix := "AuthCode:"
  /** Prefix of the password-reset entry of a token (`PASSWORD_CODE_PREFIX`). */
  const PasswordCodePrefix := "PassWordCode:"
  /** Prefix of the refresh-token entry of a user, deleted on logout. */
  const RefreshTokenPrefix := "RefreshToken:"
  /** The literal `changePassword` deletes under: the constant's name in quotes, not its value. */
  const StalePasswordCodePrefix := "PASSWORD_CODE_PREFIX"

  function AuthCodeKey(email: string): string { AuthCodePrefix + email }
  function PasswordCodeKey(token: string): string { PasswordCodePrefix + token }
  function RefreshTokenKey(name: string): string { RefreshTokenPrefix + name }
  function StalePasswordCodeKey(token: string): string { StalePasswordCodePrefix + token }

  /** Two strings that start with prefixes differing at position `i` are different. */
  lemma PrefixesSeparate(p: string, q: string, a: string, b: string, i: nat)
    requires i < |p| && i < |q| && p[i] != q[i]
    ensures p + a != q + b
  {
    assert (p + a)[i] == p[i];
    assert (q + b)[i] == q[i];
  }

  /** The four kinds of key never collide, whatever the email, token or user name. */
  lemma KeyKindsDisjoint(email: string, token: string, name: string, other: string)
    ensures AuthCodeKey(email) != PasswordCodeKey(token)
    ensures AuthCodeKey(email) != RefreshTokenKey(name)
    ensures PasswordCodeKey(token) != RefreshTokenKey(name)
    ensures StalePasswordCodeKey(other) != PasswordCodeKey(token)
    ensures StalePasswordCodeKey(other) != AuthCodeKey(email)
    ensures StalePasswordCodeKey(other) != RefreshTokenKey(name)
  {
    PrefixesSeparate(AuthCodePrefix, PasswordCodePrefix, email, token, 0);
    PrefixesSeparate(AuthCodePrefix, RefreshTokenPrefix, email, name, 0);
    PrefixesSeparate(PasswordCodePrefix, RefreshTokenPrefix, token, name, 0);
    PrefixesSeparate(StalePasswordCodePrefix, PasswordCodePrefix, other, token, 1);
    PrefixesSeparate(StalePasswordCodePrefix, AuthCodePrefix, other, email, 0);
    PrefixesSeparate(StalePasswordCodePrefix, RefreshTokenPrefix, other, name, 0);
  }

  /** The success condition of `verifiedCode`: the email is still free and the stored code matches. */
  predicate CodeAccepted(users: map<string, User>, cache: map<string, string>, email: string, code: string)
  {
    email !in users && AuthCodeKey(email) in cache && cache[AuthCodeKey(email)] == code
  }

  /** The answer of `validatePasswordResetToken`: an email is stored for the token and it has an account. */
  predicate ResetTokenValid(users: map<string, User>, cache: map<string, string>, token: string)
  {
    PasswordCodeKey(token) in cache && cache[PasswordCodeKey(token)] in users
  }

  /** After a code is stored for a free email, exactly that code is accepted for it. */
  lemma IssuedCodeAccepted(users: map<string, User>, cache: map<string, string>, email: string, code: string, attempt: string)
    requires email !in users
    ensures CodeAccepted(users, cache[AuthCodeKey(email) := code], email, attempt) <==> attempt == code
  {
  }

  /** Once an account holds the email, no stored code is accepted for it any more. */
  lemma RegisteredEmailRejectsCodes(users: map<string, User>, cache: map<string, string>, email: string, u: User, code: string)
    ensures !CodeAccepted(users[email := u], cache, email, code)
  {
  }

  /** A code whose cache entry has expired is no longer accepted. */
  lemma ExpiredCodeRejected(users: map<string, User>, cache: map<string, string>, email: string, code: string)
    ensures !CodeAccepted(users, cache - {AuthCodeKey(email)}, email, code)
  {
  }

  /** After a token is stored for an existing account, the token validates. */
  lemma IssuedTokenValid(users: map<string, User>, cache: map<string, string>, email: string, token: string)
    requires email in users
    ensures ResetTokenValid(users, cache[PasswordCodeKey(token) := email], token)
  {
  }

  /** Storing a verification code leaves every reset token as valid or invalid as it was. */
  lemma CodeIssueKeepsResetTokens(users: map<string, User>, cache: map<string, string>, email: string, code: string, token: string)
    ensures ResetTokenValid(users, cache[AuthCodeKey(email) := code], token) == ResetTokenValid(users, cache, token)
  {
    KeyKindsDisjoint(email, token, "", "");
  }

  /** Storing a reset token leaves every verification code as accepted or rejected as it was. */
  lemma TokenIssueKeepsCodes(users: map<string, User>, cache: map<string, string>, owner: string, token: string, email: string, code: string)
    ensures CodeAccepted(users, cache[PasswordCodeKey(token) := owner], email, code) == CodeAccepted(users, cache, email, code)
  {
    KeyKindsDisjoint(email, token, "", "");
  }

  /** Deleting a refresh token on logout touches neither verification codes nor reset tokens. */
  lemma LogoutKeepsCodesAndTokens(users: map<string, User>, cache: map<string, string>, name: string, email: string, code: string, token: string)
    ensures CodeAccepted(users, cache - {RefreshTokenKey(name)}, email, code) == CodeAccepted(users, cache, email, code)
    ensures ResetTokenValid(users, cache - {RefreshTokenKey(name)}, token) == ResetTokenValid(users, cache, token)
  {
    KeyKindsDisjoint(email, token, name, "");
  }

  /** As written, `changePassword` never removes a reset entry: the token it was given still validates
      afterwards, for the same account, whatever that account's record was changed to. */
  lemma ResetTokenSurvivesChangePassword(users: map<string, User>, cache: map<string, string>, token: string, updated: User)
    requires ResetTokenValid(users, cache, token)
    ensures var email := cache[PasswordCodeKey(token)];
      var cache' := cache - {StalePasswordCodeKey(token)};
      && PasswordCodeKey(token) in cache' && cache'[PasswordCodeKey(token)] == email
      && ResetTokenValid(users[email := updated], cache', token)
  {
    KeyKindsDisjoint("", token, "", token);
  }

  /** Deleting the key that `createPasswordResetToken` wrote consumes the token. */
  lemma ConsumedTokenInvalid(users: map<string, User>, cache: map<string, string>, token: string)
    ensures !ResetTokenValid(users, cache - {PasswordCodeKey(token)}, token)
  {
  }
}
