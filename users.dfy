/** The user record of the account table and the two ways the service builds one on registration. */
module Users {
  import opened Wrappers

  /** The `Role` enum is not part of this model; registration only ever assigns ROLE_USER. */
  datatype Role = RoleUser | OtherRole(name: string)

  /** The fields of a `Users` row that the service reads or writes. */
  datatype User = User(
    usersId: nat,
    email: string,
    birthDate: string,
    nickName: string,
    phone: string,
    userName: string,
    password: Option<string>,
    role: Role,
    detailAddress: string,
    roadAddress: string,
    postcode: string,
    socialAuthId: Option<int>,
    socialAuth: Option<string>,
    enabled: bool,
    emailVerified: bool)

  /** The sign-up form of a local account. */
  datatype RegisterRequest = RegisterRequest(
    email: string,
    birthdate: string,
    nickname: string,
    phone: string,
    username: string,
    password: string,
    detailAddress: string,
    roadAddress: string,
    postcode: string)

  /** The sign-up form of an account created through Kakao login. */
  datatype KakaoRegisterRequest = KakaoRegisterRequest(
    email: string,
    birthdate: string,
    nickname: string,
    phone: string,
    username: string,
    socialAuthId: int,
    detailAddress: string,
    roadAddress: string,
    postcode: string)

  /** The provider name that marks a Kakao account. */
  const KakaoProvider := "kakao"

  /** The row `save` builds: an encoded password, no social login, enabled, email not yet verified. */
  function LocalUser(id: nat, dto: RegisterRequest, encodedPassword: string): User
  {
    User(id, dto.email, dto.birthdate, dto.nickname, dto.phone, dto.username,
         Some(encodedPassword), RoleUser, dto.detailAddress, dto.roadAddress, dto.postcode,
         None, None, true, false)
  }

  /** The row `saveKakao` builds: no password, marked "kakao", enabled, email already verified. */
  function KakaoUser(id: nat, dto: KakaoRegisterRequest): User
  {
    User(id, dto.email, dto.birthdate, dto.nickname, dto.phone, dto.username,
         None, RoleUser, dto.detailAddress, dto.roadAddress, dto.postcode,
         Some(dto.socialAuthId), Some(KakaoProvider), true, true)
  }

  /** `"kakao".equals(user.getSocialAuth())`: false when the field is null. */
  predicate IsKakaoAccount(u: User)
  {
    u.socialAuth == Some(KakaoProvider)
  }

  /** The two registration paths fix different fields, and only the local path yields an account
      that may ask for a password reset. */
  lemma RegistrationPathsDiffer(id: nat, local: RegisterRequest, encoded: string, kakao: KakaoRegisterRequest)
    ensures var u := LocalUser(id, local, encoded);
      && u.usersId == id && u.email == local.email
      && u.role == RoleUser && u.enabled && !u.emailVerified
      && u.password == Some(encoded) && u.socialAuthId.None?
      && !IsKakaoAccount(u)
    ensures var k := KakaoUser(id, kakao);
      && k.usersId == id && k.email == kakao.email
      && k.role == RoleUser && k.enabled && k.emailVerified
      && k.password.None? && k.socialAuthId == Some(kakao.socialAuthId)
      && IsKakaoAccount(k)
  {
  }
}
