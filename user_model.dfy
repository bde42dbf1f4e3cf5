/** The user record: the role and language enums of the user schema, plus the
    account fields the authentication controller reads and writes
    (`password`, `verificationInfo`, `password_reset_token`, `refreshToken`),
    which that controller uses although the schema does not declare them. */
module UserModel {
  import opened Common

  /** `RoleEnum`. */
  datatype Role = Admin | Agent | Customer

  function RoleName(r: Role): string {
    match r
    case Admin => "ADMIN"
    case Agent => "AGENT"
    case Customer => "CUSTOMER"
  }

  /** `LanguageEnum`. */
  datatype Language = EN | BN

  function LanguageName(l: Language): string {
    match l
    case EN => "EN"
    case BN => "BN"
  }

  const LanguageEnum: seq<string> := ["EN", "BN"]

  /** `LanguageEnum.includes(s)`, returning the member. */
  function ParseLanguage(s: string): (r: Option<Language>)
    ensures r.Some? <==> s in LanguageEnum
    ensures r.Some? ==> LanguageName(r.value) == s
  {
    if s == "EN" then Some(EN) else if s == "BN" then Some(BN) else None
  }

  /** `verificationInfo`: the pending e-mail OTP token ("" when none) and
      whether the address has been verified. */
  datatype VerificationInfo = VerificationInfo(token: string, verified: bool)

  datatype User = User(
    id: Id,
    name: string,
    email: string,
    phone: Option<string>,
    role: Role,
    language: Language,
    isActive: bool,
    password: Option<string>,
    verification: VerificationInfo,
    passwordResetToken: Option<string>,
    refreshToken: Option<string>)

  /** The authenticated actor a request carries (`req.user`). */
  datatype Actor = Actor(id: Id, role: Role)
}
