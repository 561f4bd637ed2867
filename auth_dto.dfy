/**
 * The authentication DTOs and their zod schemas (src/domain/auth/dto/auth.dto.ts). A schema is
 * modelled by the list of issues it reports, in the order zod reports them; an input is accepted
 * exactly when that list is empty. zod's e-mail check is not modelled: its verdict is a parameter.
 */
module AuthDto {
  import opened Stores
  import opened UserDto

  datatype SignUpDto = SignUpDto(name: string, email: string, password: string, passwordConfirmation: string)
  datatype SignInDto = SignInDto(email: string, password: string)
  datatype SendEmailDto = SendEmailDto(email: string, retry: Option<bool>)
  datatype VerifyOtpDto = VerifyOtpDto(email: string, otp: string)
  datatype SetPasswordDto = SetPasswordDto(email: string, newPassword: string)
  /** The two schemas below are imported by the service but not defined in the DTO file. */
  datatype ChangePasswordDto = ChangePasswordDto(oldPassword: string, newPassword: string)
  datatype ForgotPasswordDto = ForgotPasswordDto(email: string, otp: string, newPassword: string)

  predicate IsUpper(c: char) { 'A' <= c <= 'Z' }
  predicate IsLower(c: char) { 'a' <= c <= 'z' }
  predicate IsDigit(c: char) { '0' <= c <= '9' }
  /** The class `[!@#$%^&*()]`. */
  predicate IsSpecial(c: char) { c in "!@#$%^&*()" }

  predicate HasUpper(s: string) { exists i :: 0 <= i < |s| && IsUpper(s[i]) }
  predicate HasLower(s: string) { exists i :: 0 <= i < |s| && IsLower(s[i]) }
  predicate HasDigit(s: string) { exists i :: 0 <= i < |s| && IsDigit(s[i]) }
  predicate HasSpecial(s: string) { exists i :: 0 <= i < |s| && IsSpecial(s[i]) }

  /** The password policy: 8 to 32 characters with an upper, a lower, a digit and a special. */
  predicate StrongPassword(s: string)
  {
    8 <= |s| <= 32 && HasUpper(s) && HasLower(s) && HasDigit(s) && HasSpecial(s)
  }

  /** The six messages one password field reports, in check order. */
  datatype PolicyMessages = PolicyMessages(
    tooShort: string, tooLong: string, upper: string, lower: string, digit: string, special: string)

  const SignUpMessages := PolicyMessages(
    "Password must be at least 8 characters",
    "Password can be at most 32 characters",
    "Password must contain at least one uppercase letter",
    "Password must contain at least one lowercase letter",
    "Password must contain at least one number",
    "Password must contain at least one special character")

  /** SetPasswordSchema gives custom messages for the classes only; the bounds use zod's own. */
  const SetPasswordMessages := PolicyMessages(
    "String must contain at least 8 character(s)",
    "String must contain at most 32 character(s)",
    "Must contain uppercase",
    "Must contain lowercase",
    "Must contain number",
    "Must contain special char")

  function When(failed: bool, path: string, message: string): seq<Issue>
  {
    if failed then [Issue(path, message)] else []
  }

  /** Every failing check of the policy on field `path`, in order. */
  function PolicyIssues(path: string, s: string, m: PolicyMessages): (r: seq<Issue>)
    ensures r == [] <==> StrongPassword(s)
    ensures forall i :: 0 <= i < |r| ==> r[i].path == path
    ensures |s| < 8 ==> r[0] == Issue(path, m.tooShort)
    ensures |s| > 32 ==> Issue(path, m.tooLong) in r
    ensures !HasSpecial(s) ==> Issue(path, m.special) in r
  {
    When(|s| < 8, path, m.tooShort) + When(|s| > 32, path, m.tooLong)
    + When(!HasUpper(s), path, m.upper) + When(!HasLower(s), path, m.lower)
    + When(!HasDigit(s), path, m.digit) + When(!HasSpecial(s), path, m.special)
  }

  /**
   * `SignUpSchema`: the field checks, then the refinement that the two passwords are equal.
   * The refinement runs even when a field check failed, and reports on `password_confirmation`.
   */
  function SignUpIssues(dto: SignUpDto, emailOk: bool): (r: seq<Issue>)
    ensures r == [] <==>
      dto.name != "" && emailOk && StrongPassword(dto.password)
      && StrongPassword(dto.passwordConfirmation) && dto.password == dto.passwordConfirmation
    ensures dto.password != dto.passwordConfirmation ==>
      |r| > 0 && r[|r| - 1] == Issue("password_confirmation", "Passwords do not match")
    ensures dto.name == "" ==> |r| > 0 && r[0] == Issue("name", "Name is required")
  {
    When(dto.name == "", "name", "Name is required")
    + When(!emailOk, "email", "Invalid email address")
    + PolicyIssues("password", dto.password, SignUpMessages)
    + PolicyIssues("password_confirmation", dto.passwordConfirmation, SignUpMessages)
    + When(dto.password != dto.passwordConfirmation, "password_confirmation", "Passwords do not match")
  }

  /** `SignInSchema`: the password only has to be non-empty. */
  function SignInIssues(dto: SignInDto, emailOk: bool): (r: seq<Issue>)
    ensures r == [] <==> emailOk && |dto.password| >= 1
  {
    When(!emailOk, "email", "Invalid email address") + When(|dto.password| < 1, "password", "Password is required")
  }

  /** `SendEmailSchema`: only the address is checked; `retry` may be absent. */
  function SendEmailIssues(dto: SendEmailDto, emailOk: bool): (r: seq<Issue>)
    ensures r == [] <==> emailOk
  {
    When(!emailOk, "email", "Invalid email address")
  }

  /** `VerifyOtpSchema`: the code only has to be non-empty. */
  function VerifyOtpIssues(dto: VerifyOtpDto, emailOk: bool): (r: seq<Issue>)
    ensures r == [] <==> emailOk && |dto.otp| >= 1
  {
    When(!emailOk, "email", "Invalid email address") + When(|dto.otp| < 1, "otp", "OTP is required")
  }

  /** `SetPasswordSchema`: `new_password` follows the sign-up policy. */
  function SetPasswordIssues(dto: SetPasswordDto, emailOk: bool): (r: seq<Issue>)
    ensures r == [] <==> emailOk && StrongPassword(dto.newPassword)
  {
    When(!emailOk, "email", "Invalid email address") + PolicyIssues("new_password", dto.newPassword, SetPasswordMessages)
  }

  /** The second `toUserResponse`, in the auth DTO file. */
  function ToUserResponse(u: UserRow): (r: UserResponse)
    ensures r.id == u.id && r.name == u.name && r.email == u.email
    ensures r.createdAt == u.createdAt && r.updatedAt == u.updatedAt
    ensures r.loginAt == u.loginAt && r.emailVerified == u.emailVerified
  {
    UserResponse(u.id, u.name, u.email, u.createdAt, u.updatedAt, u.loginAt, u.emailVerified)
  }

  /** Both projections agree. */
  lemma SameProjection(u: UserRow)
    ensures ToUserResponse(u) == UserDto.ToUserResponse(u)
  {
  }

  /** A password accepted by the sign-up schema is accepted by the set-password schema, and back. */
  lemma SamePolicy(s: string)
    ensures PolicyIssues("password", s, SignUpMessages) == [] <==> PolicyIssues("new_password", s, SetPasswordMessages) == []
  {
  }

  /** A concrete strong password, and one rejected for each missing class. */
  lemma PolicyExamples()
    ensures StrongPassword("Secret#12")
    ensures !StrongPassword("secret#12") && !StrongPassword("SECRET#12")
    ensures !StrongPassword("Secret#ab") && !StrongPassword("Secret912")
    ensures !StrongPassword("Se#1")
  {
    assert IsUpper("Secret#12"[0]) && IsLower("Secret#12"[1]) && IsSpecial("Secret#12"[6]) && IsDigit("Secret#12"[7]);
    assert forall i :: 0 <= i < |"secret#12"| ==> !IsUpper("secret#12"[i]);
    assert forall i :: 0 <= i < |"SECRET#12"| ==> !IsLower("SECRET#12"[i]);
    assert forall i :: 0 <= i < |"Secret#ab"| ==> !IsDigit("Secret#ab"[i]);
    assert forall i :: 0 <= i < |"Secret912"| ==> !IsSpecial("Secret912"[i]);
  }
}
