/**
 * The four client-side form schemas of the authentication pages: register,
 * login, forgot-password and reset-password. Each schema turns the fields of
 * a form into the set of issues zod reports, every issue naming the field it
 * is attached to and a message; a form is accepted when that set is empty.
 *
 * zod's e-mail check is passed in as `isEmail`, the same predicate for every
 * schema.
 */
module Auth {
  import opened JsString
  import opened PasswordPattern
  import opened ZodString

  /** The form fields an issue can be attached to (its zod `path`). */
  datatype Field = Name | Email | Password | ConfirmPassword

  /** The messages the schemas attach to their issues; `Text` gives their wording. */
  datatype Message =
    | NameTooShort | NameTooLong | InvalidEmail
    | PasswordTooShort | PasswordTooWeak | PasswordRequired | PasswordsDontMatch

  type AuthIssue = Issue<Field, Message>

  datatype Option<T> = None | Some(value: T)

  function Text(m: Message): string {
    match m
    case NameTooShort => "Name must be at least 2 characters"
    case NameTooLong => "Name must not exceed 50 characters"
    case InvalidEmail => "Invalid email address"
    case PasswordTooShort => "Password must be at least 8 characters"
    case PasswordTooWeak => "Password must contain at least one uppercase letter, one lowercase letter, and one number"
    case PasswordRequired => "Password is required"
    case PasswordsDontMatch => "Passwords don't match"
  }

  /** The length of each message's wording and its twelfth character from the end, which together tell the messages apart. */
  function TextKey(m: Message): (int, char) {
    match m
    case NameTooShort => (34, '2')
    case NameTooLong => (34, '0')
    case InvalidEmail => (21, 'm')
    case PasswordTooShort => (38, '8')
    case PasswordTooWeak => (89, 'd')
    case PasswordRequired => (20, ' ')
    case PasswordsDontMatch => (21, ' ')
  }

  lemma TextHasKey(m: Message)
    ensures |Text(m)| >= 12 && (|Text(m)|, Text(m)[|Text(m)| - 12]) == TextKey(m)
  {
  }

  /**
   * Distinct messages have distinct wording, so modelling the messages as a
   * datatype loses nothing of the strings zod reports.
   */
  lemma TextIsInjective(m: Message, n: Message)
    requires Text(m) == Text(n)
    ensures m == n
  {
    TextHasKey(m);
    TextHasKey(n);
    assert TextKey(m) == TextKey(n);
  }

  datatype RegisterForm = RegisterForm(name: string, email: string, password: string, confirmPassword: string)
  datatype LoginForm = LoginForm(email: string, password: string, remember: Option<bool>)
  datatype ForgotPasswordForm = ForgotPasswordForm(email: string)
  datatype ResetPasswordForm = ResetPasswordForm(password: string, confirmPassword: string)

  // The check chains of each schema, field by field, as the schemas write them.

  const RegisterNameChecks := [MinLength(2, NameTooShort), MaxLength(50, NameTooLong)]
  const RegisterEmailChecks := [EmailFormat(InvalidEmail)]
  const RegisterPasswordChecks := [MinLength(8, PasswordTooShort), StrongPasswordPattern(PasswordTooWeak)]
  const LoginEmailChecks := [EmailFormat(InvalidEmail)]
  const LoginPasswordChecks := [MinLength(1, PasswordRequired)]
  const ForgotPasswordEmailChecks := [EmailFormat(InvalidEmail)]
  const ResetPasswordChecks := [MinLength(8, PasswordTooShort), StrongPasswordPattern(PasswordTooWeak)]

  /**
   * The object-level `refine` of the register and reset schemas: zod runs it
   * once every field is a string, whatever the field checks reported.
   */
  function ConfirmationRefinement(password: string, confirmPassword: string): set<AuthIssue> {
    if password == confirmPassword then {} else {Issue(ConfirmPassword, PasswordsDontMatch)}
  }

  /** The issues attached to `path`. */
  function At(issues: set<AuthIssue>, path: Field): set<AuthIssue> {
    set i | i in issues && i.path == path
  }

  /** Every set of issues splits into the issues of the four fields. */
  lemma PartitionByField(issues: set<AuthIssue>)
    ensures issues == At(issues, Name) + At(issues, Email) + At(issues, Password) + At(issues, ConfirmPassword)
  {
    forall i | i in issues
      ensures i in At(issues, Name) + At(issues, Email) + At(issues, Password) + At(issues, ConfirmPassword)
    {
      match i.path
      case Name =>
      case Email =>
      case Password =>
      case ConfirmPassword =>
    }
  }

  /**
   * The register form's rules, one per issue: the condition under which the
   * register schema is meant to raise it.
   */
  predicate RegisterRule(isEmail: string -> bool, f: RegisterForm, i: AuthIssue) {
    match i
    case Issue(Name, NameTooShort) => Length(f.name) < 2
    case Issue(Name, NameTooLong) => Length(f.name) > 50
    case Issue(Email, InvalidEmail) => !isEmail(f.email)
    case Issue(Password, PasswordTooShort) => Length(f.password) < 8
    case Issue(Password, PasswordTooWeak) => !StrongPassword(f.password)
    case Issue(ConfirmPassword, PasswordsDontMatch) => f.password != f.confirmPassword
    case _ => false
  }

  function RegisterIssues(isEmail: string -> bool, f: RegisterForm): (r: set<AuthIssue>)
    ensures forall i :: i in r <==> RegisterRule(isEmail, f, i)
  {
    var name := StringIssues(isEmail, Name, RegisterNameChecks, f.name);
    var email := StringIssues(isEmail, Email, RegisterEmailChecks, f.email);
    var password := StringIssues(isEmail, Password, RegisterPasswordChecks, f.password);
    var confirm := StringIssues(isEmail, ConfirmPassword, [], f.confirmPassword);
    ChainOfTwo(isEmail, Name, RegisterNameChecks[0], RegisterNameChecks[1], f.name);
    ChainOfOne(isEmail, Email, RegisterEmailChecks[0], f.email);
    ChainOfTwo(isEmail, Password, RegisterPasswordChecks[0], RegisterPasswordChecks[1], f.password);
    ChainOfNone<Field, Message>(isEmail, ConfirmPassword, f.confirmPassword);
    name + email + password + confirm + ConfirmationRefinement(f.password, f.confirmPassword)
  }

  /** The login form's rules: a well-formed e-mail and any non-empty password. */
  predicate LoginRule(isEmail: string -> bool, f: LoginForm, i: AuthIssue) {
    match i
    case Issue(Email, InvalidEmail) => !isEmail(f.email)
    case Issue(Password, PasswordRequired) => f.password == []
    case _ => false
  }

  function LoginIssues(isEmail: string -> bool, f: LoginForm): (r: set<AuthIssue>)
    ensures forall i :: i in r <==> LoginRule(isEmail, f, i)
  {
    // `remember: z.boolean().optional()` accepts an absent flag and either boolean
    ChainOfOne(isEmail, Email, LoginEmailChecks[0], f.email);
    ChainOfOne(isEmail, Password, LoginPasswordChecks[0], f.password);
    StringIssues(isEmail, Email, LoginEmailChecks, f.email)
    + StringIssues(isEmail, Password, LoginPasswordChecks, f.password)
  }

  /** The forgot-password form's one rule: a well-formed e-mail. */
  predicate ForgotPasswordRule(isEmail: string -> bool, f: ForgotPasswordForm, i: AuthIssue) {
    i == Issue(Email, InvalidEmail) && !isEmail(f.email)
  }

  function ForgotPasswordIssues(isEmail: string -> bool, f: ForgotPasswordForm): (r: set<AuthIssue>)
    ensures forall i :: i in r <==> ForgotPasswordRule(isEmail, f, i)
  {
    ChainOfOne(isEmail, Email, ForgotPasswordEmailChecks[0], f.email);
    StringIssues(isEmail, Email, ForgotPasswordEmailChecks, f.email)
  }

  /** The reset-password form's rules: a long and strong enough password, confirmed. */
  predicate ResetPasswordRule(f: ResetPasswordForm, i: AuthIssue) {
    match i
    case Issue(Password, PasswordTooShort) => Length(f.password) < 8
    case Issue(Password, PasswordTooWeak) => !StrongPassword(f.password)
    case Issue(ConfirmPassword, PasswordsDontMatch) => f.password != f.confirmPassword
    case _ => false
  }

  function ResetPasswordIssues(f: ResetPasswordForm): (r: set<AuthIssue>)
    ensures forall i :: i in r <==> ResetPasswordRule(f, i)
  {
    // the schema has no e-mail field, so the e-mail check is never consulted
    var noEmailCheck := (s: string) => true;
    ChainOfTwo(noEmailCheck, Password, ResetPasswordChecks[0], ResetPasswordChecks[1], f.password);
    ChainOfNone<Field, Message>(noEmailCheck, ConfirmPassword, f.confirmPassword);
    StringIssues(noEmailCheck, Password, ResetPasswordChecks, f.password)
    + StringIssues(noEmailCheck, ConfirmPassword, [], f.confirmPassword)
    + ConfirmationRefinement(f.password, f.confirmPassword)
  }
}
