/**
 * What the four auth schemas accept and refuse, and how they relate to each
 * other.
 */
module AuthProperties {
  import opened JsString
  import opened PasswordPattern
  import opened ZodString
  import opened Auth

  /** A registration form the register schema is meant to accept. */
  predicate WellFormedRegistration(isEmail: string -> bool, f: RegisterForm) {
    && 2 <= Length(f.name) <= 50
    && isEmail(f.email)
    && Length(f.password) >= 8
    && StrongPassword(f.password)
    && f.password == f.confirmPassword
  }

  /** The register schema accepts a form exactly when it is well formed. */
  lemma RegisterAcceptsIff(isEmail: string -> bool, f: RegisterForm)
    ensures RegisterIssues(isEmail, f) == {} <==> WellFormedRegistration(isEmail, f)
  {
    var r := RegisterIssues(isEmail, f);
    if !WellFormedRegistration(isEmail, f) {
      if Length(f.name) < 2 { assert Issue(Name, NameTooShort) in r; }
      else if Length(f.name) > 50 { assert Issue(Name, NameTooLong) in r; }
      else if !isEmail(f.email) { assert Issue(Email, InvalidEmail) in r; }
      else if Length(f.password) < 8 { assert Issue(Password, PasswordTooShort) in r; }
      else if !StrongPassword(f.password) { assert Issue(Password, PasswordTooWeak) in r; }
      else { assert Issue(ConfirmPassword, PasswordsDontMatch) in r; }
    }
  }

  /** A name of 2 to 50 code units raises no issue on the name field, and any other length does. */
  lemma RegisterNameBounds(isEmail: string -> bool, f: RegisterForm)
    ensures At(RegisterIssues(isEmail, f), Name) == {} <==> 2 <= Length(f.name) <= 50
  {
    var r := RegisterIssues(isEmail, f);
    if Length(f.name) < 2 {
      assert Issue(Name, NameTooShort) in At(r, Name);
    } else if Length(f.name) > 50 {
      assert Issue(Name, NameTooLong) in At(r, Name);
    }
  }

  /**
   * A password long enough and matching the strength pattern raises no issue
   * on the password field of the register form; any other password does.
   */
  lemma RegisterPasswordRule(isEmail: string -> bool, f: RegisterForm)
    ensures At(RegisterIssues(isEmail, f), Password) == {} <==> Length(f.password) >= 8 && StrongPassword(f.password)
  {
    var r := RegisterIssues(isEmail, f);
    if Length(f.password) < 8 {
      assert Issue(Password, PasswordTooShort) in At(r, Password);
    } else if !StrongPassword(f.password) {
      assert Issue(Password, PasswordTooWeak) in At(r, Password);
    }
  }

  /** Register and reset report the same issues on the password field for the same password. */
  lemma ResetPasswordFieldMatchesRegister(isEmail: string -> bool, f: RegisterForm)
    ensures At(RegisterIssues(isEmail, f), Password) == At(ResetPasswordIssues(ResetPasswordForm(f.password, f.confirmPassword)), Password)
  {
    var reg := At(RegisterIssues(isEmail, f), Password);
    var reset := At(ResetPasswordIssues(ResetPasswordForm(f.password, f.confirmPassword)), Password);
    var tooShort, tooWeak := Issue(Password, PasswordTooShort), Issue(Password, PasswordTooWeak);
    assert reg <= {tooShort, tooWeak} && reset <= {tooShort, tooWeak};
    assert tooShort in reg <==> tooShort in reset;
    assert tooWeak in reg <==> tooWeak in reset;
  }

  /** Register and reset report the same issues on the confirmation field for the same two strings. */
  lemma ResetConfirmationMatchesRegister(isEmail: string -> bool, f: RegisterForm)
    ensures At(RegisterIssues(isEmail, f), ConfirmPassword) == At(ResetPasswordIssues(ResetPasswordForm(f.password, f.confirmPassword)), ConfirmPassword)
  {
    var reg := At(RegisterIssues(isEmail, f), ConfirmPassword);
    var reset := At(ResetPasswordIssues(ResetPasswordForm(f.password, f.confirmPassword)), ConfirmPassword);
    var mismatch := Issue(ConfirmPassword, PasswordsDontMatch);
    assert reg <= {mismatch} && reset <= {mismatch};
    assert mismatch in reg <==> mismatch in reset;
  }

  /**
   * The reset-password schema applies the register schema's password and
   * confirmation rules and nothing else: its issues are exactly those the
   * register schema reports on those two fields.
   */
  lemma ResetMatchesRegister(isEmail: string -> bool, f: RegisterForm)
    ensures ResetPasswordIssues(ResetPasswordForm(f.password, f.confirmPassword))
         == At(RegisterIssues(isEmail, f), Password) + At(RegisterIssues(isEmail, f), ConfirmPassword)
  {
    ResetPasswordFieldMatchesRegister(isEmail, f);
    ResetConfirmationMatchesRegister(isEmail, f);
    var reset := ResetPasswordIssues(ResetPasswordForm(f.password, f.confirmPassword));
    PartitionByField(reset);
    assert At(reset, Name) == {} && At(reset, Email) == {};
  }

  /** The reset-password schema accepts exactly a strong enough password equal to its confirmation. */
  lemma ResetAcceptsIff(f: ResetPasswordForm)
    ensures ResetPasswordIssues(f) == {} <==> Length(f.password) >= 8 && StrongPassword(f.password) && f.password == f.confirmPassword
  {
    var r := ResetPasswordIssues(f);
    if Length(f.password) < 8 { assert Issue(Password, PasswordTooShort) in r; }
    else if !StrongPassword(f.password) { assert Issue(Password, PasswordTooWeak) in r; }
    else if f.password != f.confirmPassword { assert Issue(ConfirmPassword, PasswordsDontMatch) in r; }
  }

  /** The login schema accepts a well-formed e-mail with any non-empty password. */
  lemma LoginAcceptsIff(isEmail: string -> bool, f: LoginForm)
    ensures LoginIssues(isEmail, f) == {} <==> isEmail(f.email) && f.password != []
  {
    var r := LoginIssues(isEmail, f);
    if !isEmail(f.email) { assert Issue(Email, InvalidEmail) in r; }
    else if f.password == [] { assert Issue(Password, PasswordRequired) in r; }
  }

  /** Whether `remember` is absent, true or false makes no difference to the login schema. */
  lemma LoginIgnoresRemember(isEmail: string -> bool, f: LoginForm, remember: Option<bool>)
    ensures LoginIssues(isEmail, f.(remember := remember)) == LoginIssues(isEmail, f)
  {
  }

  /**
   * The login schema has no length-8 or strength rule: a one-letter password
   * that the register schema refuses as too short and too weak is accepted
   * at login.
   */
  lemma LoginHasNoStrengthRule(isEmail: string -> bool, email: string)
    requires isEmail(email)
    ensures LoginIssues(isEmail, LoginForm(email, "a", None)) == {}
    ensures Issue(Password, PasswordTooShort) in RegisterIssues(isEmail, RegisterForm("Al", email, "a", "a"))
    ensures Issue(Password, PasswordTooWeak) in RegisterIssues(isEmail, RegisterForm("Al", email, "a", "a"))
  {
    LoginAcceptsIff(isEmail, LoginForm(email, "a", None));
  }

  /** The forgot-password schema checks the e-mail alone and accepts any well-formed one. */
  lemma ForgotPasswordAcceptsIff(isEmail: string -> bool, f: ForgotPasswordForm)
    ensures ForgotPasswordIssues(isEmail, f) == {} <==> isEmail(f.email)
  {
  }

  /**
   * Register, login and forgot-password apply one e-mail rule: for the same
   * e-mail each reports the same messages on the e-mail field.
   */
  lemma SameEmailRule(isEmail: string -> bool, f: RegisterForm, password: string, remember: Option<bool>)
    ensures var register := At(RegisterIssues(isEmail, f), Email);
            && register == At(LoginIssues(isEmail, LoginForm(f.email, password, remember)), Email)
            && register == At(ForgotPasswordIssues(isEmail, ForgotPasswordForm(f.email)), Email)
            && (register == {} <==> isEmail(f.email))
  {
    var reg := RegisterIssues(isEmail, f);
    var login := LoginIssues(isEmail, LoginForm(f.email, password, remember));
    var forgot := ForgotPasswordIssues(isEmail, ForgotPasswordForm(f.email));
    assert At(reg, Email) == At(login, Email) by {
      forall i | i in At(reg, Email) ensures i in At(login, Email) {}
    }
    assert At(reg, Email) == At(forgot, Email) by {
      forall i | i in At(reg, Email) ensures i in At(forgot, Email) {}
    }
    if !isEmail(f.email) {
      assert Issue(Email, InvalidEmail) in At(reg, Email);
    }
  }

  /** A complete registration with the password "Secret12" is accepted. */
  lemma RegisterAcceptsExample(isEmail: string -> bool, email: string)
    requires isEmail(email)
    ensures RegisterIssues(isEmail, RegisterForm("Al", email, "Secret12", "Secret12")) == {}
  {
    AcceptsSecret12();
    RegisterAcceptsIff(isEmail, RegisterForm("Al", email, "Secret12", "Secret12"));
  }
}
