/** The account endpoints' guards: the password length check and the order in
    which each endpoint validates before it calls the user and mail services.
    The services are represented by the list of calls an endpoint makes; what
    they return is an input. String lengths count characters. */
module AccountManagement {
  import opened JavaLang
  import UserManagement

  /** ManagedUserVM.PASSWORD_MIN_LENGTH and PASSWORD_MAX_LENGTH. */
  const PASSWORD_MIN_LENGTH: nat := 4
  const PASSWORD_MAX_LENGTH: nat := 100

  /** isPasswordLengthInvalid: null or empty, or shorter than the minimum, or
      longer than the maximum. */
  function IsPasswordLengthInvalid(password: Option<string>): (invalid: bool)
    ensures invalid <==> password.None? || |password.value| < PASSWORD_MIN_LENGTH || |password.value| > PASSWORD_MAX_LENGTH
  {
    password.None? || password.value == [] || |password.value| < PASSWORD_MIN_LENGTH || |password.value| > PASSWORD_MAX_LENGTH
  }

  /** A password passes exactly when it is present with 4 to 100 characters. */
  lemma PasswordValidIff(password: Option<string>)
    ensures !IsPasswordLengthInvalid(password)
        <==> password.Some? && PASSWORD_MIN_LENGTH <= |password.value| <= PASSWORD_MAX_LENGTH
  {
  }

  /** The boundaries: lengths 4 and 100 pass, 3 and 101 do not. */
  lemma PasswordLengthBoundaries(p: string)
    ensures |p| == 4 || |p| == 100 ==> !IsPasswordLengthInvalid(Some(p))
    ensures |p| == 3 || |p| == 101 ==> IsPasswordLengthInvalid(Some(p))
  {
  }

  /** The user and mail service calls an endpoint makes, in order. */
  datatype ServiceCall =
    | RegisterUser(password: string)
    | SendActivationEmail
    | UpdateAccount(email: string)
    | ChangePassword(currentPassword: Option<string>, newPassword: string)
    | RequestPasswordReset(email: string)
    | SendPasswordResetMail
    | CompletePasswordReset(newPassword: string, key: Option<string>)

  /** How the endpoint answers: a response with its message, or the exception it throws. */
  datatype Outcome =
    | Created(message: string)
    | Ok(message: string)
    | InvalidPassword
    | EmailAlreadyUsed
    | LoginAlreadyUsed
    | AccountError(message: string)

  datatype Reply = Reply(outcome: Outcome, calls: seq<ServiceCall>)

  /** The exceptions registerUser throws when the login or the email is taken. */
  datatype RegistrationRefusal = LoginTaken | EmailTaken

  /** registerAccount; `refusal` is the exception registerUser throws, None
      when it registers the user. */
  function RegisterAccount(password: Option<string>, refusal: Option<RegistrationRefusal>): (r: Reply)
    ensures r.outcome == InvalidPassword <==> IsPasswordLengthInvalid(password)
    ensures r.outcome == InvalidPassword ==> r.calls == []
    ensures r.outcome != InvalidPassword ==> r.calls != [] && r.calls[0] == RegisterUser(password.value)
    ensures r.outcome != InvalidPassword && refusal == Some(LoginTaken) ==> r == Reply(LoginAlreadyUsed, [RegisterUser(password.value)])
    ensures r.outcome != InvalidPassword && refusal == Some(EmailTaken) ==> r == Reply(EmailAlreadyUsed, [RegisterUser(password.value)])
    ensures r.outcome != InvalidPassword && refusal.None?
        ==> r.outcome == Created("User registered successfully") && r.calls == [RegisterUser(password.value), SendActivationEmail]
    ensures SendActivationEmail in r.calls <==> r.outcome.Created?
  {
    if IsPasswordLengthInvalid(password) then Reply(InvalidPassword, [])
    else
      var register := RegisterUser(password.value);
      match refusal
      case Some(LoginTaken) => Reply(LoginAlreadyUsed, [register])
      case Some(EmailTaken) => Reply(EmailAlreadyUsed, [register])
      case None => Reply(Created("User registered successfully"), [register, SendActivationEmail])
  }

  /** changePassword. */
  function ChangePasswordEndpoint(currentPassword: Option<string>, newPassword: Option<string>): (r: Reply)
    ensures r.outcome == InvalidPassword <==> IsPasswordLengthInvalid(newPassword)
    ensures r.outcome == InvalidPassword ==> r.calls == []
    ensures r.outcome != InvalidPassword
        ==> r.outcome == Ok("Password changed successfully") && r.calls == [ChangePassword(currentPassword, newPassword.value)]
  {
    if IsPasswordLengthInvalid(newPassword) then Reply(InvalidPassword, [])
    else Reply(Ok("Password changed successfully"), [ChangePassword(currentPassword, newPassword.value)])
  }

  /** finishPasswordReset; `userFound` is whether completePasswordReset found a
      user for the key. */
  function FinishPasswordReset(newPassword: Option<string>, key: Option<string>, userFound: bool): (r: Reply)
    ensures r.outcome == InvalidPassword <==> IsPasswordLengthInvalid(newPassword)
    ensures r.outcome == InvalidPassword ==> r.calls == []
    ensures r.outcome != InvalidPassword ==> r.calls == [CompletePasswordReset(newPassword.value, key)]
    ensures r.outcome != InvalidPassword && userFound ==> r.outcome == Ok("Password reset completed successfully")
    ensures r.outcome != InvalidPassword && !userFound ==> r.outcome == AccountError("No user was found for this reset key")
  {
    if IsPasswordLengthInvalid(newPassword) then Reply(InvalidPassword, [])
    else
      var calls := [CompletePasswordReset(newPassword.value, key)];
      if userFound then Reply(Ok("Password reset completed successfully"), calls)
      else Reply(AccountError("No user was found for this reset key"), calls)
  }

  /** Guard before service: each of the three password endpoints calls a service
      exactly when the new password passes the length check. */
  lemma PasswordGuardBeforeService(current: Option<string>, password: Option<string>, key: Option<string>,
                                   refusal: Option<RegistrationRefusal>, userFound: bool)
    ensures RegisterAccount(password, refusal).calls != [] <==> !IsPasswordLengthInvalid(password)
    ensures ChangePasswordEndpoint(current, password).calls != [] <==> !IsPasswordLengthInvalid(password)
    ensures FinishPasswordReset(password, key, userFound).calls != [] <==> !IsPasswordLengthInvalid(password)
  {
  }

  /** requestPasswordReset; `userFound` is whether the service found a user for
      the email. The reset mail goes out only to an existing user. */
  function RequestPasswordResetEndpoint(email: string, userFound: bool): (r: Reply)
    ensures r.calls != [] && r.calls[0] == RequestPasswordReset(email)
    ensures SendPasswordResetMail in r.calls <==> userFound
    ensures r.outcome == Ok("Password reset request processed")
  {
    Reply(Ok("Password reset request processed"),
          [RequestPasswordReset(email)] + (if userFound then [SendPasswordResetMail] else []))
  }

  /** The answer does not reveal whether the email belongs to a user. */
  lemma PasswordResetDoesNotRevealEmails(email: string)
    ensures RequestPasswordResetEndpoint(email, true).outcome == RequestPasswordResetEndpoint(email, false).outcome
  {
  }

  /** saveAccount. `currentLogin` is the authenticated user's login (None when
      there is none). */
  function SaveAccount(users: UserManagement.UserDirectory, currentLogin: Option<string>, email: string): (r: Reply)
    ensures currentLogin.None? ==> r == Reply(AccountError("Current user login not found"), [])
    ensures currentLogin.Some? ==>
      (r.outcome == EmailAlreadyUsed <==>
        ToLower(email) in users.byEmail && !EqualsIgnoreCase(users.byEmail[ToLower(email)].login, currentLogin.value))
    ensures r.calls != [] <==> r.outcome == Ok("Account updated successfully")
    ensures r.calls != [] ==> r.calls == [UpdateAccount(email)] && currentLogin.value in users.byLogin
    ensures currentLogin.Some? && r.outcome != EmailAlreadyUsed ==>
      (r.outcome == Ok("Account updated successfully") <==> currentLogin.value in users.byLogin)
    ensures currentLogin.Some? && r.outcome != EmailAlreadyUsed && currentLogin.value !in users.byLogin
      ==> r == Reply(AccountError("User could not be found"), [])
    ensures r.outcome == EmailAlreadyUsed ==> r.calls == []
  {
    if currentLogin.None? then Reply(AccountError("Current user login not found"), [])
    else
      var existing := UserManagement.FindOneByEmailIgnoreCase(users, email);
      if existing.Some? && !EqualsIgnoreCase(existing.value.login, currentLogin.value) then Reply(EmailAlreadyUsed, [])
      else if UserManagement.FindOneByLogin(users, currentLogin.value).None? then Reply(AccountError("User could not be found"), [])
      else Reply(Ok("Account updated successfully"), [UpdateAccount(email)])
  }

  /** The current user may keep its own email, whatever the case of the stored login. */
  lemma SaveAccountKeepsOwnEmail(users: UserManagement.UserDirectory, login: string, email: string)
    requires ToLower(email) in users.byEmail && ToLower(users.byEmail[ToLower(email)].login) == ToLower(login)
    requires login in users.byLogin
    ensures SaveAccount(users, Some(login), email).outcome == Ok("Account updated successfully")
  {
  }
}
