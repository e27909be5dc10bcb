/** The decision rules of the user administration endpoints: the whitelist of
    sort properties and the login/email conflict checks of createUser and
    updateUser. The user repository is a pair of lookup maps. */
module UserManagement {
  import opened JavaLang

  /** A stored user as the conflict checks see it. Stored users always have an id. */
  datatype User = User(id: int, login: string, email: string)

  /** The repository lookups: findOneByLogin (exact match on the stored,
      lower-case login) and findOneByEmailIgnoreCase (keyed by the lower-cased
      email). */
  datatype UserDirectory = UserDirectory(byLogin: map<string, User>, byEmail: map<string, User>)

  function FindOneByLogin(users: UserDirectory, login: string): (r: Option<User>)
    ensures r.Some? <==> login in users.byLogin
    ensures r.Some? ==> r.value == users.byLogin[login]
  {
    if login in users.byLogin then Some(users.byLogin[login]) else None
  }

  function FindOneByEmailIgnoreCase(users: UserDirectory, email: string): (r: Option<User>)
    ensures r.Some? <==> ToLower(email) in users.byEmail
    ensures r.Some? ==> r.value == users.byEmail[ToLower(email)]
  {
    if ToLower(email) in users.byEmail then Some(users.byEmail[ToLower(email)]) else None
  }

  /** The fields of the submitted AdminUserDTO the checks read. */
  datatype UserForm = UserForm(id: Option<int>, login: string, email: string)

  /** ALLOWED_ORDERED_PROPERTIES. */
  const ALLOWED_ORDERED_PROPERTIES: seq<string> := [
    "id", "login", "firstName", "lastName", "email", "activated",
    "langKey", "createdBy", "createdDate", "lastModifiedBy", "lastModifiedDate"]

  /** onlyContainsAllowedProperties: allMatch over the sort orders' properties. */
  function OnlyContainsAllowedProperties(sort: seq<string>): (r: bool)
    ensures r <==> forall i :: 0 <= i < |sort| ==> sort[i] in ALLOWED_ORDERED_PROPERTIES
  {
    if sort == [] then true
    else sort[0] in ALLOWED_ORDERED_PROPERTIES && OnlyContainsAllowedProperties(sort[1..])
  }

  /** An unsorted page request is allowed; a sort on a property outside the list,
      such as the password hash or a differently cased name, is refused. */
  lemma SortWhitelistExamples()
    ensures OnlyContainsAllowedProperties([])
    ensures OnlyContainsAllowedProperties(["lastName", "createdDate"])
    ensures !OnlyContainsAllowedProperties(["login", "password"])
    ensures !OnlyContainsAllowedProperties(["Login"])
  {
    assert ["lastName", "createdDate"][0] == ALLOWED_ORDERED_PROPERTIES[3];
    assert ["lastName", "createdDate"][1] == ALLOWED_ORDERED_PROPERTIES[8];
    assert ["login", "password"][1] == "password";
    assert "password" !in ALLOWED_ORDERED_PROPERTIES;
    assert ["Login"][0] == "Login";
    assert "Login" !in ALLOWED_ORDERED_PROPERTIES;
  }

  /** Sorting by several keys is allowed exactly when each part is allowed. */
  lemma {:induction false} AllowedPropertiesConcat(a: seq<string>, b: seq<string>)
    ensures OnlyContainsAllowedProperties(a + b) <==> OnlyContainsAllowedProperties(a) && OnlyContainsAllowedProperties(b)
  {
    forall i | 0 <= i < |a| ensures (a + b)[i] == a[i] { }
    forall i | 0 <= i < |b| ensures (a + b)[|a| + i] == b[i] { }
    if OnlyContainsAllowedProperties(a) && OnlyContainsAllowedProperties(b) {
      forall i | 0 <= i < |a + b| ensures (a + b)[i] in ALLOWED_ORDERED_PROPERTIES {
        if i >= |a| { assert (a + b)[i] == b[i - |a|]; }
      }
    }
  }

  /** getAllUsers: a bad request without querying, or the listing. */
  datatype ListOutcome = BadRequest | Listed

  function GetAllUsers(sort: seq<string>): (r: ListOutcome)
    ensures r == Listed <==> forall i :: 0 <= i < |sort| ==> sort[i] in ALLOWED_ORDERED_PROPERTIES
  {
    if !OnlyContainsAllowedProperties(sort) then BadRequest else Listed
  }

  /** The result of createUser/updateUser's checks: the exception thrown, or the
      go-ahead to call the user service. */
  datatype Check = IdExists | LoginAlreadyUsed | EmailAlreadyUsed | Proceed

  /** createUser: a new user may not carry an id, then the lower-cased login must
      be free, then the email must be free ignoring case. */
  function CreateUserCheck(users: UserDirectory, form: UserForm): (r: Check)
    ensures r == IdExists <==> form.id.Some?
    ensures r == LoginAlreadyUsed <==> form.id.None? && ToLower(form.login) in users.byLogin
    ensures r == EmailAlreadyUsed
        <==> form.id.None? && ToLower(form.login) !in users.byLogin && ToLower(form.email) in users.byEmail
    ensures r == Proceed
        <==> form.id.None? && ToLower(form.login) !in users.byLogin && ToLower(form.email) !in users.byEmail
  {
    if form.id.Some? then IdExists
    else if FindOneByLogin(users, ToLower(form.login)).Some? then LoginAlreadyUsed
    else if FindOneByEmailIgnoreCase(users, form.email).Some? then EmailAlreadyUsed
    else Proceed
  }

  /** `existing.getId().equals(form.getId())`: false when the form has no id. */
  predicate SameId(existing: User, formId: Option<int>)
  {
    formId == Some(existing.id)
  }

  /** updateUser: the email may only belong to the edited user (by id), checked
      first; then the same for the lower-cased login. */
  function UpdateUserCheck(users: UserDirectory, form: UserForm): (r: Check)
    ensures r != IdExists
    ensures r == EmailAlreadyUsed <==>
      ToLower(form.email) in users.byEmail && form.id != Some(users.byEmail[ToLower(form.email)].id)
    ensures r == LoginAlreadyUsed <==>
      (ToLower(form.email) in users.byEmail ==> form.id == Some(users.byEmail[ToLower(form.email)].id))
      && ToLower(form.login) in users.byLogin && form.id != Some(users.byLogin[ToLower(form.login)].id)
  {
    var byEmail := FindOneByEmailIgnoreCase(users, form.email);
    if byEmail.Some? && !SameId(byEmail.value, form.id) then EmailAlreadyUsed
    else
      var byLogin := FindOneByLogin(users, ToLower(form.login));
      if byLogin.Some? && !SameId(byLogin.value, form.id) then LoginAlreadyUsed
      else Proceed
  }

  /** A user that keeps its own login and email passes the update checks. */
  lemma UpdateKeepsOwnLoginAndEmail(users: UserDirectory, u: User, form: UserForm)
    requires ToLower(form.login) in users.byLogin && users.byLogin[ToLower(form.login)] == u
    requires ToLower(form.email) in users.byEmail && users.byEmail[ToLower(form.email)] == u
    requires form.id == Some(u.id)
    ensures UpdateUserCheck(users, form) == Proceed
  {
  }

  /** Order of the checks: with both the login and the email taken by other users,
      createUser reports the login while updateUser reports the email. */
  lemma CheckOrderDiffers(users: UserDirectory, form: UserForm)
    requires form.id.None?
    requires ToLower(form.login) in users.byLogin && ToLower(form.email) in users.byEmail
    ensures CreateUserCheck(users, form) == LoginAlreadyUsed
    ensures UpdateUserCheck(users, form) == EmailAlreadyUsed
  {
  }

  /** Without an id in the form, updateUser finds a conflict exactly when createUser
      does: a stored user's id never equals a missing id. */
  lemma UpdateWithoutIdConflictsLikeCreate(users: UserDirectory, form: UserForm)
    requires form.id.None?
    ensures UpdateUserCheck(users, form) == Proceed <==> CreateUserCheck(users, form) == Proceed
  {
  }
}
