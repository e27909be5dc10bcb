/** AgentRegistrationDTO: the request body that registers an agent together
    with its user account. Its content is field defaults and bean validation
    constraints. */
module AgentRegistration {
  import opened JavaLang
  import opened Patterns
  import opened Validation
  import Agents

  datatype Registration = Registration(
    login: Option<string>,
    firstName: Option<string>,
    lastName: Option<string>,
    email: Option<string>,
    langKey: Option<string>,
    phoneNumber: Option<string>,
    status: Option<Agents.AgentStatus>,
    region: Option<string>,
    district: Option<string>,
    ward: Option<string>)

  /** The no-argument constructor: langKey "en", status ACTIVE, every other
      field null. */
  function NewRegistration(): (r: Registration)
    ensures r.langKey == Some("en") && r.status == Some(Agents.ACTIVE)
    ensures r.login.None? && r.firstName.None? && r.lastName.None? && r.email.None? && r.phoneNumber.None?
    ensures r.region.None? && r.district.None? && r.ward.None?
  {
    Registration(None, None, None, None, Some("en"), None, Some(Agents.ACTIVE), None, None, None)
  }

  /** The six-argument constructor: sets login, names, email, phone number and
      status; langKey keeps its default and region, district and ward stay null. */
  function RegistrationOf(login: Option<string>, firstName: Option<string>, lastName: Option<string>,
                          email: Option<string>, phoneNumber: Option<string>, status: Option<Agents.AgentStatus>): (r: Registration)
    ensures r == NewRegistration().(login := login, firstName := firstName, lastName := lastName,
                                    email := email, phoneNumber := phoneNumber, status := status)
  {
    Registration(login, firstName, lastName, email, Some("en"), phoneNumber, status, None, None, None)
  }

  /** The login's three constraints: @NotBlank, the phone pattern and @Size(1, 50). */
  predicate ValidLogin(login: Option<string>)
  {
    NotBlank(login) && PatternOk(DTO_PHONE, login) && SizeOk(login, 1, 50)
  }

  /** The phone number's constraints: @NotBlank and the phone pattern. */
  predicate ValidPhoneNumber(phoneNumber: Option<string>)
  {
    NotBlank(phoneNumber) && PatternOk(DTO_PHONE, phoneNumber)
  }

  /** Every field constraint of the DTO. The @Email format check is not part of
      the model; only the email's size is. */
  predicate ValidRegistration(r: Registration)
  {
    && ValidLogin(r.login)
    && SizeOk(r.firstName, 0, 50) && SizeOk(r.lastName, 0, 50)
    && SizeOk(r.email, 5, 254)
    && SizeOk(r.langKey, 0, 6)
    && ValidPhoneNumber(r.phoneNumber)
    && NotNull(r.status)
    && SizeOk(r.region, 0, 100) && SizeOk(r.district, 0, 100) && SizeOk(r.ward, 0, 100)
  }

  /** The pattern decides the login on its own: a login passes exactly when it
      is a Tanzanian mobile number, and then it is not blank and has 10 to 13
      characters, so @NotBlank and @Size add nothing. */
  lemma ValidLoginIff(login: Option<string>)
    ensures ValidLogin(login) <==> login.Some? && IsDtoPhone(login.value)
    ensures ValidLogin(login) ==> 10 <= |login.value| <= 13
  {
    if login.Some? {
      DtoPhoneIff(login.value);
      if Matches(DTO_PHONE, login.value) {
        DtoPhoneShape(login.value);
      }
    }
  }

  /** The same for the phone number. */
  lemma ValidPhoneNumberIff(phoneNumber: Option<string>)
    ensures ValidPhoneNumber(phoneNumber) <==> phoneNumber.Some? && IsDtoPhone(phoneNumber.value)
  {
    if phoneNumber.Some? {
      DtoPhoneIff(phoneNumber.value);
      if Matches(DTO_PHONE, phoneNumber.value) {
        DtoPhoneShape(phoneNumber.value);
      }
    }
  }

  /** A DTO built with the six-argument constructor is valid exactly when its six
      arguments are: the defaults it keeps meet their own constraints. */
  lemma RegistrationOfValidIff(login: Option<string>, firstName: Option<string>, lastName: Option<string>,
                               email: Option<string>, phoneNumber: Option<string>, status: Option<Agents.AgentStatus>)
    ensures ValidRegistration(RegistrationOf(login, firstName, lastName, email, phoneNumber, status)) <==>
      && login.Some? && IsDtoPhone(login.value)
      && SizeOk(firstName, 0, 50) && SizeOk(lastName, 0, 50) && SizeOk(email, 5, 254)
      && phoneNumber.Some? && IsDtoPhone(phoneNumber.value)
      && status.Some?
  {
    ValidLoginIff(login);
    ValidPhoneNumberIff(phoneNumber);
  }

  /** The no-argument DTO is invalid until a login and a phone number are set. */
  lemma NewRegistrationNeedsLoginAndPhone()
    ensures !ValidRegistration(NewRegistration())
    ensures ValidRegistration(NewRegistration().(login := Some("0712345678"), phoneNumber := Some("0712345678")))
  {
    var p := "0712345678";
    ValidLoginIff(Some(p));
    ValidPhoneNumberIff(Some(p));
    assert MobileTail(p[1..]) by {
      assert p[1..] == "712345678";
    }
  }

  /** Every phone number the Agent entity accepts passes the DTO's constraints;
      the converse fails: "255712345678" passes the DTO and is refused by the
      Agent entity, whatever its other fields. */
  lemma RegistrationPhoneVersusAgentPhone(phoneNumber: string, agent: Agents.AgentFields)
    ensures Matches(AGENT_PHONE, phoneNumber) ==> ValidPhoneNumber(Some(phoneNumber))
    ensures ValidPhoneNumber(Some("255712345678"))
    ensures !Agents.ValidAgent(agent.(phoneNumber := Some("255712345678")))
  {
    if Matches(AGENT_PHONE, phoneNumber) {
      AgentPhoneIsDtoPhone(phoneNumber);
      DtoPhoneShape(phoneNumber);
    }
    DtoAcceptsWhatAgentRejects();
    DtoPhoneShape("255712345678");
  }
}
