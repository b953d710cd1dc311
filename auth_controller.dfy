/** The account flows of AuthController: which answer `Login`, `ConfirmEmail` and
    `Register` give, and how `Register` changes the account table inside its transaction.
    The identity library, the time-zone database and the mail server are collaborators
    whose answers are given as functions. */
module Auth {
  import opened Common
  import opened Data
  import opened Models
  import opened Tokens

  /** What the controller answers; the strings are the source's. */
  datatype AuthResult =
    | OkToken(token: Jwt)
    | OkMessage(message: string)
    | BadRequest(message: string)
    | Unauthorized
    | NotFound(message: string)
    | ServerError(message: string)

  const LoginErrorMessage: string := "An unexpected error occurred."
  const AllFieldsRequiredMessage: string := "Registration Error: All fields are required."
  const EmailInUseMessage: string := "Registration Error: Email address is already in use."
  const InvalidTimeZoneMessage: string := "Registration Error: Invalid time zone."
  const RegistrationFailedMessage: string := "Registration Error: Registration failed."
  const RegistrationErrorMessage: string := "Registration Error: An error occurred during user registration."
  const UserNotFoundMessage: string := "User not found."
  const EmailConfirmedMessage: string := "Email confirmed successfully."
  const ConfirmationFailedMessage: string := "Email confirmation failed."

  /** `TimeZoneInfo.FindSystemTimeZoneById`: a zone, `null`, or a thrown
      `TimeZoneNotFoundException`. */
  datatype ZoneLookup = ZoneFound | ZoneNull | ZoneThrows

  /** `UserManager.CreateAsync`: a succeeded or failed result, `null`, or an exception. */
  datatype CreationResult = CreateSucceeded | CreateFailed | CreateNull | CreateThrew

  /** The collaborators' answers. `sendVerificationEmail` covers generating the
      confirmation token and sending the mail, and is false when either throws;
      `newUserId` is the id the identity library gives a new account. */
  datatype IdentityServices = IdentityServices(
    checkPassword: (ApplicationUser, string) -> bool,
    confirmEmail: (ApplicationUser, string) -> bool,
    findTimeZone: string -> ZoneLookup,
    createUser: (ApplicationUser, string) -> CreationResult,
    sendVerificationEmail: string -> bool,
    newUserId: string)

  // ---------------------------------------------------------------------------
  // Lookups in the account table

  /** The first account that `matches` accepts. */
  function FindFirst(users: seq<ApplicationUser>, matches: ApplicationUser -> bool): (r: Option<ApplicationUser>)
    ensures r.Some? ==> r.value in users && matches(r.value)
    ensures r.None? <==> forall i :: 0 <= i < |users| ==> !matches(users[i])
  {
    if users == [] then None
    else if matches(users[0]) then Some(users[0])
    else FindFirst(users[1..], matches)
  }

  /** `UserManager.FindByNameAsync`. */
  function FindByName(users: seq<ApplicationUser>, name: string): (r: Option<ApplicationUser>)
    ensures r.Some? ==> r.value in users && r.value.UserName == Some(name)
    ensures r.None? <==> forall i :: 0 <= i < |users| ==> users[i].UserName != Some(name)
  {
    FindFirst(users, (u: ApplicationUser) => u.UserName == Some(name))
  }

  /** `UserManager.FindByEmailAsync`. */
  function FindByEmail(users: seq<ApplicationUser>, email: string): (r: Option<ApplicationUser>)
    ensures r.Some? ==> r.value in users && r.value.Email == Some(email)
    ensures r.None? <==> !EmailInUse(users, email)
  {
    FindFirst(users, (u: ApplicationUser) => u.Email == Some(email))
  }

  predicate EmailInUse(users: seq<ApplicationUser>, email: string)
  {
    exists i :: 0 <= i < |users| && users[i].Email == Some(email)
  }

  /** No two accounts share an email address. */
  predicate EmailsUnique(users: seq<ApplicationUser>)
  {
    forall i, j :: 0 <= i < j < |users| && users[i].Email.Some? ==> users[i].Email != users[j].Email
  }

  /** With unique addresses, the account found by email is the only one holding it. */
  lemma FindByEmailUnique(users: seq<ApplicationUser>, email: string, k: nat)
    requires EmailsUnique(users)
    requires k < |users| && users[k].Email == Some(email)
    ensures FindByEmail(users, email) == Some(users[k])
  {
  }

  // ---------------------------------------------------------------------------
  // Login and ConfirmEmail

  /** `Login`: a token exactly when an account has that user name and the password check
      succeeds and its claims can be built; `Unauthorized` when the account is missing or
      the password is wrong; the generic error when building the token throws. */
  function Login(users: seq<ApplicationUser>, model: LoginModel, services: IdentityServices): (r: AuthResult)
    ensures
      var found := FindByName(users, model.Username);
      && (r.OkToken? <==>
            found.Some? && services.checkPassword(found.value, model.Password) && ClaimValuesPresent(found.value))
      && (r == Unauthorized <==>
            !(found.Some? && services.checkPassword(found.value, model.Password)))
      && (r.OkToken? || r == Unauthorized || r == ServerError(LoginErrorMessage))
    ensures r.OkToken? ==>
      var found := FindByName(users, model.Username);
      && found.Some? && GenerateJwtToken(found.value) == Some(r.token)
      && FindFirstValue(r.token.claims, "sub") == Some(found.value.Id)
    ensures r.OkToken? ==>
      exists i :: 0 <= i < |users| && users[i].UserName == Some(model.Username)
               && FindFirstValue(r.token.claims, "sub") == Some(users[i].Id)
  {
    var found := FindByName(users, model.Username);
    if found.Some? && services.checkPassword(found.value, model.Password) then
      match GenerateJwtToken(found.value)
      case None => ServerError(LoginErrorMessage)
      case Some(t) =>
        ClaimsRoundTrip(found.value);
        var i :| 0 <= i < |users| && users[i] == found.value;
        OkToken(t)
    else Unauthorized
  }

  /** `ConfirmEmail`: `NotFound` for an unknown address, `Ok` when the identity store accepts
      the token for that account, `BadRequest` otherwise. */
  function ConfirmEmail(users: seq<ApplicationUser>, token: string, email: string, services: IdentityServices): (r: AuthResult)
    ensures r == NotFound(UserNotFoundMessage) <==> !EmailInUse(users, email)
    ensures r == OkMessage(EmailConfirmedMessage) <==>
      EmailInUse(users, email) && services.confirmEmail(FindByEmail(users, email).value, token)
    ensures r == BadRequest(ConfirmationFailedMessage) <==>
      EmailInUse(users, email) && !services.confirmEmail(FindByEmail(users, email).value, token)
  {
    match FindByEmail(users, email)
    case None => NotFound(UserNotFoundMessage)
    case Some(u) =>
      if services.confirmEmail(u, token) then OkMessage(EmailConfirmedMessage)
      else BadRequest(ConfirmationFailedMessage)
  }

  // ---------------------------------------------------------------------------
  // Register, as a decision

  /** The six fields `Register` demands; the address fields, the middle name and the
      suffix are not among them. */
  predicate MissingRequiredField(m: RegisterModel): (missing: bool)
    ensures !missing ==>
      && m.Username.Some? && |m.Username.value| > 0 && m.Password.Some? && |m.Password.value| > 0
      && m.FirstName.Some? && |m.FirstName.value| > 0 && m.LastName.Some? && |m.LastName.value| > 0
      && m.Email.Some? && |m.Email.value| > 0 && m.TimeZoneId.Some? && |m.TimeZoneId.value| > 0
  {
    || IsNullOrEmpty(m.Username) || IsNullOrEmpty(m.Password)
    || IsNullOrEmpty(m.FirstName) || IsNullOrEmpty(m.LastName)
    || IsNullOrEmpty(m.Email) || IsNullOrEmpty(m.TimeZoneId)
  }

  /** The account `Register` builds from a request. `CompanyName` keeps its default. */
  function NewUser(m: RegisterModel, id: string): (u: ApplicationUser)
    ensures u.Id == id && u.CompanyName == Some("") && u.Email == m.Email
    ensures ClaimValuesPresent(u) <==>
      && m.Username.Some? && m.Email.Some? && m.FirstName.Some? && m.LastName.Some?
      && m.MiddleName.Some? && m.Suffix.Some? && m.Address1.Some? && m.Address2.Some?
      && m.City.Some? && m.State.Some? && m.PostalCode.Some? && m.TimeZoneId.Some?
  {
    ApplicationUser(
      Id := id,
      UserName := m.Username,
      Email := m.Email,
      FirstName := m.FirstName,
      MiddleName := m.MiddleName,
      LastName := m.LastName,
      Suffix := m.Suffix,
      CompanyName := Some(""),
      Address1 := m.Address1,
      Address2 := m.Address2,
      City := m.City,
      State := m.State,
      PostalCode := m.PostalCode,
      TimeZoneId := m.TimeZoneId,
      OptInAccountNotices := m.OptInAccountNotices,
      OptInProductNotices := m.OptInProductNotices)
  }

  /** The answer `Register` gives against the account table `users`. */
  function RegisterOutcome(users: seq<ApplicationUser>, m: RegisterModel, s: IdentityServices): (r: AuthResult)
    ensures r.OkToken? || r.BadRequest? || r.ServerError?
    ensures r.BadRequest? ==>
      r.message in {AllFieldsRequiredMessage, EmailInUseMessage, InvalidTimeZoneMessage, RegistrationFailedMessage}
    ensures r.ServerError? ==> r.message == RegistrationErrorMessage
    ensures r.OkToken? ==> !MissingRequiredField(m) && GenerateJwtToken(NewUser(m, s.newUserId)) == Some(r.token)
  {
    if MissingRequiredField(m) then BadRequest(AllFieldsRequiredMessage)
    else if FindByEmail(users, m.Email.value).Some? then BadRequest(EmailInUseMessage)
    else match s.findTimeZone(m.TimeZoneId.value)
      case ZoneThrows => ServerError(RegistrationErrorMessage)
      case ZoneNull => BadRequest(InvalidTimeZoneMessage)
      case ZoneFound =>
        var u := NewUser(m, s.newUserId);
        match s.createUser(u, m.Password.value)
        case CreateThrew => ServerError(RegistrationErrorMessage)
        case CreateFailed => BadRequest(RegistrationFailedMessage)
        case CreateNull => BadRequest(RegistrationFailedMessage)
        case CreateSucceeded =>
          if !s.sendVerificationEmail(m.Email.value) then ServerError(RegistrationErrorMessage)
          else match GenerateJwtToken(u)
            case None => ServerError(RegistrationErrorMessage)
            case Some(t) => OkToken(t)
  }

  /** The checks run in order: a missing field wins over a taken address, which wins over
      an unknown time zone, whatever the collaborators would answer. */
  lemma RegisterGuardsInOrder(users: seq<ApplicationUser>, m: RegisterModel, s: IdentityServices)
    ensures MissingRequiredField(m) ==>
      RegisterOutcome(users, m, s) == BadRequest(AllFieldsRequiredMessage)
    ensures !MissingRequiredField(m) && EmailInUse(users, m.Email.value) ==>
      RegisterOutcome(users, m, s) == BadRequest(EmailInUseMessage)
    ensures !MissingRequiredField(m) && !EmailInUse(users, m.Email.value) && s.findTimeZone(m.TimeZoneId.value) == ZoneNull ==>
      RegisterOutcome(users, m, s) == BadRequest(InvalidTimeZoneMessage)
  {
  }

  /** A registration succeeds exactly when the required fields are there, the address is
      free, the zone is found, the account is created, the mail goes out and every string
      the token carries is present. */
  lemma RegisterSucceedsIff(users: seq<ApplicationUser>, m: RegisterModel, s: IdentityServices)
    ensures RegisterOutcome(users, m, s).OkToken? <==>
      && !MissingRequiredField(m)
      && !EmailInUse(users, m.Email.value)
      && s.findTimeZone(m.TimeZoneId.value) == ZoneFound
      && s.createUser(NewUser(m, s.newUserId), m.Password.value) == CreateSucceeded
      && s.sendVerificationEmail(m.Email.value)
      && m.MiddleName.Some? && m.Suffix.Some? && m.Address1.Some? && m.Address2.Some?
      && m.City.Some? && m.State.Some? && m.PostalCode.Some?
  {
  }

  /** Past the field and address checks, each collaborator failure has its own answer: a
      throwing zone lookup, a throwing account creation, a failed mail and a throwing token
      build give the generic error; a failed or `null` creation result gives "Registration
      failed." */
  lemma RegisterFailureAnswers(users: seq<ApplicationUser>, m: RegisterModel, s: IdentityServices)
    requires !MissingRequiredField(m) && !EmailInUse(users, m.Email.value)
    ensures
      var u := NewUser(m, s.newUserId);
      var zone := s.findTimeZone(m.TimeZoneId.value);
      var created := s.createUser(u, m.Password.value);
      && (zone == ZoneThrows ==> RegisterOutcome(users, m, s) == ServerError(RegistrationErrorMessage))
      && (zone == ZoneFound && created == CreateThrew ==>
            RegisterOutcome(users, m, s) == ServerError(RegistrationErrorMessage))
      && (zone == ZoneFound && (created == CreateFailed || created == CreateNull) ==>
            RegisterOutcome(users, m, s) == BadRequest(RegistrationFailedMessage))
      && (zone == ZoneFound && created == CreateSucceeded && !s.sendVerificationEmail(m.Email.value) ==>
            RegisterOutcome(users, m, s) == ServerError(RegistrationErrorMessage))
      && (zone == ZoneFound && created == CreateSucceeded && s.sendVerificationEmail(m.Email.value)
          && GenerateJwtToken(u).None? ==>
            RegisterOutcome(users, m, s) == ServerError(RegistrationErrorMessage))
  {
  }

  /** A request that leaves out the middle name, the suffix or an address part passes every
      check of its own but cannot get a token: building the claim list throws, so once the
      account is created and the mail sent the answer is the generic error. */
  lemma OmittedOptionalFieldEndsInError(users: seq<ApplicationUser>, m: RegisterModel, s: IdentityServices)
    requires !MissingRequiredField(m) && !EmailInUse(users, m.Email.value)
    requires s.findTimeZone(m.TimeZoneId.value) == ZoneFound
    requires s.createUser(NewUser(m, s.newUserId), m.Password.value) == CreateSucceeded
    requires s.sendVerificationEmail(m.Email.value)
    requires m.MiddleName.None? || m.Suffix.None? || m.Address1.None? || m.Address2.None?
             || m.City.None? || m.State.None? || m.PostalCode.None?
    ensures RegisterOutcome(users, m, s) == ServerError(RegistrationErrorMessage)
  {
  }

  /** The token a registration returns describes the request: its subject is the new
      account's id and each profile claim reads back as the submitted field. */
  lemma RegisteredTokenCarriesRequest(users: seq<ApplicationUser>, m: RegisterModel, s: IdentityServices)
    requires RegisterOutcome(users, m, s).OkToken?
    ensures
      var cs := RegisterOutcome(users, m, s).token.claims;
      && FindFirstValue(cs, "sub") == Some(s.newUserId)
      && FindFirstValue(cs, "unique_name") == m.Username
      && FindFirstValue(cs, "email") == m.Email
      && FindFirstValue(cs, "given_name") == m.FirstName
      && FindFirstValue(cs, "family_name") == m.LastName
      && FindFirstValue(cs, "middle_name") == m.MiddleName
      && FindFirstValue(cs, "suffix") == m.Suffix
      && FindFirstValue(cs, "address1") == m.Address1
      && FindFirstValue(cs, "address2") == m.Address2
      && FindFirstValue(cs, "city") == m.City
      && FindFirstValue(cs, "state") == m.State
      && FindFirstValue(cs, "postal_code") == m.PostalCode
      && FindFirstValue(cs, "time_zone") == m.TimeZoneId
      && FindFirstValue(cs, "opt_in_account_notices") == Some(BoolToString(m.OptInAccountNotices))
      && FindFirstValue(cs, "opt_in_product_notices") == Some(BoolToString(m.OptInProductNotices))
  {
    var u := NewUser(m, s.newUserId);
    var cs := UserClaims(u).value;
    assert cs == RegisterOutcome(users, m, s).token.claims;
    ClaimsRoundTrip(u);
    assert cs[13].Value == BoolToString(m.OptInAccountNotices);
    FindFirstValueAt(cs, "opt_in_account_notices", 13);
    FindFirstValueAt(cs, "opt_in_product_notices", 14);
  }

  // ---------------------------------------------------------------------------
  // Register, as a step-by-step change of the account table

  /** The account table as the controller's database connection sees it, with the
      transaction `Register` opens. */
  class AuthController {
    /** The rows, including those written inside the open transaction. */
    var users: seq<ApplicationUser>
    /** The rows as they stood when the open transaction began. */
    var snapshot: seq<ApplicationUser>
    var inTransaction: bool

    predicate Valid()
      reads this
    {
      EmailsUnique(users) && EmailsUnique(snapshot)
    }

    constructor (storedUsers: seq<ApplicationUser>)
      requires EmailsUnique(storedUsers)
      ensures Valid() && !inTransaction && users == storedUsers
    {
      users := storedUsers;
      snapshot := storedUsers;
      inTransaction := false;
    }

    /** `Database.BeginTransaction`. */
    method BeginTransaction()
      requires Valid() && !inTransaction
      modifies this
      ensures Valid() && inTransaction
      ensures users == old(users) && snapshot == users
    {
      snapshot := users;
      inTransaction := true;
    }

    /** `RollbackAsync`: every row written since the transaction began is gone. */
    method Rollback()
      requires Valid() && inTransaction
      modifies this
      ensures Valid() && !inTransaction
      ensures users == old(snapshot)
    {
      users := snapshot;
      inTransaction := false;
    }

    /** `CommitAsync`: the rows written stay. */
    method Commit()
      requires Valid() && inTransaction
      modifies this
      ensures Valid() && !inTransaction
      ensures users == old(users)
    {
      snapshot := users;
      inTransaction := false;
    }

    /** The row `CreateAsync` writes for a new account. */
    method InsertUser(u: ApplicationUser)
      requires Valid() && inTransaction
      requires u.Email.Some? ==> !EmailInUse(users, u.Email.value)
      modifies this`users
      ensures Valid() && users == old(users) + [u]
    {
      users := users + [u];
      forall i, j | 0 <= i < j < |users| && users[i].Email.Some?
        ensures users[i].Email != users[j].Email
      {
        if j == |users| - 1 {
          assert users[i] == old(users)[i];
        }
      }
    }

    /** `Register`: the three checks, then create, mail and token inside a transaction that
        is committed only when all three succeed and rolled back otherwise. Addresses stay
        unique, and the table gains exactly the new account when, and only when, a token is
        returned. */
    method Register(model: RegisterModel, services: IdentityServices) returns (r: AuthResult)
      requires Valid() && !inTransaction
      modifies this
      ensures Valid() && !inTransaction
      ensures r == RegisterOutcome(old(users), model, services)
      ensures users == if r.OkToken? then old(users) + [NewUser(model, services.newUserId)] else old(users)
    {
      if IsNullOrEmpty(model.Username) || IsNullOrEmpty(model.Password)
         || IsNullOrEmpty(model.FirstName) || IsNullOrEmpty(model.LastName)
         || IsNullOrEmpty(model.Email) || IsNullOrEmpty(model.TimeZoneId) {
        return BadRequest(AllFieldsRequiredMessage);
      }
      var existingUser := FindByEmail(users, model.Email.value);
      if existingUser.Some? {
        return BadRequest(EmailInUseMessage);
      }
      var timeZone := services.findTimeZone(model.TimeZoneId.value);
      if timeZone == ZoneThrows {
        return ServerError(RegistrationErrorMessage);
      }
      if timeZone == ZoneNull {
        return BadRequest(InvalidTimeZoneMessage);
      }

      BeginTransaction();
      var newUser := NewUser(model, services.newUserId);
      var creationResult := services.createUser(newUser, model.Password.value);
      if creationResult == CreateThrew {
        Rollback();
        return ServerError(RegistrationErrorMessage);
      }
      if creationResult != CreateSucceeded {
        Rollback();
        return BadRequest(RegistrationFailedMessage);
      }
      InsertUser(newUser);

      var sent := services.sendVerificationEmail(newUser.Email.value);
      if !sent {
        Rollback();
        return ServerError(RegistrationErrorMessage);
      }
      var jwtToken := GenerateJwtToken(newUser);
      if jwtToken.None? {
        Rollback();
        return ServerError(RegistrationErrorMessage);
      }
      Commit();
      return OkToken(jwtToken.value);
    }
  }
}
